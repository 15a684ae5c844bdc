/** Flushes end: none waits in a circle. A work that awaits a flush it called inside its turn settles only after that flush
    has returned, one that awaits another call only after what that call started; a forced flush may wait for the one in
    flight, and an export for its turn. */
module SqljsProgress {
  import opened Wrappers
  import opened SqljsQueue
  import opened SqljsFlush
  import D = SqljsDurability
  import Serial = SqljsSerial

  /** The action brings a flush or a turn closer to its end; calls, statements and dirty marks do not. */
  predicate Advances(a: Action) {
    match a
    case Plain(e) => e.Start? || e.Finish?
    case MarkDirty => false
    case CallFlush(_, _, _) => false
    case _ => true
  }

  /** How many advancing actions a flush may still need; one that waits for another has its own turn ahead of it. */
  function Rank(phase: Phase): nat {
    match phase
    case AwaitInFlight(_) => 7
    case Queued => 4
    case Looping => 3
    case Writing(_) => 2
    case Landed(_) => 1
    case Returned(_) => 0
  }

  function Ranks(flushes: seq<Flush>): nat {
    if flushes == [] then 0 else Ranks(flushes[..|flushes| - 1]) + Rank(flushes[|flushes| - 1].phase)
  }

  lemma {:induction false} RanksUpdate(flushes: seq<Flush>, f: nat, flush: Flush)
    requires f < |flushes|
    ensures Ranks(flushes[f := flush]) == Ranks(flushes) - Rank(flushes[f].phase) + Rank(flush.phase)
  {
    var n := |flushes| - 1;
    if f < n {
      RanksUpdate(flushes[..n], f, flush);
      assert flushes[f := flush][..n] == flushes[..n][f := flush];
    } else {
      assert flushes[f := flush][..n] == flushes[..n];
    }
  }

  lemma {:induction false} UnfinishedCounts(flushes: seq<Flush>, f: nat)
    requires f < |flushes| && !flushes[f].phase.Returned?
    ensures Ranks(flushes) > 0
  {
    if f < |flushes| - 1 { UnfinishedCounts(flushes[..|flushes| - 1], f); }
  }

  lemma {:induction false} FirstUnfinished(flushes: seq<Flush>) returns (f: nat)
    requires Ranks(flushes) > 0
    ensures f < |flushes| && !flushes[f].phase.Returned? && forall g | 0 <= g < f :: flushes[g].phase.Returned?
  {
    var n := |flushes| - 1;
    if Ranks(flushes[..n]) > 0 {
      f := FirstUnfinished(flushes[..n]);
      assert forall g | 0 <= g <= f :: flushes[..n][g] == flushes[g];
    } else {
      f := n;
      forall g | 0 <= g < n ensures flushes[g].phase.Returned? {
        if !flushes[g].phase.Returned? { UnfinishedCounts(flushes[..n], g); }
      }
    }
  }

  /** What is left to do. */
  ghost function Left(s: Sys): nat { Serial.Owed(s.db.queue) + Ranks(s.flushes) }

  lemma {:induction false} OwedAfterEnqueue(q: Queue)
    ensures Serial.Owed(Enqueue(q, None)) == Serial.Owed(q) + 2
  {
    var turn := Turn(true, false, 0);
    assert (q.turns + [turn])[..|q.turns|] == q.turns;
  }

  lemma ResumingQueues(s: Sys, f: nat) returns (flush: Flush)
    requires Possible(s, Resume(f))
    ensures flush == s.flushes[f].(own := true, turn := |s.db.queue.turns|, phase := Queued)
    ensures Effect(s, Resume(f)).flushes == s.flushes[f := flush]
    ensures Effect(s, Resume(f)).db == s.db.(queue := Enqueue(s.db.queue, None))
  {
    D.BeginLeavesOthers(s, Effect(s, Resume(f)), f, s.flushes[f], None);
    flush := Effect(s, Resume(f)).flushes[f];
  }

  lemma QueueingLeavesLess(q: Queue, flushes: seq<Flush>, f: nat, flush: Flush)
    requires f < |flushes| && flushes[f].phase.AwaitInFlight? && flush.phase.Queued?
    ensures Serial.Owed(Enqueue(q, None)) + Ranks(flushes[f := flush]) < Serial.Owed(q) + Ranks(flushes)
  {
    OwedAfterEnqueue(q);
    RanksUpdate(flushes, f, flush);
  }

  lemma ResumingLeavesLess(s: Sys, f: nat)
    requires Possible(s, Resume(f))
    ensures Left(Effect(s, Resume(f))) < Left(s)
  {
    var flush := ResumingQueues(s, f);
    QueueingLeavesLess(s.db.queue, s.flushes, f, flush);
  }

  lemma StartingLeavesLess(s: Sys, f: nat)
    requires SysInv(s) && Possible(s, StartExport(f))
    ensures Left(Effect(s, StartExport(f))) < Left(s)
  {
    Serial.DrainStepPays(s.db, Start(s.flushes[f].turn));
    RanksUpdate(s.flushes, f, Effect(s, StartExport(f)).flushes[f]);
  }

  /** An action that moves one flush on and leaves the queue alone. */
  lemma MovingLeavesLess(s: Sys, s': Sys, f: nat, flush: Flush)
    requires f < |s.flushes| && s'.flushes == s.flushes[f := flush] && s'.db.queue == s.db.queue
    requires Rank(flush.phase) < Rank(s.flushes[f].phase)
    ensures Left(s') < Left(s)
  {
    RanksUpdate(s.flushes, f, flush);
  }

  lemma AdvancingLeavesLess(s: Sys, a: Action)
    requires SysInv(s) && Possible(s, a) && Advances(a)
    ensures Left(Effect(s, a)) < Left(s)
  {
    match a
    case Plain(e) => Serial.DrainStepPays(s.db, e);
    case Resume(f) => ResumingLeavesLess(s, f);
    case StartExport(f) => StartingLeavesLess(s, f);
    case Snapshot(f, _) => MovingLeavesLess(s, Effect(s, a), f, Effect(s, a).flushes[f]);
    case Abort(f, _) => MovingLeavesLess(s, Effect(s, a), f, Effect(s, a).flushes[f]);
    case EndWrite(f, _) => MovingLeavesLess(s, Effect(s, a), f, Effect(s, a).flushes[f]);
    case Return(f) => MovingLeavesLess(s, Effect(s, a), f, Effect(s, a).flushes[f]);
  }

  ghost predicate CanAdvance(s: Sys) { exists a :: Advances(a) && Possible(s, a) }

  /** A waiting export sees a file write end, takes its snapshot, or gives up on the open transaction. */
  lemma LoopingMovesOn(s: Sys, f: nat)
    requires SysInv(s) && Is(s, f, Looping)
    ensures CanAdvance(s)
  {
    if !NoWriteInProgress(s) {
      assert Possible(s, EndWrite(s.fileWrite.value.flush, true));
    } else if s.db.open.None? {
      assert Possible(s, Snapshot(f, true));
    } else {
      assert Possible(s, Abort(f, Deadline));
    }
  }

  // ---------------------------------------------------------------- who waits for a flush

  /** The export of an awaited flush runs inside its caller's turn: it began after its waiter, and neither queues nor waits
      for another flush. */
  ghost predicate WaiterOk(flush: Flush) {
    flush.waiter.Some? ==>
      && !flush.own && flush.work.Some? && flush.waiter.value < flush.work.value
      && !flush.phase.Queued? && !flush.phase.AwaitInFlight?
  }

  /** The work of an export awaits nobody. */
  ghost predicate AwaitsNobody(s: Sys, work: nat) {
    && (forall f | 0 <= f < |s.flushes| :: s.flushes[f].waiter != Some(work))
    && (forall a | a in s.db.awaits :: a.waiter != work)
  }

  ghost predicate ExportOk(s: Sys, flush: Flush) {
    && WaiterOk(flush)
    && (flush.work.Some? ==> flush.work.value < |s.db.queue.works| && AwaitsNobody(s, flush.work.value))
  }

  ghost predicate WaitInv(s: Sys) { SysInv(s) && forall f | 0 <= f < |s.flushes| :: ExportOk(s, s.flushes[f]) }

  /** Waiters among flushes and calls are works that have begun. */
  lemma NewWorkAwaitsNobody(s: Sys)
    requires WaitInv(s)
    ensures AwaitsNobody(s, |s.db.queue.works|)
  {
    forall f | 0 <= f < |s.flushes| ensures s.flushes[f].waiter != Some(|s.db.queue.works|) {
      assert ExportOk(s, s.flushes[f]);
    }
  }

  /** No new waiter: what awaited nobody still does. */
  lemma StillAwaitsNobody(s: Sys, s': Sys, work: nat)
    requires AwaitsNobody(s, work) && s'.db.awaits == s.db.awaits
    requires forall f | 0 <= f < |s'.flushes| :: f < |s.flushes| && s'.flushes[f].waiter == s.flushes[f].waiter
    ensures AwaitsNobody(s', work)
  {
  }

  /** One flush moves on and starts at most a work of its own. */
  lemma MovingKeepsWaits(s: Sys, s': Sys, f: nat, flush: Flush)
    requires WaitInv(s) && SysInv(s') && f < |s.flushes| && s'.flushes == s.flushes[f := flush]
    requires s'.db.awaits == s.db.awaits && |s.db.queue.works| <= |s'.db.queue.works|
    requires flush.waiter == s.flushes[f].waiter && WaiterOk(flush)
    requires flush.work == s.flushes[f].work || flush.work == Some(|s.db.queue.works|)
    requires flush.work.Some? ==> flush.work.value < |s'.db.queue.works|
    ensures WaitInv(s')
  {
    NewWorkAwaitsNobody(s);
    forall g | 0 <= g < |s'.flushes| ensures ExportOk(s', s'.flushes[g]) {
      assert ExportOk(s, s.flushes[g]);
      if s'.flushes[g].work.Some? { StillAwaitsNobody(s, s', s'.flushes[g].work.value); }
    }
  }

  /** A flush is called. */
  lemma CallingKeepsWaits(s: Sys, s': Sys, flush: Flush)
    requires WaitInv(s) && SysInv(s') && s'.flushes == s.flushes + [flush] && WaiterOk(flush)
    requires s'.db.awaits == s.db.awaits && |s.db.queue.works| <= |s'.db.queue.works|
    requires flush.work.Some? ==> flush.work == Some(|s.db.queue.works|) && |s.db.queue.works| < |s'.db.queue.works|
    requires flush.waiter.Some? ==> flush.waiter.value < |s.db.queue.works|
    requires flush.waiter.Some? ==> forall f | 0 <= f < |s.flushes| :: s.flushes[f].work != flush.waiter
    ensures WaitInv(s')
  {
    NewWorkAwaitsNobody(s);
    forall g | 0 <= g < |s'.flushes| ensures ExportOk(s', s'.flushes[g]) {
      if g < |s.flushes| { assert ExportOk(s, s.flushes[g]); }
    }
  }

  lemma BeginningKeepsWaits(s: Sys, s': Sys, flush: Flush, from: Option<nat>)
    requires WaitInv(s) && SysInv(s') && s' == BeginExport(s, |s.flushes|, flush, from)
    requires flush.work.None? && (flush.waiter.Some? ==> HeldTurn(s.db.queue, from).Some?)
    requires flush.waiter.Some? ==> flush.waiter.value < |s.db.queue.works|
    requires flush.waiter.Some? ==> forall f | 0 <= f < |s.flushes| :: s.flushes[f].work != flush.waiter
    ensures WaitInv(s')
  {
    assert s'.flushes == s.flushes + [s'.flushes[|s.flushes|]];
    CallingKeepsWaits(s, s', s'.flushes[|s.flushes|]);
  }

  lemma CallKeepsWaits(s: Sys, force: bool, from: Option<nat>, waiter: Option<nat>)
    requires WaitInv(s) && Possible(s, CallFlush(force, from, waiter))
    ensures WaitInv(Effect(s, CallFlush(force, from, waiter)))
  {
    var s' := Effect(s, CallFlush(force, from, waiter));
    var flush := CalledFlush(s, force, from, waiter);
    D.ActionKeepsInv(s, CallFlush(force, from, waiter));
    if waiter.Some? { RunningWorkIsHeld(s.db.queue, waiter.value); }
    if s.inFlight.Some? && !force {
      assert s' == s;
    } else if s.inFlight.Some? && flush.own {
      CallingKeepsWaits(s, s', flush.(phase := AwaitInFlight(s.inFlight.value)));
    } else if !force && !s.dirty {
      assert s' == s;
    } else {
      BeginningKeepsWaits(s, s', flush, from);
    }
  }

  lemma PlainAwaits(s: Sys, e: Event)
    requires Possible(s, Plain(e))
    ensures var s' := Effect(s, Plain(e));
            && s'.flushes == s.flushes && |s.db.queue.works| <= |s'.db.queue.works|
            && forall a | a in s'.db.awaits :: a in s.db.awaits || (e.Call? && e.waiter == Some(a.waiter))
  {
  }

  lemma CallsKeepExportOk(s: Sys, s': Sys, e: Event, f: nat)
    requires f < |s.flushes| && ExportOk(s, s.flushes[f]) && s'.flushes == s.flushes
    requires |s.db.queue.works| <= |s'.db.queue.works|
    requires forall a | a in s'.db.awaits :: a in s.db.awaits || (e.Call? && e.waiter == Some(a.waiter))
    requires e.Call? && e.waiter.Some? ==> s.flushes[f].work != e.waiter
    ensures ExportOk(s', s'.flushes[f])
  {
  }

  lemma PlainKeepsWaits(s: Sys, e: Event)
    requires WaitInv(s) && Possible(s, Plain(e))
    ensures WaitInv(Effect(s, Plain(e)))
  {
    var s' := Effect(s, Plain(e));
    D.ActionKeepsInv(s, Plain(e));
    PlainAwaits(s, e);
    forall f | 0 <= f < |s'.flushes| ensures ExportOk(s', s'.flushes[f]) {
      assert ExportOk(s, s.flushes[f]);
      CallsKeepExportOk(s, s', e, f);
    }
  }

  lemma StartingKeepsWaits(s: Sys, f: nat)
    requires WaitInv(s) && Possible(s, StartExport(f))
    ensures WaitInv(Effect(s, StartExport(f)))
  {
    D.ActionKeepsInv(s, StartExport(f));
    assert ExportOk(s, s.flushes[f]);
    MovingKeepsWaits(s, Effect(s, StartExport(f)), f, Effect(s, StartExport(f)).flushes[f]);
  }

  lemma ResumingKeepsWaits(s: Sys, f: nat)
    requires WaitInv(s) && Possible(s, Resume(f))
    ensures WaitInv(Effect(s, Resume(f)))
  {
    D.ActionKeepsInv(s, Resume(f));
    assert ExportOk(s, s.flushes[f]) && FlushOk(s, f);
    var flush := ResumingQueues(s, f);
    MovingKeepsWaits(s, Effect(s, Resume(f)), f, flush);
  }

  /** An action of an export that neither queues nor starts anything. */
  lemma ExportingKeepsWaits(s: Sys, a: Action, f: nat)
    requires WaitInv(s) && Possible(s, a)
    requires || (a.Snapshot? && a.f == f) || (a.Abort? && a.f == f) || (a.EndWrite? && a.f == f)
             || (a.Return? && a.f == f)
    ensures WaitInv(Effect(s, a))
  {
    D.ActionKeepsInv(s, a);
    assert ExportOk(s, s.flushes[f]);
    MovingKeepsWaits(s, Effect(s, a), f, Effect(s, a).flushes[f]);
  }

  lemma MarkingKeepsWaits(s: Sys)
    requires WaitInv(s) && Possible(s, MarkDirty)
    ensures WaitInv(Effect(s, MarkDirty))
  {
    D.ActionKeepsInv(s, MarkDirty);
    forall f | 0 <= f < |s.flushes| ensures ExportOk(Effect(s, MarkDirty), s.flushes[f]) {
      assert ExportOk(s, s.flushes[f]);
    }
  }

  lemma ActionKeepsWaits(s: Sys, a: Action)
    requires WaitInv(s) && Possible(s, a)
    ensures WaitInv(Effect(s, a))
  {
    match a
    case Plain(e) => PlainKeepsWaits(s, e);
    case MarkDirty => MarkingKeepsWaits(s);
    case CallFlush(force, from, waiter) => CallKeepsWaits(s, force, from, waiter);
    case Resume(f) => ResumingKeepsWaits(s, f);
    case StartExport(f) => StartingKeepsWaits(s, f);
    case _ => ExportingKeepsWaits(s, a, a.f);
  }

  // ---------------------------------------------------------------- something can always move

  /** A flush inside its export moves on; so no work has to wait for one for good. */
  predicate Exporting(phase: Phase) { phase.Looping? || phase.Writing? || phase.Landed? }

  lemma LandedMovesOn(s: Sys, f: nat)
    requires WaitInv(s) && f < |s.flushes| && s.flushes[f].phase.Landed?
    ensures CanAdvance(s)
  {
    assert ExportOk(s, s.flushes[f]);
    var work := s.flushes[f].work;
    if g :| 0 <= g < |s.flushes| && s.flushes[g].phase.Looping? {
      LoopingMovesOn(s, g);
    } else if work.Some? && IsRunning(s.db.queue, work.value) {
      assert Possible(s, Plain(Finish(work.value)));
    } else {
      assert Possible(s, Return(f));
    }
  }

  lemma ExportingMovesOn(s: Sys, f: nat)
    requires WaitInv(s) && f < |s.flushes| && Exporting(s.flushes[f].phase)
    ensures CanAdvance(s)
  {
    match s.flushes[f].phase
    case Looping => LoopingMovesOn(s, f);
    case Writing(_) => assert Possible(s, EndWrite(f, true));
    case Landed(_) => LandedMovesOn(s, f);
  }

  /** With no export under way, every start or settlement that the queue allows is possible, except that an export may
      stand in its place: whoever still awaits a flush awaits one that is exporting. */
  lemma QueueMovesOn(s: Sys, e: Event)
    requires WaitInv(s) && Enabled(s.db, e) && Serial.IsDrain(e)
    requires forall f | 0 <= f < |s.flushes| :: !Exporting(s.flushes[f].phase)
    ensures CanAdvance(s)
  {
    if e.Start? {
      if f :| 0 <= f < |s.flushes| && s.flushes[f].phase.Queued? && s.flushes[f].turn == e.t {
        assert Possible(s, StartExport(f));
      } else {
        assert Possible(s, Plain(e));
      }
    } else {
      forall f | 0 <= f < |s.flushes| && s.flushes[f].waiter == Some(e.w) ensures s.flushes[f].phase.Returned? {
        assert ExportOk(s, s.flushes[f]);
      }
      assert Possible(s, Plain(e));
    }
  }

  lemma UnfinishedMeansPossible(s: Sys, f: nat)
    requires WaitInv(s) && f < |s.flushes| && !s.flushes[f].phase.Returned?
    requires forall g | 0 <= g < f :: s.flushes[g].phase.Returned?
    requires forall g | 0 <= g < |s.flushes| :: !Exporting(s.flushes[g].phase)
    ensures CanAdvance(s)
  {
    assert FlushOk(s, f);
    if s.flushes[f].phase.AwaitInFlight? {
      assert Possible(s, Resume(f));
    } else {
      Serial.OwedMeansPossible(s.db);
      assert !Released(s.db.queue, s.flushes[f].turn);
      var e :| Serial.IsDrain(e) && Enabled(s.db, e);
      QueueMovesOn(s, e);
    }
  }

  predicate AllDone(s: Sys) {
    && (forall t | 0 <= t < |s.db.queue.turns| :: Released(s.db.queue, t))
    && (forall f | 0 <= f < |s.flushes| :: s.flushes[f].phase.Returned?)
  }

  lemma DoneOrPossible(s: Sys)
    requires WaitInv(s)
    ensures AllDone(s) || CanAdvance(s)
  {
    if f :| 0 <= f < |s.flushes| && Exporting(s.flushes[f].phase) {
      ExportingMovesOn(s, f);
    } else if Ranks(s.flushes) > 0 {
      var f := FirstUnfinished(s.flushes);
      UnfinishedMeansPossible(s, f);
    } else {
      forall f | 0 <= f < |s.flushes| ensures s.flushes[f].phase.Returned? {
        if !s.flushes[f].phase.Returned? { UnfinishedCounts(s.flushes, f); }
      }
      Serial.OwedMeansPossible(s.db);
      if Serial.Owed(s.db.queue) > 0 {
        var e :| Serial.IsDrain(e) && Enabled(s.db, e);
        QueueMovesOn(s, e);
      }
    }
  }

  /** From every reachable state, once no new work, statement or flush is called: at most `Left` advancing actions can
      follow, and as long as a flush has not returned or a turn has not been handed on, one is possible. So every flush
      returns, the forced ones that wait out others and those that a work inside their turn awaits included. */
  lemma {:induction false} FlushesEnd(s: Sys, path: seq<Action>)
    requires WaitInv(s) && D.IsPath(s, path) && forall i | 0 <= i < |path| :: Advances(path[i])
    ensures |path| <= Left(s)
    ensures AllDone(D.After(s, path)) || CanAdvance(D.After(s, path))
    decreases |path|
  {
    if path == [] {
      DoneOrPossible(s);
    } else {
      AdvancingLeavesLess(s, path[0]);
      ActionKeepsWaits(s, path[0]);
      FlushesEnd(Effect(s, path[0]), path[1..]);
    }
  }

  lemma {:induction false} PathKeepsWaits(s: Sys, actions: seq<Action>)
    requires WaitInv(s) && D.IsPath(s, actions)
    ensures WaitInv(D.After(s, actions))
    decreases |actions|
  {
    if actions != [] {
      ActionKeepsWaits(s, actions[0]);
      PathKeepsWaits(Effect(s, actions[0]), actions[1..]);
    }
  }

  lemma RunKeepsWaits(actions: seq<Action>)
    requires D.IsRun(actions)
    ensures WaitInv(D.After(BOOT, actions))
  {
    PathKeepsWaits(BOOT, actions);
  }

  /** The same for runs: whatever has happened, and whoever awaits what, the flushes under way end. */
  lemma RunningFlushesEnd(actions: seq<Action>, path: seq<Action>)
    requires D.IsRun(actions) && D.IsPath(D.After(BOOT, actions), path)
    requires forall i | 0 <= i < |path| :: Advances(path[i])
    ensures |path| <= Left(D.After(BOOT, actions))
    ensures AllDone(D.After(D.After(BOOT, actions), path)) || CanAdvance(D.After(D.After(BOOT, actions), path))
  {
    RunKeepsWaits(actions);
    FlushesEnd(D.After(BOOT, actions), path);
  }

  lemma WaitingRulesNow(s: Sys, f: nat)
    requires WaitInv(s) && f < |s.flushes|
    ensures s.flushes[f].waiter.Some? ==>
              !s.flushes[f].own && !s.flushes[f].phase.Queued? && !s.flushes[f].phase.AwaitInFlight?
    ensures s.flushes[f].phase.AwaitInFlight? ==>
              s.flushes[f].own && s.flushes[f].waiter.None? && s.flushes[f].phase.on < f
  {
    assert ExportOk(s, s.flushes[f]) && FlushOk(s, f);
  }

  /** A flush that a work awaits runs in that work's own turn and waits for no other flush; a flush that waits out another
      one was called outside any turn, and the other was called before it. */
  lemma WaitingRules(actions: seq<Action>, f: nat)
    requires D.IsRun(actions) && f < |D.After(BOOT, actions).flushes|
    ensures var flush := D.After(BOOT, actions).flushes[f];
            && (flush.waiter.Some? ==> !flush.own && !flush.phase.Queued? && !flush.phase.AwaitInFlight?)
            && (flush.phase.AwaitInFlight? ==> flush.own && flush.waiter.None? && flush.phase.on < f)
  {
    RunKeepsWaits(actions);
    WaitingRulesNow(D.After(BOOT, actions), f);
  }
}
