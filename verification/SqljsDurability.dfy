/** What every run of the flush protocol guarantees: durability, ordered file writes, foreign keys. */
module SqljsDurability {
  import opened Wrappers
  import opened SqljsQueue
  import opened SqljsFlush
  import Serial = SqljsSerial

  // ---------------------------------------------------------------- how the database grows in one event

  ghost predicate QueueGrows(q: Queue, q': Queue) {
    && |q.turns| <= |q'.turns| && |q.works| <= |q'.works|
    && (forall t | 0 <= t < |q.turns| && q.turns[t].started :: q'.turns[t].started)
    && (forall t | 0 <= t < |q.turns| && Released(q, t) :: Released(q', t))
    && (forall w | 0 <= w < |q.works| :: q'.works[w].turn == q.works[w].turn)
  }

  /** What becomes committed or pending was pending before or is written by a turn that is held. */
  ghost predicate Grows(db: Db, db': Db) {
    && QueueGrows(db.queue, db'.queue)
    && db.committed <= db'.committed
    && (forall i | |db.committed| <= i < |db'.committed| ::
          db'.committed[i] in db.uncommitted || Holds(db.queue, db'.committed[i].turn))
    && (forall e | e in db'.uncommitted :: e in db.uncommitted || Holds(db.queue, e.turn))
  }

  lemma QueueEventGrows(db: Db, e: Event)
    requires DbInv(db) && Enabled(db, e)
    ensures Grows(db, Apply(db, e))
  {
    if e.Finish? || e.Exec? { RunningWorkIsHeld(db.queue, e.w); }
    if e.Exec? { ExecuteGrows(db, Entry(db.queue.works[e.w].turn, e.stmt)); }
  }

  lemma ExecuteGrows(db: Db, e: Entry)
    requires Holds(db.queue, e.turn)
    ensures Grows(db, Execute(db, e))
  {
  }

  lemma CoversStays(s: Sys, s': Sys, flush: Flush)
    requires flush.snap.Some? && flush.snap.value < |s.taken| <= |s'.taken|
    requires s'.taken[flush.snap.value] == s.taken[flush.snap.value]
    requires flush.called <= |s.db.queue.turns| && |s.taken[flush.snap.value]| <= |s.db.committed|
    requires Grows(s.db, s'.db) && Covers(s, flush)
    ensures Covers(s', flush)
  {
    forall e | e in s.db.uncommitted || Holds(s.db.queue, e.turn) ensures e.turn >= flush.called {
      assert e.turn < flush.called ==> Released(s.db.queue, e.turn);
    }
    forall i | |s.taken[flush.snap.value]| <= i < |s'.db.committed| ensures s'.db.committed[i].turn >= flush.called {
      if i < |s.db.committed| { assert s'.db.committed[i] == s.db.committed[i]; }
    }
  }

  /** A flush that the event does not touch. */
  lemma UntouchedStaysOk(s: Sys, s': Sys, f: nat)
    requires f < |s.flushes| <= |s'.flushes| && s'.flushes[f] == s.flushes[f] && FlushOk(s, f) && SnapshotsOk(s)
    requires Grows(s.db, s'.db)
    requires s.taken <= s'.taken && (s.flushes[f].phase.Writing? ==> s'.taken == s.taken)
    requires forall n | n in s.landed :: n in s'.landed
    requires s.flushes[f].phase.Queued? ==> !s'.db.queue.turns[s.flushes[f].turn].started
    requires s.flushes[f].phase.Looping? ==> IsRunning(s'.db.queue, s.flushes[f].work.value)
    ensures FlushOk(s', f)
  {
    var flush := s.flushes[f];
    if flush.snap.Some? && flush.own {
      assert s'.taken[flush.snap.value] == s.taken[flush.snap.value];
      CoversStays(s, s', flush);
    }
  }

  /** The event takes no snapshot and ends no write. */
  ghost predicate SameFile(s: Sys, s': Sys) {
    && s'.taken == s.taken && s'.landed == s.landed && s'.file == s.file && s'.fileWrite == s.fileWrite
    && |s.flushes| <= |s'.flushes|
    && (forall f | 0 <= f < |s.flushes| :: s'.flushes[f].phase.Writing? == s.flushes[f].phase.Writing?)
    && (forall f | |s.flushes| <= f < |s'.flushes| :: !s'.flushes[f].phase.Writing?)
    && s.db.committed <= s'.db.committed
  }

  lemma SlotStays(s: Sys, s': Sys)
    requires SlotOk(s) && SameFile(s, s')
    ensures SlotOk(s')
  {
    forall f | 0 <= f < |s'.flushes| && s'.flushes[f].phase.Writing? ensures s'.fileWrite == Some(FileWrite(f, false)) {
      assert f < |s.flushes| && s.flushes[f].phase.Writing?;
    }
    if !NoWriteInProgress(s) {
      assert s'.flushes[s.fileWrite.value.flush].phase.Writing? == s.flushes[s.fileWrite.value.flush].phase.Writing?;
    }
  }

  /** The single slot tells whether anybody is writing. */
  lemma SlotTellsAll(s: Sys)
    requires SlotOk(s)
    ensures NoWriteInProgress(s) <==> NobodyWrites(s)
  {
    if !NoWriteInProgress(s) { assert s.flushes[s.fileWrite.value.flush].phase.Writing?; }
  }

  lemma SnapshotsStay(s: Sys, s': Sys)
    requires SnapshotsOk(s) && SameFile(s, s')
    ensures SnapshotsOk(s') && (NobodyWrites(s') <==> NobodyWrites(s))
  {
    if NobodyWrites(s') {
      forall f | 0 <= f < |s.flushes| ensures !s.flushes[f].phase.Writing? {
        assert s'.flushes[f].phase.Writing? == s.flushes[f].phase.Writing?;
      }
    }
  }

  /** If the event leaves nothing unsaved, nothing was unsaved before it and it committed nothing. */
  lemma SavedStays(s: Sys, s': Sys)
    requires SnapshotsOk(s) && CleanMeansSaved(s) && SameFile(s, s')
    requires !s'.dirty && s'.unmarked == 0 && !FailurePending(s') ==>
               !s.dirty && s.unmarked == 0 && !FailurePending(s) && s'.db.committed == s.db.committed
    ensures SnapshotsOk(s') && CleanMeansSaved(s')
  {
    SnapshotsStay(s, s');
  }

  lemma SameFlushesSameFailures(s: Sys, s': Sys)
    requires |s.flushes| <= |s'.flushes|
    requires forall f | 0 <= f < |s.flushes| && s.flushes[f].phase == Landed(false) :: s'.flushes[f].phase == Landed(false)
    ensures FailurePending(s) ==> FailurePending(s')
  {
    if FailurePending(s) {
      var f :| 0 <= f < |s.flushes| && s.flushes[f].phase == Landed(false);
      assert s'.flushes[f].phase == Landed(false);
    }
  }

  // ---------------------------------------------------------------- one event at a time

  lemma PlainChanges(s: Sys, e: Event, s': Sys)
    requires DbInv(s.db) && Enabled(s.db, e)
    requires s' == PlainEffect(s, e)
    ensures s'.db == Apply(s.db, e) && s'.dirty == s.dirty && s'.flushes == s.flushes && s'.inFlight == s.inFlight
    ensures s'.taken == s.taken && s'.landed == s.landed && s'.file == s.file && s'.fileWrite == s.fileWrite
    ensures s'.unmarked >= s.unmarked && (s'.db.committed != s.db.committed ==> s'.unmarked > 0)
    ensures (s.db.foreignKeys <==> !s.restoreFailed && s.offBy.None?) ==>
              (s'.db.foreignKeys <==> !s'.restoreFailed && s'.offBy.None?)
  {
  }

  lemma PlainKeepsInv(s: Sys, e: Event)
    requires CanAct(s, Plain(e))
    ensures SysInv(Effect(s, Plain(e)))
  {
    StepKeepsDbInv(s.db, e);
    var s' := Effect(s, Plain(e));
    PlainChanges(s, e, s');
    QueueEventGrows(s.db, e);
    PlainKeepsFlushes(s, e, s');
    SameFlushesSameFailures(s, s');
    SavedStays(s, s');
    SlotStays(s, s');
  }

  lemma PlainKeepsFlushes(s: Sys, e: Event, s': Sys)
    requires CanAct(s, Plain(e)) && s'.db == Apply(s.db, e) && Grows(s.db, s'.db) && s'.flushes == s.flushes
    requires s'.taken == s.taken && s'.landed == s.landed
    ensures forall f | 0 <= f < |s'.flushes| :: FlushOk(s', f)
  {
    forall f | 0 <= f < |s'.flushes| ensures FlushOk(s', f) {
      assert FlushOk(s, f);
      UntouchedStaysOk(s, s', f);
    }
  }

  lemma MarkKeepsInv(s: Sys)
    requires CanAct(s, MarkDirty)
    ensures SysInv(Effect(s, MarkDirty))
  {
    var s' := Effect(s, MarkDirty);
    forall f | 0 <= f < |s'.flushes| ensures FlushOk(s', f) {
      assert FlushOk(s, f);
      UntouchedStaysOk(s, s', f);
    }
    SavedStays(s, s');
    SlotStays(s, s');
  }

  /** One flush changes, the queue makes one of its own events, and no snapshot is taken: the rest of the invariant. */
  lemma FlushStepKeepsInv(s: Sys, s': Sys, f: nat)
    requires SysInv(s) && f <= |s.flushes| && |s'.flushes| == (if f == |s.flushes| then f + 1 else |s.flushes|)
    requires DbInv(s'.db) && Grows(s.db, s'.db) && s'.db.foreignKeys == s.db.foreignKeys
    requires s'.restoreFailed == s.restoreFailed && s'.offBy == s.offBy
    requires SameFile(s, s') && s'.unmarked == s.unmarked && s'.db.committed == s.db.committed
    requires forall g | 0 <= g < |s.flushes| && g != f :: s'.flushes[g] == s.flushes[g]
    requires FlushOk(s', f) && OneExportPerTurn(s')
    requires forall g | 0 <= g < |s.flushes| && g != f && s.flushes[g].phase.Queued? && FlushOk(s, g) ::
               s.flushes[g].turn < |s'.db.queue.turns| && !s'.db.queue.turns[s.flushes[g].turn].started
    requires forall g | 0 <= g < |s.flushes| && g != f && s.flushes[g].phase.Looping? && s.flushes[g].work.Some? ::
               IsRunning(s.db.queue, s.flushes[g].work.value) ==> IsRunning(s'.db.queue, s.flushes[g].work.value)
    requires s'.inFlight.Some? ==> s'.inFlight.value < |s'.flushes|
    requires !s'.dirty && !FailurePending(s') ==> !s.dirty && !FailurePending(s)
    ensures SysInv(s')
  {
    forall g | 0 <= g < |s'.flushes| ensures FlushOk(s', g) {
      if g != f {
        assert g < |s.flushes| && FlushOk(s, g);
        UntouchedStaysOk(s, s', g);
      }
    }
    SavedStays(s, s');
    SlotStays(s, s');
  }

  /** A flush is called that waits out the one in flight. */
  lemma AwaitingKeepsInv(s: Sys, s': Sys, flush: Flush)
    requires SysInv(s) && s' == s.(flushes := s.flushes + [flush])
    requires flush.phase.AwaitInFlight? && flush.phase.on < |s.flushes|
    requires flush.own && flush.snap.None? && flush.work.None? && flush.called <= |s.db.queue.turns|
    ensures SysInv(s')
  {
    SameFlushesSameFailures(s, s');
    FlushStepKeepsInv(s, s', |s.flushes|);
  }

  lemma CallKeepsInv(s: Sys, force: bool, from: Option<nat>, waiter: Option<nat>)
    requires CanAct(s, CallFlush(force, from, waiter))
    ensures SysInv(Effect(s, CallFlush(force, from, waiter)))
  {
    var s' := Effect(s, CallFlush(force, from, waiter));
    var flush := CalledFlush(s, force, from, waiter);
    if s.inFlight.Some? && !force {
      assert s' == s;
    } else if s.inFlight.Some? && flush.own {
      AwaitingKeepsInv(s, s', flush.(phase := AwaitInFlight(s.inFlight.value)));
    } else if !force && !s.dirty {
      assert s' == s;
    } else {
      BeginKeepsInv(s, s', |s.flushes|, flush, from);
    }
  }

  /** The export that begins is the only flush to change. */
  lemma BeginLeavesOthers(s: Sys, s': Sys, f: nat, flush: Flush, from: Option<nat>)
    requires f <= |s.flushes| && s' == BeginExport(s, f, flush, from)
    ensures |s'.flushes| == if f == |s.flushes| then f + 1 else |s.flushes|
    ensures forall g | 0 <= g < |s.flushes| && g != f :: s'.flushes[g] == s.flushes[g]
  {
    forall g | 0 <= g < |s.flushes| && g != f ensures s'.flushes[g] == s.flushes[g] {
      if g > f { assert s'.flushes[g] == s.flushes[f + 1..][g - f - 1]; }
    }
  }

  lemma BegunIsOk(s: Sys, s': Sys, f: nat, flush: Flush, from: Option<nat>)
    requires f <= |s.flushes| && s' == BeginExport(s, f, flush, from)
    requires flush.called <= |s.db.queue.turns| && flush.work.None? && flush.snap.None?
    ensures f < |s'.flushes| && FlushOk(s', f) && (s'.flushes[f].phase.Queued? || s'.flushes[f].phase.Looping?)
    ensures s'.flushes[f].phase.Queued? ==> s'.flushes[f].turn == |s.db.queue.turns|
  {
  }

  lemma BegunExportsAlone(s: Sys, s': Sys, f: nat)
    requires OneExportPerTurn(s) && f <= |s.flushes| && |s'.flushes| == (if f == |s.flushes| then f + 1 else |s.flushes|)
    requires forall g | 0 <= g < |s.flushes| && g != f :: s'.flushes[g] == s.flushes[g]
    requires forall g | 0 <= g < |s.flushes| && s.flushes[g].phase.Queued? :: s.flushes[g].turn < |s.db.queue.turns|
    requires s'.flushes[f].phase.Queued? ==> s'.flushes[f].turn == |s.db.queue.turns|
    ensures OneExportPerTurn(s')
  {
  }

  lemma BeginKeepsInv(s: Sys, s': Sys, f: nat, flush: Flush, from: Option<nat>)
    requires SysInv(s) && f <= |s.flushes| && IsContext(s.db.queue, from) && s' == BeginExport(s, f, flush, from)
    requires flush.called <= |s.db.queue.turns| && flush.work.None? && flush.snap.None?
    requires f < |s.flushes| ==> s.flushes[f].phase.AwaitInFlight?
    ensures SysInv(s')
  {
    var e := Call(from, None);
    assert Enabled(s.db, e) && s'.db == Apply(s.db, e);
    StepKeepsDbInv(s.db, e);
    QueueEventGrows(s.db, e);
    BeginLeavesOthers(s, s', f, flush, from);
    BegunIsOk(s, s', f, flush, from);
    SameFlushesSameFailures(s, s');
    forall g | 0 <= g < |s.flushes| && s.flushes[g].phase.Queued? ensures s.flushes[g].turn < |s.db.queue.turns| {
      assert FlushOk(s, g);
    }
    BegunExportsAlone(s, s', f);
    FlushStepKeepsInv(s, s', f);
  }

  lemma ResumeKeepsInv(s: Sys, f: nat)
    requires CanAct(s, Resume(f))
    ensures SysInv(Effect(s, Resume(f)))
  {
    assert FlushOk(s, f);
    BeginKeepsInv(s, Effect(s, Resume(f)), f, s.flushes[f], None);
  }

  lemma StartedIsOk(s: Sys, s': Sys, f: nat)
    requires Possible(s, StartExport(f)) && FlushOk(s, f) && s' == Effect(s, StartExport(f))
    ensures f < |s'.flushes| && FlushOk(s', f) && (OneExportPerTurn(s) ==> OneExportPerTurn(s'))
  {
  }

  lemma StartLeavesQueued(s: Sys, f: nat, g: nat)
    requires SysInv(s) && Possible(s, StartExport(f)) && g < |s.flushes| && g != f && s.flushes[g].phase.Queued?
    ensures s.flushes[g].turn < |s.db.queue.turns| && s.flushes[g].turn != s.flushes[f].turn
    ensures !s.db.queue.turns[s.flushes[g].turn].started
  {
    assert FlushOk(s, g);
  }

  lemma StartExportKeepsInv(s: Sys, f: nat)
    requires CanAct(s, StartExport(f))
    ensures SysInv(Effect(s, StartExport(f)))
  {
    var s' := Effect(s, StartExport(f));
    var e := Start(s.flushes[f].turn);
    assert FlushOk(s, f);
    StartedIsOk(s, s', f);
    StepKeepsDbInv(s.db, e);
    QueueEventGrows(s.db, e);
    SameFlushesSameFailures(s, s');
    forall g | 0 <= g < |s.flushes| && g != f && s.flushes[g].phase.Queued?
      ensures s.flushes[g].turn < |s.db.queue.turns| && !s'.db.queue.turns[s.flushes[g].turn].started
    {
      StartLeavesQueued(s, f, g);
    }
    FlushStepKeepsInv(s, s', f);
  }

  lemma AbortKeepsInv(s: Sys, f: nat, why: Cause)
    requires CanAct(s, Abort(f, why))
    ensures SysInv(Effect(s, Abort(f, why)))
  {
    var s' := Effect(s, Abort(f, why));
    assert FlushOk(s, f);
    assert s'.flushes[f].phase == Landed(false);
    assert FailurePending(s');
    FlushStepKeepsInv(s, s', f);
  }

  lemma ReturnKeepsInv(s: Sys, f: nat)
    requires CanAct(s, Return(f))
    ensures SysInv(Effect(s, Return(f)))
  {
    var s' := Effect(s, Return(f));
    assert FlushOk(s, f);
    if s.flushes[f].phase.ok {
      SameFlushesSameFailures(s, s');
    }
    if s.flushes[f].own && s.flushes[f].snap.Some? {
      CoversStays(s, s', s.flushes[f]);
    }
    FlushStepKeepsInv(s, s', f);
  }

  lemma SnapshotKeepsInv(s: Sys, f: nat, restored: bool)
    requires CanAct(s, Snapshot(f, restored))
    ensures SysInv(Effect(s, Snapshot(f, restored)))
  {
    var s' := Effect(s, Snapshot(f, restored));
    var flush := s.flushes[f];
    assert FlushOk(s, f);
    RunningWorkIsHeld(s.db.queue, flush.work.value);
    forall t | 0 <= t < flush.turn ensures Released(s.db.queue, t) {
      EarlierTurnsReleased(s.db.queue, flush.turn, t);
    }
    assert s'.taken[|s.taken|] == s.db.committed;
    forall g | 0 <= g < |s'.flushes| ensures FlushOk(s', g) {
      if g != f {
        assert FlushOk(s, g);
        UntouchedStaysOk(s, s', g);
      }
    }
    SnapshotTakesLatest(s, s', f, restored);
  }

  lemma SnapshotTakesLatest(s: Sys, s': Sys, f: nat, restored: bool)
    requires CanAct(s, Snapshot(f, restored)) && s' == SnapshotEffect(s, f, restored)
    ensures SnapshotsOk(s') && CleanMeansSaved(s') && !NobodyWrites(s')
  {
    assert s'.flushes[f].phase.Writing?;
    assert forall i | 0 <= i < |s.taken| :: s'.taken[i] == s.taken[i];
  }

  lemma EndWriteKeepsInv(s: Sys, f: nat, ok: bool)
    requires CanAct(s, EndWrite(f, ok))
    ensures SysInv(Effect(s, EndWrite(f, ok)))
  {
    var s' := Effect(s, EndWrite(f, ok));
    assert FlushOk(s, f);
    if s.flushes[f].own { CoversStays(s, s', s.flushes[f]); }
    forall g | 0 <= g < |s'.flushes| ensures FlushOk(s', g) {
      if g != f {
        assert FlushOk(s, g);
        UntouchedStaysOk(s, s', g);
      }
    }
    WriteLandsInOrder(s, s', f, ok);
  }

  lemma WriteLandsInOrder(s: Sys, s': Sys, f: nat, ok: bool)
    requires CanAct(s, EndWrite(f, ok)) && s' == Effect(s, EndWrite(f, ok))
    ensures SnapshotsOk(s') && CleanMeansSaved(s') && NobodyWrites(s')
  {
    assert FlushOk(s, f) && !NobodyWrites(s);
    forall g | 0 <= g < |s'.flushes| ensures !s'.flushes[g].phase.Writing? {
      if g != f { assert s'.flushes[g] == s.flushes[g]; }
    }
    if !FailurePending(s') {
      assert s'.flushes[f].phase != Landed(false);
      forall g | 0 <= g < |s.flushes| ensures s.flushes[g].phase != Landed(false) {
        if g != f { assert s'.flushes[g] == s.flushes[g]; }
      }
    }
  }

  // ---------------------------------------------------------------- runs

  lemma ActionKeepsInv(s: Sys, a: Action)
    requires CanAct(s, a)
    ensures SysInv(Effect(s, a))
  {
    match a
    case Plain(e) => PlainKeepsInv(s, e);
    case MarkDirty => MarkKeepsInv(s);
    case CallFlush(force, from, waiter) => CallKeepsInv(s, force, from, waiter);
    case Resume(f) => ResumeKeepsInv(s, f);
    case StartExport(f) => StartExportKeepsInv(s, f);
    case Snapshot(f, restored) => SnapshotKeepsInv(s, f, restored);
    case Abort(f, why) => AbortKeepsInv(s, f, why);
    case EndWrite(f, ok) => EndWriteKeepsInv(s, f, ok);
    case Return(f) => ReturnKeepsInv(s, f);
  }

  predicate IsPath(s: Sys, actions: seq<Action>)
    decreases |actions|
  {
    actions == [] || (Possible(s, actions[0]) && IsPath(Effect(s, actions[0]), actions[1..]))
  }

  function After(s: Sys, actions: seq<Action>): Sys
    requires IsPath(s, actions)
    decreases |actions|
  {
    if actions == [] then s else After(Effect(s, actions[0]), actions[1..])
  }

  /** A run of the process from its start. */
  predicate IsRun(actions: seq<Action>) { IsPath(BOOT, actions) }

  lemma {:induction false} PathKeepsInv(s: Sys, actions: seq<Action>)
    requires SysInv(s) && IsPath(s, actions)
    ensures SysInv(After(s, actions))
    decreases |actions|
  {
    if actions != [] {
      ActionKeepsInv(s, actions[0]);
      PathKeepsInv(Effect(s, actions[0]), actions[1..]);
    }
  }

  lemma RunKeepsInv(actions: seq<Action>)
    requires IsRun(actions)
    ensures SysInv(After(BOOT, actions))
  {
    PathKeepsInv(BOOT, actions);
  }

  // ---------------------------------------------------------------- durability

  /** No export is between its snapshot and its return. */
  ghost predicate NoExportInFlight(s: Sys) {
    forall f | 0 <= f < |s.flushes| :: !s.flushes[f].phase.Writing? && !s.flushes[f].phase.Landed?
  }

  /** In every reachable state, if the dirty flag is clear, every executed write has been marked and no export is in
      flight, the file holds exactly what is committed. */
  lemma CleanFileIsCurrent(actions: seq<Action>)
    requires IsRun(actions)
    ensures var s := After(BOOT, actions);
            !s.dirty && s.unmarked == 0 && NoExportInFlight(s) ==>
              s.file.Some? && s.file.value < |s.taken| && s.taken[s.file.value] == s.db.committed
  {
    RunKeepsInv(actions);
  }

  /** What a flush that saw its snapshot written has saved: everything committed by every turn queued before the call.
      Those turns are over, nothing of theirs is pending, and while the file is readable it holds at least that. */
  ghost predicate HasSaved(s: Sys, flush: Flush) {
    && flush.snap.Some? && flush.snap.value in s.landed && flush.snap.value < |s.taken|
    && var snap := s.taken[flush.snap.value];
    && snap <= s.db.committed
    && (forall t | 0 <= t < flush.called :: Released(s.db.queue, t))
    && (forall i | 0 <= i < |s.db.committed| && s.db.committed[i].turn < flush.called :: i < |snap|)
    && (forall e | e in s.db.uncommitted :: e.turn >= flush.called)
    && (s.file.Some? ==> s.file.value < |s.taken| && snap <= s.taken[s.file.value])
  }

  lemma LandedMeansSaved(s: Sys, f: nat)
    requires SnapshotsOk(s) && f < |s.flushes| && FlushOk(s, f)
    requires s.flushes[f].phase == Returned(true) && s.flushes[f].own
    ensures HasSaved(s, s.flushes[f])
  {
    var n := s.flushes[f].snap.value;
    var i :| 0 <= i < |s.landed| && s.landed[i] == n;
    assert i < |s.landed| - 1 ==> s.landed[i] < s.landed[|s.landed| - 1];
    assert Covers(s, s.flushes[f]);
  }

  /** A flush that was called outside any turn and returned success has persisted every write queued before the call,
      whatever ticks coalesced, flushes superseded or file writes failed meanwhile. */
  lemma SuccessfulFlushPersisted(actions: seq<Action>, f: nat)
    requires IsRun(actions) && Is(After(BOOT, actions), f, Returned(true)) && After(BOOT, actions).flushes[f].own
    ensures HasSaved(After(BOOT, actions), After(BOOT, actions).flushes[f])
  {
    RunKeepsInv(actions);
    assert FlushOk(After(BOOT, actions), f);
    LandedMeansSaved(After(BOOT, actions), f);
  }

  /** File writes never overlap, although an export looks at the slot of the latest write only, and snapshots reach the file
      in the order in which they were taken. */
  lemma WritesAreOrdered(actions: seq<Action>)
    requires IsRun(actions)
    ensures var s := After(BOOT, actions);
            && (NoWriteInProgress(s) <==> NobodyWrites(s))
            && (forall f, g | 0 <= f < |s.flushes| && 0 <= g < |s.flushes| ::
                  s.flushes[f].phase.Writing? && s.flushes[g].phase.Writing? ==> f == g)
            && (forall i, j | 0 <= i < j < |s.landed| ::
                  s.landed[i] < s.landed[j] < |s.taken| && s.taken[s.landed[i]] <= s.taken[s.landed[j]])
  {
    RunKeepsInv(actions);
    SlotTellsAll(After(BOOT, actions));
  }

  lemma LoopingHoldsItsTurn(q: Queue, work: nat, t: nat)
    requires QueueInv(q) && IsRunning(q, work) && q.works[work].turn == t
    ensures forall w: nat | IsRunning(q, w) :: q.works[w].turn == t
  {
    RunningWorkIsHeld(q, work);
    forall w: nat | IsRunning(q, w) ensures q.works[w].turn == t {
      RunningWorkIsHeld(q, w);
      Serial.AtMostOneTurnIsHeld(q, q.works[w].turn, t);
    }
  }

  /** An export cuts no transaction: reopening would roll an open one back, but the database stays as it was, foreign keys
      aside, and the only works running meanwhile are those of the turn it runs in. */
  lemma ExportMeetsNoTransaction(actions: seq<Action>, f: nat, restored: bool)
    requires IsRun(actions) && Possible(After(BOOT, actions), Snapshot(f, restored))
    ensures var s := After(BOOT, actions);
            var s' := Effect(s, Snapshot(f, restored));
            && s'.db.(foreignKeys := s.db.foreignKeys) == s.db
            && forall w: nat | IsRunning(s.db.queue, w) :: s.db.queue.works[w].turn == s.flushes[f].turn
  {
    RunKeepsInv(actions);
    var s := After(BOOT, actions);
    assert FlushOk(s, f);
    LoopingHoldsItsTurn(s.db.queue, s.flushes[f].work.value, s.flushes[f].turn);
  }

  // ---------------------------------------------------------------- foreign keys

  /** Foreign keys are on, or the last restore failed, or the running work's own turn switched them off. */
  predicate OwnDoing(s: Sys, w: nat)
    requires IsRunning(s.db.queue, w)
  {
    s.db.foreignKeys || s.restoreFailed || s.offBy == Some(s.db.queue.works[w].turn)
  }

  /** A turn that switched foreign keys off and not on again is handed on (and no failed restore keeps them off anyway). */
  predicate AbandonsForeignKeys(s: Sys, a: Action)
    requires Possible(s, a)
  {
    && s.offBy.Some? && !s.restoreFailed
    && Holds(s.db.queue, s.offBy.value) && Released(Effect(s, a).db.queue, s.offBy.value)
  }

  predicate Orderly(s: Sys, actions: seq<Action>)
    decreases |actions|
  {
    actions == [] ||
    (Possible(s, actions[0]) && !AbandonsForeignKeys(s, actions[0]) && Orderly(Effect(s, actions[0]), actions[1..]))
  }

  /** Whatever happens from `s` on without such a hand-on, no turn suffers from what another one switched off. */
  ghost predicate SpareOthersFrom(s: Sys) {
    forall actions, w: nat | Orderly(s, actions) && IsPath(s, actions) && IsRunning(After(s, actions).db.queue, w) ::
      OwnDoing(After(s, actions), w)
  }

  /** Whoever switched them off still holds its turn. */
  ghost predicate OffInv(s: Sys) { SysInv(s) && (s.offBy.Some? ==> s.restoreFailed || Holds(s.db.queue, s.offBy.value)) }

  lemma HolderStaysInQueueEvent(db: Db, e: Event, t: nat)
    requires DbInv(db) && Enabled(db, e) && Holds(db.queue, t) && !Released(Apply(db, e).queue, t)
    ensures Holds(Apply(db, e).queue, t)
  {
    if e.Finish? { RunningWorkIsHeld(db.queue, e.w); }
  }

  lemma HolderStaysStarted(s: Sys, a: Action, t: nat)
    requires CanAct(s, a) && Holds(s.db.queue, t) && !Released(Effect(s, a).db.queue, t)
    ensures Holds(Effect(s, a).db.queue, t)
  {
    if a.Plain? {
      assert Enabled(s.db, a.e) && Effect(s, a).db == Apply(s.db, a.e);
      HolderStaysInQueueEvent(s.db, a.e, t);
    }
  }

  lemma OffByChanges(s: Sys, a: Action)
    requires Possible(s, a)
    ensures var s' := Effect(s, a);
            && (s.restoreFailed && !s'.restoreFailed ==> s'.offBy.None?)
            && (s'.offBy.Some? && s'.offBy != s.offBy ==>
                  a.Plain? && a.e.Exec? && s'.db.queue == s.db.queue && s'.offBy.value == s.db.queue.works[a.e.w].turn)
  {
  }

  lemma ActionKeepsOffInv(s: Sys, a: Action)
    requires OffInv(s) && Possible(s, a) && !AbandonsForeignKeys(s, a)
    ensures OffInv(Effect(s, a))
  {
    ActionKeepsInv(s, a);
    OffByChanges(s, a);
    var s' := Effect(s, a);
    if s'.offBy.Some? && !s'.restoreFailed {
      if s'.offBy == s.offBy {
        HolderStaysStarted(s, a, s.offBy.value);
      } else {
        RunningWorkIsHeld(s.db.queue, a.e.w);
      }
    }
  }

  lemma {:induction false} OrderlyPathKeepsOffInv(s: Sys, actions: seq<Action>)
    requires OffInv(s) && Orderly(s, actions)
    ensures IsPath(s, actions) && OffInv(After(s, actions))
    decreases |actions|
  {
    if actions != [] {
      ActionKeepsOffInv(s, actions[0]);
      OrderlyPathKeepsOffInv(Effect(s, actions[0]), actions[1..]);
    }
  }

  lemma OffInvSparesOthers(s: Sys, w: nat)
    requires OffInv(s) && IsRunning(s.db.queue, w)
    ensures OwnDoing(s, w)
  {
    RunningWorkIsHeld(s.db.queue, w);
    if s.offBy.Some? && !s.restoreFailed {
      Serial.AtMostOneTurnIsHeld(s.db.queue, s.db.queue.works[w].turn, s.offBy.value);
    }
  }

  /** The turn behind a released one starts, as an export or as anything else. */
  lemma NextTurnStarts(s: Sys, t: nat) returns (a: Action)
    requires SysInv(s) && Released(s.db.queue, t) && t + 1 < |s.db.queue.turns| && !s.db.queue.turns[t + 1].started
    ensures Possible(s, a) && (a.Plain? || a.StartExport?)
    ensures var s' := Effect(s, a);
            && s'.offBy == s.offBy && s'.restoreFailed == s.restoreFailed && s'.db.foreignKeys == s.db.foreignKeys
            && IsRunning(s'.db.queue, |s.db.queue.works|) && s'.db.queue.works[|s.db.queue.works|].turn == t + 1
  {
    if f :| 0 <= f < |s.flushes| && s.flushes[f].phase.Queued? && s.flushes[f].turn == t + 1 {
      a := StartExport(f);
    } else {
      a := Plain(Start(t + 1));
    }
  }

  lemma AbandoningIsFinishing(s: Sys, a: Action, t: nat)
    requires CanAct(s, a) && Holds(s.db.queue, t) && Released(Effect(s, a).db.queue, t)
    ensures a.Plain? && a.e.Finish?
  {
    if a.Plain? {
      ReleasingIsFinishing(s.db, a.e, t);
    } else if a.StartExport? {
      ReleasingIsFinishing(s.db, Start(s.flushes[a.f].turn), t);
    } else if a.CallFlush? || a.Resume? {
      ReleasingIsFinishing(s.db, Call(if a.CallFlush? then a.from else None, None), t);
    }
  }

  lemma ReleasingIsFinishing(db: Db, e: Event, t: nat)
    requires Enabled(db, e) && Holds(db.queue, t) && Released(Apply(db, e).queue, t)
    ensures e.Finish?
  {
  }

  lemma NobodyBehindHasStarted(q: Queue, t: nat)
    requires QueueInv(q) && Holds(q, t) && t + 1 < |q.turns|
    ensures !q.turns[t + 1].started
  {
    assert TurnOk(q, t + 1);
  }

  lemma StrangerSuffers(s: Sys, t: nat)
    requires SysInv(s) && Released(s.db.queue, t) && s.offBy == Some(t) && !s.restoreFailed
    requires t + 1 < |s.db.queue.turns| && !s.db.queue.turns[t + 1].started
    ensures !SpareOthersFrom(s)
  {
    var a := NextTurnStarts(s, t);
    OneActionPath(s, a);
    assert !OwnDoing(After(s, [a]), |s.db.queue.works|);
  }

  lemma OneActionPath(s: Sys, a: Action)
    requires Possible(s, a) && !AbandonsForeignKeys(s, a)
    ensures IsPath(s, [a]) && Orderly(s, [a]) && After(s, [a]) == Effect(s, a)
  {
    assert [a][1..] == [];
  }

  lemma SparingStays(s: Sys, a: Action)
    requires SpareOthersFrom(s) && Possible(s, a) && !AbandonsForeignKeys(s, a)
    ensures SpareOthersFrom(Effect(s, a))
  {
    forall actions, w: nat
      | Orderly(Effect(s, a), actions) && IsPath(Effect(s, a), actions) && IsRunning(After(Effect(s, a), actions).db.queue, w)
      ensures OwnDoing(After(Effect(s, a), actions), w)
    {
      assert ([a] + actions)[1..] == actions;
      assert Orderly(s, [a] + actions) && IsPath(s, [a] + actions);
      assert After(s, [a] + actions) == After(Effect(s, a), actions);
    }
  }

  /** After a turn abandoned them, the next turn to start runs with foreign keys off. */
  lemma AbandonedForeignKeysHurtOthers(s: Sys, a: Action)
    requires CanAct(s, a) && AbandonsForeignKeys(s, a)
    ensures !SpareOthersFrom(Effect(s, a))
  {
    var t := s.offBy.value;
    AbandoningIsFinishing(s, a, t);
    ActionKeepsInv(s, a);
    var s' := Effect(s, a);
    if t + 1 < |s'.db.queue.turns| {
      NobodyBehindHasStarted(s.db.queue, t);
      StrangerSuffers(s', t);
    } else {
      var call := Plain(Call(None, None));
      ActionKeepsInv(s', call);
      StrangerSuffers(Effect(s', call), t);
      if SpareOthersFrom(s') { SparingStays(s', call); }
    }
  }

  /** The exact condition: no turn ever runs with foreign keys off because of another turn, if and only if no turn is
      handed on that switched them off and not on again. (After a failed restore they are off for everybody.) */
  lemma ForeignKeysSpareOthersExactly(actions: seq<Action>, a: Action)
    requires IsRun(actions) && Orderly(BOOT, actions) && Possible(After(BOOT, actions), a)
    ensures forall w: nat | IsRunning(After(BOOT, actions).db.queue, w) :: OwnDoing(After(BOOT, actions), w)
    ensures SpareOthersFrom(Effect(After(BOOT, actions), a)) <==> !AbandonsForeignKeys(After(BOOT, actions), a)
  {
    OrderlyPathKeepsOffInv(BOOT, actions);
    var s := After(BOOT, actions);
    forall w: nat | IsRunning(s.db.queue, w) ensures OwnDoing(s, w) { OffInvSparesOthers(s, w); }
    if AbandonsForeignKeys(s, a) {
      AbandonedForeignKeysHurtOthers(s, a);
    } else {
      ActionKeepsOffInv(s, a);
      NobodyHurtFrom(Effect(s, a));
    }
  }

  lemma NobodyHurtFrom(s: Sys)
    requires OffInv(s)
    ensures SpareOthersFrom(s)
  {
    forall actions, w: nat | Orderly(s, actions) && IsPath(s, actions) && IsRunning(After(s, actions).db.queue, w)
      ensures OwnDoing(After(s, actions), w)
    {
      OrderlyPathKeepsOffInv(s, actions);
      OffInvSparesOthers(After(s, actions), w);
    }
  }

  /** The action may leave foreign keys off: PRAGMA foreign_keys = OFF, or a restore that fails. */
  ghost predicate SwitchesOff(a: Action) {
    (a.Plain? && a.e.Exec? && a.e.stmt == ForeignKeys(false)) || (a.Snapshot? && !a.restored)
  }

  lemma {:induction false} ForeignKeysStayOn(s: Sys, actions: seq<Action>)
    requires IsPath(s, actions) && s.db.foreignKeys
    requires forall i | 0 <= i < |actions| :: !SwitchesOff(actions[i])
    ensures After(s, actions).db.foreignKeys
    decreases |actions|
  {
    if actions != [] {
      assert !SwitchesOff(actions[0]);
      StepKeepsForeignKeysOn(s, actions[0]);
      ForeignKeysStayOn(Effect(s, actions[0]), actions[1..]);
    }
  }

  lemma StepKeepsForeignKeysOn(s: Sys, a: Action)
    requires Possible(s, a) && s.db.foreignKeys && !SwitchesOff(a)
    ensures Effect(s, a).db.foreignKeys
  {
  }

  /** An export in its own turn whose restore succeeds puts foreign keys on whatever left them off, and they stay on until
      something switches them off; an export inside its caller's turn puts back the value it found. */
  lemma ExportRestoresForeignKeys(s: Sys, f: nat, rest: seq<Action>)
    requires Possible(s, Snapshot(f, true)) && IsPath(Effect(s, Snapshot(f, true)), rest)
    requires forall i | 0 <= i < |rest| :: !SwitchesOff(rest[i])
    ensures s.flushes[f].own || s.db.foreignKeys ==> After(Effect(s, Snapshot(f, true)), rest).db.foreignKeys
    ensures !s.flushes[f].own ==> Effect(s, Snapshot(f, true)).db.foreignKeys == s.db.foreignKeys
  {
    if s.flushes[f].own || s.db.foreignKeys {
      ForeignKeysStayOn(Effect(s, Snapshot(f, true)), rest);
    }
  }
}
