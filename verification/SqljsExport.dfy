/** Whose transaction an export can meet. */
module SqljsExport {
  import opened Wrappers
  import opened SqljsQueue
  import opened SqljsFlush
  import D = SqljsDurability
  import Serial = SqljsSerial

  // ---------------------------------------------------------------- an export's own turn does nothing else

  /** The turn an export queued for holds that export's work alone, and never opened the transaction that is open. */
  ghost predicate OwnTurnOk(s: Sys, f: nat)
    requires f < |s.flushes|
  {
    var flush, q := s.flushes[f], s.db.queue;
    flush.own && !flush.phase.AwaitInFlight? ==>
      && flush.turn < |q.turns|
      && (!flush.phase.Queued? ==> q.turns[flush.turn].started)
      && (forall w | 0 <= w < |q.works| && q.works[w].turn == flush.turn :: flush.work == Some(w))
      && s.db.open != Some(flush.turn)
  }

  ghost predicate OwnInv(s: Sys) {
    SysInv(s) && forall f | 0 <= f < |s.flushes| :: OwnTurnOk(s, f)
  }

  /** Turns and works are only ever added, new works belong to turn `t`, and only turn `t` can open a transaction. */
  ghost predicate OnlyTurnActs(db: Db, db': Db, t: nat) {
    && |db.queue.turns| <= |db'.queue.turns| && |db.queue.works| <= |db'.queue.works|
    && (forall u | 0 <= u < |db.queue.turns| && db.queue.turns[u].started :: db'.queue.turns[u].started)
    && (forall w | 0 <= w < |db.queue.works| :: db'.queue.works[w].turn == db.queue.works[w].turn)
    && (forall w | |db.queue.works| <= w < |db'.queue.works| :: db'.queue.works[w].turn == t)
    && (db'.open.None? || db'.open == db.open || db'.open == Some(t))
  }

  /** The turn an event acts for; a call outside any held turn acts for a turn yet to come. */
  function ActingTurn(db: Db, e: Event): nat
    requires Enabled(db, e)
  {
    match e
    case Call(from, _) => if HeldTurn(db.queue, from).Some? then from.value else |db.queue.turns|
    case Start(t) => t
    case Finish(w) => db.queue.works[w].turn
    case Exec(w, _) => db.queue.works[w].turn
  }

  lemma EventActsForItsTurn(db: Db, e: Event)
    requires Enabled(db, e)
    ensures OnlyTurnActs(db, Apply(db, e), ActingTurn(db, e))
  {
  }

  /** A flush that the event does not touch, and whose turn is not the acting one. */
  lemma UntouchedStaysAlone(s: Sys, s': Sys, f: nat, t: nat)
    requires f < |s.flushes| && f < |s'.flushes| && s'.flushes[f] == s.flushes[f] && OwnTurnOk(s, f)
    requires OnlyTurnActs(s.db, s'.db, t) && !IsOwnTurn(s.flushes[f], t)
    ensures OwnTurnOk(s', f)
  {
  }

  /** A flush that moves on in its turn while neither queue nor transaction change. */
  lemma MovedStaysAlone(s: Sys, s': Sys, f: nat)
    requires f < |s.flushes| && f < |s'.flushes| && OwnTurnOk(s, f) && !s.flushes[f].phase.Queued?
    requires !s.flushes[f].phase.AwaitInFlight? && s'.db.queue == s.db.queue
    requires s'.db.open.None? || s'.db.open == s.db.open
    requires s'.flushes[f] == s.flushes[f].(phase := s'.flushes[f].phase, snap := s'.flushes[f].snap)
    ensures OwnTurnOk(s', f)
  {
  }

  lemma ActingTurnIsNoExports(s: Sys, e: Event, f: nat)
    requires OwnInv(s) && Possible(s, Plain(e)) && f < |s.flushes| && !e.Finish?
    ensures !IsOwnTurn(s.flushes[f], ActingTurn(s.db, e))
  {
    assert OwnTurnOk(s, f) && FlushOk(s, f);
  }

  lemma PlainKeepsOwn(s: Sys, e: Event)
    requires OwnInv(s) && Possible(s, Plain(e))
    ensures OwnInv(Effect(s, Plain(e)))
  {
    var s' := Effect(s, Plain(e));
    D.ActionKeepsInv(s, Plain(e));
    EventActsForItsTurn(s.db, e);
    forall f | 0 <= f < |s'.flushes| ensures OwnTurnOk(s', f) {
      assert OwnTurnOk(s, f);
      if e.Finish? {
        FinishLeavesAlone(s, e, f);
      } else {
        ActingTurnIsNoExports(s, e, f);
        UntouchedStaysAlone(s, s', f, ActingTurn(s.db, e));
      }
    }
  }

  lemma FinishLeavesAlone(s: Sys, e: Event, f: nat)
    requires Possible(s, Plain(e)) && e.Finish? && f < |s.flushes| && OwnTurnOk(s, f)
    ensures OwnTurnOk(Effect(s, Plain(e)), f)
  {
  }

  lemma BeginKeepsOwn(s: Sys, s': Sys, f: nat, flush: Flush, from: Option<nat>)
    requires OwnInv(s) && f <= |s.flushes| && MayCall(s, from, None) && s' == BeginExport(s, f, flush, from) && SysInv(s')
    requires flush.work.None?
    ensures OwnInv(s')
  {
    D.BeginLeavesOthers(s, s', f, flush, from);
    EventActsForItsTurn(s.db, Call(from, None));
    var t := ActingTurn(s.db, Call(from, None));
    forall g | 0 <= g < |s'.flushes| ensures OwnTurnOk(s', g) {
      if g != f {
        assert OwnTurnOk(s, g);
        UntouchedStaysAlone(s, s', g, t);
      }
    }
  }

  lemma AwaitingKeepsOwn(s: Sys, s': Sys, flush: Flush)
    requires OwnInv(s) && SysInv(s') && s' == s.(flushes := s.flushes + [flush]) && flush.phase.AwaitInFlight?
    ensures OwnInv(s')
  {
    forall g | 0 <= g < |s'.flushes| ensures OwnTurnOk(s', g) {
      if g < |s.flushes| { assert OwnTurnOk(s, g); }
    }
  }

  lemma CallKeepsOwn(s: Sys, force: bool, from: Option<nat>, waiter: Option<nat>)
    requires OwnInv(s) && Possible(s, CallFlush(force, from, waiter))
    ensures OwnInv(Effect(s, CallFlush(force, from, waiter)))
  {
    var s' := Effect(s, CallFlush(force, from, waiter));
    var flush := CalledFlush(s, force, from, waiter);
    D.ActionKeepsInv(s, CallFlush(force, from, waiter));
    if s.inFlight.Some? && !force {
      assert s' == s;
    } else if s.inFlight.Some? && flush.own {
      AwaitingKeepsOwn(s, s', flush.(phase := AwaitInFlight(s.inFlight.value)));
    } else if !force && !s.dirty {
      assert s' == s;
    } else {
      BeginKeepsOwn(s, s', |s.flushes|, flush, from);
    }
  }

  lemma StartExportKeepsOwn(s: Sys, f: nat)
    requires OwnInv(s) && Possible(s, StartExport(f))
    ensures OwnInv(Effect(s, StartExport(f)))
  {
    var s' := Effect(s, StartExport(f));
    var t := s.flushes[f].turn;
    D.ActionKeepsInv(s, StartExport(f));
    EventActsForItsTurn(s.db, Start(t));
    assert FlushOk(s, f) && OwnTurnOk(s, f);
    forall g | 0 <= g < |s'.flushes| ensures OwnTurnOk(s', g) {
      if g != f {
        assert OwnTurnOk(s, g) && FlushOk(s, g);
        UntouchedStaysAlone(s, s', g, t);
      }
    }
  }

  lemma FlushMoveKeepsOwn(s: Sys, a: Action, f: nat)
    requires OwnInv(s) && Possible(s, a)
    requires || (a.Snapshot? && f == a.f) || (a.Abort? && f == a.f) || (a.EndWrite? && f == a.f)
             || (a.Return? && f == a.f)
    ensures OwnInv(Effect(s, a))
  {
    var s' := Effect(s, a);
    D.ActionKeepsInv(s, a);
    forall g | 0 <= g < |s'.flushes| ensures OwnTurnOk(s', g) {
      assert OwnTurnOk(s, g);
      if g == f { MovedStaysAlone(s, s', f); }
    }
  }

  lemma ActionKeepsOwn(s: Sys, a: Action)
    requires OwnInv(s) && Possible(s, a)
    ensures OwnInv(Effect(s, a))
  {
    match a
    case Plain(e) => PlainKeepsOwn(s, e);
    case MarkDirty =>
      D.ActionKeepsInv(s, a);
      forall f | 0 <= f < |s.flushes| ensures OwnTurnOk(Effect(s, a), f) { assert OwnTurnOk(s, f); }
    case CallFlush(force, from, waiter) => CallKeepsOwn(s, force, from, waiter);
    case Resume(f) =>
      D.ActionKeepsInv(s, a);
      assert FlushOk(s, f);
      BeginKeepsOwn(s, Effect(s, a), f, s.flushes[f], None);
    case StartExport(f) => StartExportKeepsOwn(s, f);
    case Snapshot(f, _) => FlushMoveKeepsOwn(s, a, f);
    case Abort(f, _) => FlushMoveKeepsOwn(s, a, f);
    case EndWrite(f, _) => FlushMoveKeepsOwn(s, a, f);
    case Return(f) => FlushMoveKeepsOwn(s, a, f);
  }

  // ---------------------------------------------------------------- transactions

  /** A turn, an export's among them, starts while a transaction is open. */
  predicate StartsInsideTransaction(s: Sys, a: Action) {
    s.db.open.Some? && (a.StartExport? || (a.Plain? && a.e.Start?))
  }

  /** No turn starts inside a transaction. */
  predicate Calm(s: Sys, actions: seq<Action>)
    decreases |actions|
  {
    actions == [] ||
    (Possible(s, actions[0]) && !StartsInsideTransaction(s, actions[0]) && Calm(Effect(s, actions[0]), actions[1..]))
  }

  lemma QueueActionKeepsTxnInv(s: Sys, a: Action)
    requires SysInv(s) && Serial.TxnInv(s.db) && Possible(s, a) && !StartsInsideTransaction(s, a)
    requires a.Plain? || a.CallFlush? || a.Resume? || a.StartExport?
    ensures Serial.TxnInv(Effect(s, a).db)
  {
    match a
    case Plain(e) => Serial.StepKeepsTxnInv(s.db, e);
    case CallFlush(force, from, waiter) => Serial.StepKeepsTxnInv(s.db, Call(from, None));
    case Resume(f) => Serial.StepKeepsTxnInv(s.db, Call(None, None));
    case StartExport(f) => Serial.StepKeepsTxnInv(s.db, Start(s.flushes[f].turn));
  }

  lemma ActionKeepsTxnInv(s: Sys, a: Action)
    requires SysInv(s) && Serial.TxnInv(s.db) && Possible(s, a) && !StartsInsideTransaction(s, a)
    ensures Serial.TxnInv(Effect(s, a).db)
  {
    if a.Plain? || a.CallFlush? || a.Resume? || a.StartExport? {
      QueueActionKeepsTxnInv(s, a);
    } else {
      D.ActionKeepsInv(s, a);
    }
  }

  lemma {:induction false} CalmPathKeepsTxnInv(s: Sys, actions: seq<Action>)
    requires OwnInv(s) && Serial.TxnInv(s.db) && Calm(s, actions)
    ensures D.IsPath(s, actions) && OwnInv(D.After(s, actions)) && Serial.TxnInv(D.After(s, actions).db)
    decreases |actions|
  {
    if actions != [] {
      ActionKeepsTxnInv(s, actions[0]);
      ActionKeepsOwn(s, actions[0]);
      CalmPathKeepsTxnInv(Effect(s, actions[0]), actions[1..]);
    }
  }

  lemma HolderOpenedIt(db: Db, t: nat)
    requires Serial.TxnInv(db) && Holds(db.queue, t) && db.open.Some?
    ensures db.open.value == t
  {
    if t < db.open.value { EarlierTurnsReleased(db.queue, db.open.value, t); }
  }

  lemma LoopingMeetsOnlyItsCallers(s: Sys, f: nat)
    requires OwnInv(s) && Serial.TxnInv(s.db) && Is(s, f, Looping)
    ensures s.db.open.Some? ==> s.db.open.value == s.flushes[f].turn && !s.flushes[f].own
  {
    assert FlushOk(s, f) && OwnTurnOk(s, f);
    RunningWorkIsHeld(s.db.queue, s.flushes[f].work.value);
    if s.db.open.Some? { HolderOpenedIt(s.db, s.flushes[f].turn); }
  }

  lemma CalmRunKeepsTxnInv(actions: seq<Action>)
    requires D.IsRun(actions) && Calm(BOOT, actions)
    ensures OwnInv(D.After(BOOT, actions)) && Serial.TxnInv(D.After(BOOT, actions).db)
  {
    CalmPathKeepsTxnInv(BOOT, actions);
  }

  /** In runs in which no turn starts inside a transaction, an export waiting in a turn can only meet a transaction of that
      very turn: one that queued for its own turn meets none and never runs into the deadline, so only a flush called
      inside its caller's transaction can. */
  lemma ExportMeetsOnlyItsCallersTransaction(actions: seq<Action>, f: nat)
    requires D.IsRun(actions) && Calm(BOOT, actions) && Is(D.After(BOOT, actions), f, Looping)
    ensures var s := D.After(BOOT, actions);
            && (s.db.open.Some? ==> s.db.open.value == s.flushes[f].turn && !s.flushes[f].own)
            && (s.flushes[f].own ==> !Possible(s, Abort(f, Deadline)))
  {
    CalmRunKeepsTxnInv(actions);
    LoopingMeetsOnlyItsCallers(D.After(BOOT, actions), f);
  }

  // ---------------------------------------------------------------- without that condition

  /** The flush has left its loop; it does not come back. */
  predicate Past(phase: Phase) { phase.Writing? || phase.Landed? || phase.Returned? }

  lemma LoopingFreezes(s: Sys, a: Action, f: nat)
    requires OwnInv(s) && Possible(s, a) && f < |s.flushes| && s.flushes[f].own
    requires s.flushes[f].phase.Looping? || Past(s.flushes[f].phase)
    ensures f < |Effect(s, a).flushes| && Effect(s, a).flushes[f].own
    ensures var phase := Effect(s, a).flushes[f].phase;
            Past(phase) || (phase.Looping? && s.flushes[f].phase.Looping?)
    ensures Effect(s, a).flushes[f].phase.Looping? ==> Effect(s, a).db.open == s.db.open
  {
    FlushMovesForward(s, a, f);
    if s.flushes[f].phase.Looping? && a.Plain? && a.e.Exec? {
      assert FlushOk(s, f) && OwnTurnOk(s, f);
      D.LoopingHoldsItsTurn(s.db.queue, s.flushes[f].work.value, s.flushes[f].turn);
    }
  }

  lemma FlushMovesForward(s: Sys, a: Action, f: nat)
    requires Possible(s, a) && f < |s.flushes| && (s.flushes[f].phase.Looping? || Past(s.flushes[f].phase))
    ensures f < |Effect(s, a).flushes| && Effect(s, a).flushes[f].own == s.flushes[f].own
    ensures var phase := Effect(s, a).flushes[f].phase;
            Past(phase) || (phase.Looping? && s.flushes[f].phase.Looping?)
  {
    if a.Resume? { D.BeginLeavesOthers(s, Effect(s, a), a.f, s.flushes[a.f], None); }
  }

  /** While an export waits in its own turn nothing opens or ends a transaction. */
  lemma {:induction false} OwnExportFreezesTransactions(s: Sys, path: seq<Action>, f: nat)
    requires OwnInv(s) && Is(s, f, Looping) && s.flushes[f].own && D.IsPath(s, path)
    requires Is(D.After(s, path), f, Looping)
    ensures D.After(s, path).db.open == s.db.open
    decreases |path|
  {
    if path != [] {
      LoopingFreezes(s, path[0], f);
      ActionKeepsOwn(s, path[0]);
      if Past(Effect(s, path[0]).flushes[f].phase) {
        PastStaysPast(Effect(s, path[0]), path[1..], f);
      } else {
        OwnExportFreezesTransactions(Effect(s, path[0]), path[1..], f);
      }
    }
  }

  lemma {:induction false} PastStaysPast(s: Sys, path: seq<Action>, f: nat)
    requires D.IsPath(s, path) && f < |s.flushes| && Past(s.flushes[f].phase)
    ensures f < |D.After(s, path).flushes| && Past(D.After(s, path).flushes[f].phase)
    decreases |path|
  {
    if path != [] {
      FlushMovesForward(s, path[0], f);
      PastStaysPast(Effect(s, path[0]), path[1..], f);
    }
  }

  lemma {:induction false} PathKeepsOwn(s: Sys, actions: seq<Action>)
    requires OwnInv(s) && D.IsPath(s, actions)
    ensures OwnInv(D.After(s, actions))
    decreases |actions|
  {
    if actions != [] {
      ActionKeepsOwn(s, actions[0]);
      PathKeepsOwn(Effect(s, actions[0]), actions[1..]);
    }
  }

  /** The exact condition, in every run: an export waiting in its own turn meets an open transaction if and only if its
      turn started inside it (a raw BEGIN left it open), and then nothing it could wait for ends that transaction. */
  lemma OwnExportMeetsWhatItStartedIn(actions: seq<Action>, f: nat, path: seq<Action>)
    requires D.IsRun(actions) && Possible(D.After(BOOT, actions), StartExport(f))
    requires D.IsPath(Effect(D.After(BOOT, actions), StartExport(f)), path)
    requires Is(D.After(Effect(D.After(BOOT, actions), StartExport(f)), path), f, Looping)
    ensures D.After(Effect(D.After(BOOT, actions), StartExport(f)), path).db.open.Some? <==>
            StartsInsideTransaction(D.After(BOOT, actions), StartExport(f))
  {
    PathKeepsOwn(BOOT, actions);
    var s := D.After(BOOT, actions);
    assert FlushOk(s, f);
    ActionKeepsOwn(s, StartExport(f));
    OwnExportFreezesTransactions(Effect(s, StartExport(f)), path, f);
  }
}
