/** What a call of flushSqljs does and what its caller gets. */
module SqljsService {
  import opened Wrappers
  import opened SqljsQueue
  import opened SqljsFlush
  import D = SqljsDurability
  import P = SqljsProgress

  // ---------------------------------------------------------------- the call

  /** The flush that a call adds, by the caller's context: inside a held turn its export runs at once, in a new work of that
      turn; outside any turn it waits out the flush in flight, or else queues for a turn of its own at the tail. */
  ghost predicate IsCalled(s: Sys, s': Sys, flush: Flush, from: Option<nat>, waiter: Option<nat>) {
    var q, q' := s.db.queue, s'.db.queue;
    && flush.called == |q.turns| && flush.waiter == waiter
    && (flush.own <==> from.None? || !Holds(q, from.value))
    && (!flush.own ==>
          && flush.phase == Looping && flush.turn == from.value && flush.work == Some(|q.works|)
          && q'.works == q.works + [Work(from.value, true)] && |q'.turns| == |q.turns|)
    && (flush.own && s.inFlight.Some? ==> flush.phase == AwaitInFlight(s.inFlight.value) && q' == q)
    && (flush.own && s.inFlight.None? ==>
          flush.phase == Queued && flush.turn == |q.turns| && q' == Queue(q.turns + [Turn(true, false, 0)], q.works))
  }

  /** A call adds a flush exactly if it is forced, or something is dirty and nothing in flight; otherwise it does nothing. */
  lemma CallAddsFlushExactly(s: Sys, force: bool, from: Option<nat>, waiter: Option<nat>)
    requires Possible(s, CallFlush(force, from, waiter))
    ensures var s', n := Effect(s, CallFlush(force, from, waiter)), |s.flushes|;
            if force || (s.inFlight.None? && s.dirty) then
              && |s'.flushes| == n + 1 && s'.flushes[..n] == s.flushes
              && s'.flushes[n].force == force && IsCalled(s, s', s'.flushes[n], from, waiter)
            else s' == s
  {
    var s', n := Effect(s, CallFlush(force, from, waiter)), |s.flushes|;
    if |s'.flushes| > n { assert s'.flushes[..n] == s.flushes; }
  }

  // ---------------------------------------------------------------- a forced call from outside any turn

  lemma StepKeepsFlush(s: Sys, a: Action, f: nat)
    requires Possible(s, a) && f < |s.flushes|
    ensures f < |Effect(s, a).flushes| && Effect(s, a).flushes[f].called == s.flushes[f].called
    ensures s.flushes[f].own ==> Effect(s, a).flushes[f].own
  {
    if a.Resume? { D.BeginLeavesOthers(s, Effect(s, a), a.f, s.flushes[a.f], None); }
  }

  lemma {:induction false} PathKeepsFlush(s: Sys, path: seq<Action>, f: nat)
    requires D.IsPath(s, path) && f < |s.flushes| && s.flushes[f].own
    ensures f < |D.After(s, path).flushes| && D.After(s, path).flushes[f].own
    ensures D.After(s, path).flushes[f].called == s.flushes[f].called
    decreases |path|
  {
    if path != [] {
      StepKeepsFlush(s, path[0], f);
      PathKeepsFlush(Effect(s, path[0]), path[1..], f);
    }
  }

  /** Everything under way can be brought to its end. */
  lemma {:induction false} CanFinish(s: Sys) returns (path: seq<Action>)
    requires P.WaitInv(s)
    ensures D.IsPath(s, path) && P.AllDone(D.After(s, path))
    decreases P.Left(s)
  {
    P.DoneOrPossible(s);
    if P.AllDone(s) {
      path := [];
    } else {
      var a :| P.Advances(a) && Possible(s, a);
      P.AdvancingLeavesLess(s, a);
      P.ActionKeepsWaits(s, a);
      var rest := CanFinish(Effect(s, a));
      path := [a] + rest;
      assert path[1..] == rest;
    }
  }

  /** From every reachable state, whatever is in flight, a forced call outside any turn is answered: a path leads to the
      return of that very flush, and if it returns success it has saved everything that was queued when it was called. */
  lemma ForcedCallIsServed(actions: seq<Action>, from: Option<nat>) returns (path: seq<Action>)
    requires D.IsRun(actions) && Possible(D.After(BOOT, actions), CallFlush(true, from, None))
    requires HeldTurn(D.After(BOOT, actions).db.queue, from).None?
    ensures var s := D.After(BOOT, actions);
            var n, s' := |s.flushes|, Effect(s, CallFlush(true, from, None));
            && D.IsPath(s', path)
            && var end := D.After(s', path);
            && n < |end.flushes| && end.flushes[n].phase.Returned?
            && end.flushes[n].called == |s.db.queue.turns|
            && (end.flushes[n].phase == Returned(true) ==> D.HasSaved(end, end.flushes[n]))
  {
    P.RunKeepsWaits(actions);
    path := ServedFrom(D.After(BOOT, actions), from);
  }

  lemma ServedFrom(s: Sys, from: Option<nat>) returns (path: seq<Action>)
    requires P.WaitInv(s) && Possible(s, CallFlush(true, from, None)) && HeldTurn(s.db.queue, from).None?
    ensures var n, s' := |s.flushes|, Effect(s, CallFlush(true, from, None));
            && D.IsPath(s', path)
            && var end := D.After(s', path);
            && n < |end.flushes| && end.flushes[n].phase.Returned?
            && end.flushes[n].called == |s.db.queue.turns|
            && (end.flushes[n].phase == Returned(true) ==> D.HasSaved(end, end.flushes[n]))
  {
    var call := CallFlush(true, from, None);
    CallAddsFlushExactly(s, true, from, None);
    P.ActionKeepsWaits(s, call);
    var s' := Effect(s, call);
    path := CanFinish(s');
    PathKeepsFlush(s', path, |s.flushes|);
    D.PathKeepsInv(s', path);
    ReturnedHasSaved(D.After(s', path), |s.flushes|);
  }

  lemma ReturnedHasSaved(s: Sys, f: nat)
    requires SysInv(s) && P.AllDone(s) && f < |s.flushes| && s.flushes[f].own
    ensures s.flushes[f].phase.Returned?
    ensures s.flushes[f].phase == Returned(true) ==> D.HasSaved(s, s.flushes[f])
  {
    if s.flushes[f].phase == Returned(true) {
      assert FlushOk(s, f);
      D.LandedMeansSaved(s, f);
    }
  }

  // ---------------------------------------------------------------- ticks

  /** No write is marked and no failed flush returns. */
  predicate Untroubled(s: Sys, path: seq<Action>)
    decreases |path|
  {
    path == [] ||
    (&& Possible(s, path[0]) && !path[0].MarkDirty?
     && (path[0].Return? ==> s.flushes[path[0].f].phase.ok)
     && Untroubled(Effect(s, path[0]), path[1..]))
  }

  lemma {:induction false} CleanStaysClean(s: Sys, path: seq<Action>)
    requires !s.dirty && Untroubled(s, path)
    ensures D.IsPath(s, path) && !D.After(s, path).dirty
    decreases |path|
  {
    if path != [] { CleanStaysClean(Effect(s, path[0]), path[1..]); }
  }

  /** From an export on, until a write is marked or a failed flush returns, ticks do nothing at all. */
  lemma TicksAreIdleAfterExport(s: Sys, f: nat, restored: bool, path: seq<Action>, from: Option<nat>, waiter: Option<nat>)
    requires Possible(s, Snapshot(f, restored)) && Untroubled(Effect(s, Snapshot(f, restored)), path)
    requires D.IsPath(Effect(s, Snapshot(f, restored)), path)
    requires Possible(D.After(Effect(s, Snapshot(f, restored)), path), CallFlush(false, from, waiter))
    ensures var s' := D.After(Effect(s, Snapshot(f, restored)), path);
            Effect(s', CallFlush(false, from, waiter)) == s'
  {
    CleanStaysClean(Effect(s, Snapshot(f, restored)), path);
    CallAddsFlushExactly(D.After(Effect(s, Snapshot(f, restored)), path), false, from, waiter);
  }

  /** The flush in flight has not returned. */
  predicate InFlightOk(s: Sys) {
    s.inFlight.Some? ==> s.inFlight.value < |s.flushes| && !s.flushes[s.inFlight.value].phase.Returned?
  }

  lemma ActionKeepsInFlight(s: Sys, a: Action)
    requires InFlightOk(s) && Possible(s, a)
    ensures InFlightOk(Effect(s, a))
  {
    if a.Resume? { D.BeginLeavesOthers(s, Effect(s, a), a.f, s.flushes[a.f], None); }
  }

  lemma {:induction false} PathKeepsInFlight(s: Sys, path: seq<Action>)
    requires InFlightOk(s) && D.IsPath(s, path)
    ensures InFlightOk(D.After(s, path))
    decreases |path|
  {
    if path != [] {
      ActionKeepsInFlight(s, path[0]);
      PathKeepsInFlight(Effect(s, path[0]), path[1..]);
    }
  }

  /** In every run a tick is turned down only for a flush that is still under way: once all have returned, a tick writes
      whatever is dirty. */
  lemma DirtyTickFlushes(actions: seq<Action>, from: Option<nat>)
    requires D.IsRun(actions) && Possible(D.After(BOOT, actions), CallFlush(false, from, None))
    ensures var s := D.After(BOOT, actions);
            && (s.inFlight.Some? ==> exists f | 0 <= f < |s.flushes| :: !s.flushes[f].phase.Returned?)
            && (s.dirty && (forall f | 0 <= f < |s.flushes| :: s.flushes[f].phase.Returned?) ==>
                  |Effect(s, CallFlush(false, from, None)).flushes| == |s.flushes| + 1)
  {
    PathKeepsInFlight(BOOT, actions);
    CallAddsFlushExactly(D.After(BOOT, actions), false, from, None);
  }

  lemma StepKeepsReturned(s: Sys, a: Action, g: nat)
    requires Possible(s, a) && g < |s.flushes| && s.flushes[g].phase.Returned?
    ensures g < |Effect(s, a).flushes| && Effect(s, a).flushes[g].phase.Returned?
  {
    if a.Resume? { D.BeginLeavesOthers(s, Effect(s, a), a.f, s.flushes[a.f], None); }
  }

  /** A flush `f` that has to wait out `on`: it still does, or `on` has returned. */
  predicate WaitsOut(s: Sys, f: nat, on: nat) {
    && f < |s.flushes| && on < |s.flushes|
    && (s.flushes[f].phase == AwaitInFlight(on) || s.flushes[on].phase.Returned?)
  }

  lemma StepWaitsOut(s: Sys, a: Action, f: nat, on: nat)
    requires Possible(s, a) && WaitsOut(s, f, on)
    ensures WaitsOut(Effect(s, a), f, on)
  {
    if s.flushes[on].phase.Returned? { StepKeepsReturned(s, a, on); }
    StepKeepsFlush(s, a, f);
    if a.Resume? { D.BeginLeavesOthers(s, Effect(s, a), a.f, s.flushes[a.f], None); }
  }

  /** On every path a flush that was told to wait out another begins only once that one has returned. */
  lemma {:induction false} ForcedFlushWaitsItOut(s: Sys, path: seq<Action>, f: nat, on: nat)
    requires D.IsPath(s, path) && WaitsOut(s, f, on)
    ensures WaitsOut(D.After(s, path), f, on)
    decreases |path|
  {
    if path != [] {
      StepWaitsOut(s, path[0], f, on);
      ForcedFlushWaitsItOut(Effect(s, path[0]), path[1..], f, on);
    }
  }

  // ---------------------------------------------------------------- the flush in flight

  /** No other flush begins its export: none is called, and none that waited goes on. */
  predicate NoneBegins(s: Sys, path: seq<Action>)
    decreases |path|
  {
    path == [] ||
    (&& Possible(s, path[0]) && !path[0].Resume?
     && (path[0].CallFlush? ==> forall f | |s.flushes| <= f < |Effect(s, path[0]).flushes| :: Effect(s, path[0]).flushes[f].phase.AwaitInFlight?)
     && NoneBegins(Effect(s, path[0]), path[1..]))
  }

  predicate IsInFlight(s: Sys, f: nat) {
    f < |s.flushes| && !s.flushes[f].phase.AwaitInFlight? && s.inFlight == if s.flushes[f].phase.Returned? then None else Some(f)
  }

  lemma StepKeepsInFlight(s: Sys, a: Action, f: nat)
    requires NoneBegins(s, [a]) && IsInFlight(s, f)
    ensures IsInFlight(Effect(s, a), f)
  {
    var s' := Effect(s, a);
    if a.CallFlush? && |s'.flushes| > |s.flushes| { assert s'.flushes[|s.flushes|].phase.AwaitInFlight?; }
  }

  /** The latest flush to begin is the one in flight until it returns: the return of an older one does not clear it. */
  lemma {:induction false} InFlightUntilItReturns(s: Sys, path: seq<Action>, f: nat)
    requires NoneBegins(s, path) && IsInFlight(s, f)
    ensures D.IsPath(s, path) && IsInFlight(D.After(s, path), f)
    decreases |path|
  {
    if path != [] {
      StepKeepsInFlight(s, path[0], f);
      InFlightUntilItReturns(Effect(s, path[0]), path[1..], f);
    }
  }

  /** A flush that begins its export is the one in flight from then on. */
  lemma BeginsInFlight(s: Sys, f: nat, flush: Flush, from: Option<nat>)
    requires f <= |s.flushes|
    ensures IsInFlight(BeginExport(s, f, flush, from), f)
  {
  }
}
