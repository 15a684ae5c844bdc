/** What every run of the write queue guarantees: serialisation, isolation, release, progress. */
module SqljsSerial {
  import opened Wrappers
  import opened SqljsQueue

  predicate IsPath(s: Db, es: seq<Event>)
    decreases |es|
  {
    es == [] || (Enabled(s, es[0]) && IsPath(Apply(s, es[0]), es[1..]))
  }

  function After(s: Db, es: seq<Event>): Db
    requires IsPath(s, es)
    decreases |es|
  {
    if es == [] then s else After(Apply(s, es[0]), es[1..])
  }

  /** A run from the freshly opened connection. */
  predicate IsRun(es: seq<Event>) { IsPath(FRESH, es) }

  lemma {:induction false} PathKeepsDbInv(s: Db, es: seq<Event>)
    requires DbInv(s) && IsPath(s, es)
    ensures DbInv(After(s, es))
    decreases |es|
  {
    if es != [] {
      StepKeepsDbInv(s, es[0]);
      PathKeepsDbInv(Apply(s, es[0]), es[1..]);
    }
  }

  // ---------------------------------------------------------------- one turn at a time

  lemma AtMostOneTurnIsHeld(q: Queue, t: nat, u: nat)
    requires QueueInv(q) && Holds(q, t) && Holds(q, u)
    ensures t == u
  {
    if t < u { EarlierTurnsReleased(q, u, t); }
    if u < t { EarlierTurnsReleased(q, t, u); }
  }

  // ---------------------------------------------------------------- the log is one block per turn

  ghost function OfTurn(log: seq<Entry>, t: nat): seq<Entry> {
    if log == [] then []
    else OfTurn(log[..|log| - 1], t) + if log[|log| - 1].turn == t then [log[|log| - 1]] else []
  }

  /** The blocks of turns 0 .. n-1, in queue order. */
  ghost function Blocks(log: seq<Entry>, n: nat): seq<Entry> {
    if n == 0 then [] else Blocks(log, n - 1) + OfTurn(log, n - 1)
  }

  lemma {:induction false} BlocksAppend(log: seq<Entry>, e: Entry, n: nat)
    requires forall i | 0 <= i < |log| :: log[i].turn <= e.turn
    ensures Blocks(log + [e], n) == Blocks(log, n) + if e.turn < n then [e] else []
  {
    assert (log + [e])[..|log|] == log;
    if n > 0 {
      BlocksAppend(log, e, n - 1);
      assert OfTurn(log + [e], n - 1) == OfTurn(log, n - 1) + if e.turn == n - 1 then [e] else [];
      if e.turn < n - 1 { NothingLater(log, n - 1, e.turn); }
    }
  }

  lemma {:induction false} NothingLater(log: seq<Entry>, t: nat, last: nat)
    requires last < t && forall i | 0 <= i < |log| :: log[i].turn <= last
    ensures OfTurn(log, t) == []
  {
    if log != [] { NothingLater(log[..|log| - 1], t, last); }
  }

  lemma {:induction false} SortedLogIsBlocks(log: seq<Entry>, n: nat)
    requires forall i, j | 0 <= i < j < |log| :: log[i].turn <= log[j].turn
    requires forall i | 0 <= i < |log| :: log[i].turn < n
    ensures log == Blocks(log, n)
  {
    if log == [] {
      EmptyBlocks(n);
    } else {
      var front, e := log[..|log| - 1], log[|log| - 1];
      SortedLogIsBlocks(front, n);
      BlocksAppend(front, e, n);
      assert log == front + [e];
    }
  }

  lemma {:induction false} EmptyBlocks(n: nat)
    ensures Blocks([], n) == []
  {
    if n > 0 { EmptyBlocks(n - 1); }
  }

  /** In every run the log of statements on the connection is the concatenation of one block per turn, in queue order. */
  lemma LogIsBlocksInQueueOrder(es: seq<Event>)
    requires IsRun(es)
    ensures After(FRESH, es).log == Blocks(After(FRESH, es).log, |After(FRESH, es).queue.turns|)
  {
    PathKeepsDbInv(FRESH, es);
    var s := After(FRESH, es);
    SortedLogIsBlocks(s.log, |s.queue.turns|);
  }

  // ---------------------------------------------------------------- a turn is handed on once and for good

  /** `later` has left released turn `t` alone: same record, no work started in it and no statement logged for it. */
  ghost predicate LeavesAlone(s: Db, later: Db, t: nat) {
    && t < |s.queue.turns| <= |later.queue.turns| && later.queue.turns[t] == s.queue.turns[t]
    && |s.queue.works| <= |later.queue.works|
    && (forall w | 0 <= w < |s.queue.works| :: later.queue.works[w].turn == s.queue.works[w].turn)
    && (forall w | |s.queue.works| <= w < |later.queue.works| :: later.queue.works[w].turn != t)
    && |s.log| <= |later.log| && later.log[..|s.log|] == s.log
    && (forall i | |s.log| <= i < |later.log| :: later.log[i].turn != t)
  }

  lemma StepLeavesReleasedAlone(s: Db, e: Event, t: nat)
    requires DbInv(s) && Enabled(s, e) && Released(s.queue, t)
    ensures LeavesAlone(s, Apply(s, e), t)
  {
    if e.Finish? || e.Exec? { RunningWorkIsHeld(s.queue, e.w); }
  }

  lemma AloneIsTransitive(s: Db, s': Db, s'': Db, t: nat)
    requires LeavesAlone(s, s', t) && LeavesAlone(s', s'', t)
    ensures LeavesAlone(s, s'', t)
  {
    assert s''.log[..|s.log|] == s''.log[..|s'.log|][..|s.log|];
    forall i | |s.log| <= i < |s''.log| ensures s''.log[i].turn != t {
      if i < |s'.log| { assert s''.log[i] == s''.log[..|s'.log|][i]; }
    }
    forall w | |s.queue.works| <= w < |s''.queue.works| ensures s''.queue.works[w].turn != t {
      if w < |s'.queue.works| { assert s'.queue.works[w].turn != t; }
    }
  }

  /** A turn handed on is handed on for good: no event changes it, starts a work in it or logs a statement for it, and a
      call from one of its late descendants opens a new turn at the tail. */
  lemma {:induction false} ReleasedForGood(s: Db, es: seq<Event>, t: nat)
    requires DbInv(s) && IsPath(s, es) && Released(s.queue, t)
    ensures LeavesAlone(s, After(s, es), t)
    ensures Enqueue(s.queue, Some(t)) == s.queue.(turns := s.queue.turns + [Turn(true, false, 0)])
    decreases |es|
  {
    if es != [] {
      StepLeavesReleasedAlone(s, es[0], t);
      StepKeepsDbInv(s, es[0]);
      ReleasedForGood(Apply(s, es[0]), es[1..], t);
      AloneIsTransitive(s, Apply(s, es[0]), After(s, es), t);
    }
  }

  // ---------------------------------------------------------------- transactions

  /** While a transaction is open, everything written in it belongs to the turn that opened it. */
  ghost predicate Isolated(s: Db) {
    s.open.Some? ==> forall e | e in s.uncommitted :: e.turn == s.open.value
  }

  /** A turn starts although an earlier one was handed on with its transaction still open (a raw BEGIN statement). */
  ghost predicate StartsInsideTransaction(s: Db, e: Event) { e.Start? && s.open.Some? }

  ghost predicate TxnInv(s: Db) {
    && DbInv(s)
    && Isolated(s)
    && (s.open.Some? ==> forall t | s.open.value < t < |s.queue.turns| :: !s.queue.turns[t].started)
  }

  /** The running work belongs to the turn that opened the transaction. */
  lemma OwnTransaction(s: Db, w: nat)
    requires TxnInv(s) && IsRunning(s.queue, w)
    ensures s.open.Some? ==> s.queue.works[w].turn == s.open.value
    ensures forall t | s.queue.works[w].turn < t < |s.queue.turns| :: !s.queue.turns[t].started
  {
    RunningWorkIsHeld(s.queue, w);
    var mine := s.queue.works[w].turn;
    forall t | mine < t < |s.queue.turns| ensures !s.queue.turns[t].started {
      if s.queue.turns[t].started { EarlierTurnsReleased(s.queue, t, mine); }
    }
  }

  lemma StepKeepsTxnInv(s: Db, e: Event)
    requires TxnInv(s) && Enabled(s, e) && !StartsInsideTransaction(s, e)
    ensures TxnInv(Apply(s, e))
  {
    StepKeepsDbInv(s, e);
    if e.Exec? { OwnTransaction(s, e.w); }
  }

  ghost predicate Quiet(s: Db, es: seq<Event>)
    decreases |es|
  {
    es == [] || (Enabled(s, es[0]) && !StartsInsideTransaction(s, es[0]) && Quiet(Apply(s, es[0]), es[1..]))
  }

  lemma {:induction false} QuietPathKeepsTxnInv(s: Db, es: seq<Event>)
    requires TxnInv(s) && Quiet(s, es)
    ensures IsPath(s, es) && TxnInv(After(s, es))
    decreases |es|
  {
    if es != [] {
      StepKeepsTxnInv(s, es[0]);
      QuietPathKeepsTxnInv(Apply(s, es[0]), es[1..]);
    }
  }

  /** A run in which no turn starts inside a transaction. */
  ghost predicate QuietRun(es: seq<Event>) { IsRun(es) && Quiet(FRESH, es) }

  ghost predicate IsolatedFrom(s: Db) {
    forall es | Quiet(s, es) :: IsPath(s, es) && Isolated(After(s, es))
  }

  lemma IntruderBreaksIn(s: Db, e: Event)
    requires TxnInv(s) && Enabled(s, e) && StartsInsideTransaction(s, e)
    ensures !IsolatedFrom(Apply(s, e))
  {
    var s' := Apply(s, e);
    var write := Exec(|s.queue.works|, Write(0));
    assert s'.queue.works[|s.queue.works|] == Work(e.t, true);
    assert Enabled(s', write);
    OneEventPath(s', write);
    assert Entry(e.t, Write(0)) in Apply(s', write).uncommitted;
  }

  lemma OneEventPath(s: Db, e: Event)
    requires Enabled(s, e) && !StartsInsideTransaction(s, e)
    ensures Quiet(s, [e]) && IsPath(s, [e]) && After(s, [e]) == Apply(s, e)
  {
    assert [e][1..] == [];
  }

  /** The exact condition for isolation: between one turn's BEGIN and its COMMIT or ROLLBACK no other turn's write ever
      runs, if and only if no turn starts while a transaction is open. */
  lemma IsolatedExactlyUnlessStartedInside(es: seq<Event>, e: Event)
    requires QuietRun(es) && Enabled(After(FRESH, es), e)
    ensures Isolated(After(FRESH, es))
    ensures IsolatedFrom(Apply(After(FRESH, es), e)) <==> !StartsInsideTransaction(After(FRESH, es), e)
  {
    QuietPathKeepsTxnInv(FRESH, es);
    var s := After(FRESH, es);
    var s' := Apply(s, e);
    if StartsInsideTransaction(s, e) {
      IntruderBreaksIn(s, e);
    } else {
      StepKeepsTxnInv(s, e);
      forall es' | Quiet(s', es') ensures IsPath(s', es') && Isolated(After(s', es')) {
        QuietPathKeepsTxnInv(s', es');
      }
    }
  }

  /** A rollback (likewise a commit) takes exactly the rolling turn's own writes: nothing committed is lost, and nothing
      of another turn was pending. */
  lemma RollbackUndoesOwnTurnOnly(es: seq<Event>, w: nat)
    requires QuietRun(es) && IsRunning(After(FRESH, es).queue, w)
    ensures var s := After(FRESH, es);
            && Enabled(s, Exec(w, Rollback))
            && Apply(s, Exec(w, Rollback)).committed == s.committed
            && Apply(s, Exec(w, Rollback)).uncommitted == [] && Apply(s, Exec(w, Rollback)).open.None?
            && forall e | e in s.uncommitted :: e.turn == s.queue.works[w].turn
  {
    QuietPathKeepsTxnInv(FRESH, es);
    OwnTransaction(After(FRESH, es), w);
  }

  // ---------------------------------------------------------------- progress

  ghost function Unstarted(turns: seq<Turn>): nat {
    if turns == [] then 0
    else Unstarted(turns[..|turns| - 1]) + if turns[|turns| - 1].started then 0 else 1
  }

  ghost function AllRunning(works: seq<Work>): nat {
    if works == [] then 0
    else AllRunning(works[..|works| - 1]) + if works[|works| - 1].running then 1 else 0
  }

  /** How many starts and settlements the queue still owes. */
  ghost function Owed(q: Queue): nat { 2 * Unstarted(q.turns) + AllRunning(q.works) }

  lemma {:induction false} UnstartedUpdate(turns: seq<Turn>, t: nat, turn: Turn)
    requires t < |turns|
    ensures Unstarted(turns[t := turn]) ==
            Unstarted(turns) + (if turns[t].started then 0 else -1) + (if turn.started then 0 else 1)
  {
    var n := |turns| - 1;
    if t < n {
      UnstartedUpdate(turns[..n], t, turn);
      assert turns[t := turn][..n] == turns[..n][t := turn];
    } else {
      assert turns[t := turn][..n] == turns[..n];
    }
  }

  lemma {:induction false} AllRunningSettle(works: seq<Work>, w: nat)
    requires w < |works| && works[w].running
    ensures AllRunning(works[w := works[w].(running := false)]) == AllRunning(works) - 1
  {
    var n := |works| - 1;
    var works' := works[w := works[w].(running := false)];
    if w < n {
      AllRunningSettle(works[..n], w);
      assert works'[..n] == works[..n][w := works[w].(running := false)];
    } else {
      assert works'[..n] == works[..n];
    }
  }

  lemma {:induction false} FirstUnstarted(turns: seq<Turn>) returns (t: nat)
    requires Unstarted(turns) > 0
    ensures t < |turns| && !turns[t].started && forall u | 0 <= u < t :: turns[u].started
  {
    var n := |turns| - 1;
    if Unstarted(turns[..n]) > 0 {
      t := FirstUnstarted(turns[..n]);
      assert forall u | 0 <= u <= t :: turns[..n][u] == turns[u];
    } else {
      t := n;
      forall u | 0 <= u < n ensures turns[u].started { UnstartedCounts(turns[..n], u); }
    }
  }

  lemma {:induction false} UnstartedCounts(turns: seq<Turn>, t: nat)
    requires t < |turns|
    ensures !turns[t].started ==> Unstarted(turns) > 0
  {
    if t < |turns| - 1 { UnstartedCounts(turns[..|turns| - 1], t); }
  }

  lemma {:induction false} LastRunning(works: seq<Work>) returns (w: nat)
    requires AllRunning(works) > 0
    ensures w < |works| && works[w].running && forall v | w < v < |works| :: !works[v].running
  {
    w := |works| - 1;
    if !works[w].running { w := LastRunning(works[..w]); }
  }

  lemma {:induction false} RunningIsCounted(works: seq<Work>, w: nat)
    requires w < |works| && works[w].running
    ensures AllRunning(works) > 0
  {
    if w < |works| - 1 { RunningIsCounted(works[..|works| - 1], w); }
  }

  ghost predicate IsDrain(e: Event) { e.Start? || e.Finish? }

  ghost predicate AllReleased(q: Queue) { forall t | 0 <= t < |q.turns| :: Released(q, t) }

  lemma DrainStepPays(s: Db, e: Event)
    requires DbInv(s) && Enabled(s, e) && IsDrain(e)
    ensures Owed(Apply(s, e).queue) == Owed(s.queue) - 1
  {
    var q, q' := s.queue, Apply(s, e).queue;
    if e.Start? {
      var started := q.turns[e.t].(started := true);
      UnstartedUpdate(q.turns, e.t, started);
      UnstartedUpdate(q.turns[e.t := started], e.t, started.(pending := started.pending + 1));
      assert q'.works[..|q.works|] == q.works;
    } else {
      RunningWorkIsHeld(q, e.w);
      UnstartedUpdate(q.turns, q.works[e.w].turn, q'.turns[q.works[e.w].turn]);
      AllRunningSettle(q.works, e.w);
    }
  }

  /** Nothing is owed exactly when every turn has been handed on; otherwise a start or a settlement is possible: the work
      that began last awaits nobody. */
  lemma OwedMeansPossible(s: Db)
    requires DbInv(s)
    ensures Owed(s.queue) == 0 <==> AllReleased(s.queue)
    ensures Owed(s.queue) > 0 ==> exists e :: IsDrain(e) && Enabled(s, e)
  {
    var q := s.queue;
    if AllRunning(q.works) > 0 {
      var w := LastRunning(q.works);
      assert Enabled(s, Finish(w));
      RunningWorkIsHeld(q, w);
      assert !Released(q, q.works[w].turn);
    } else {
      forall t | 0 <= t < |q.turns| && q.turns[t].started ensures Released(q, t) {
        ReleasedExactlyWhenSettled(q, t);
        forall w | 0 <= w < |q.works| ensures q.works[w] != Work(t, true) {
          if q.works[w].running { RunningIsCounted(q.works, w); }
        }
      }
      if Unstarted(q.turns) > 0 {
        var t := FirstUnstarted(q.turns);
        assert Enabled(s, Start(t)) && !Released(q, t);
      } else {
        forall t | 0 <= t < |q.turns| ensures q.turns[t].started { UnstartedCounts(q.turns, t); }
      }
    }
  }

  ghost predicate DrainPath(s: Db, es: seq<Event>) {
    IsPath(s, es) && forall i | 0 <= i < |es| :: IsDrain(es[i])
  }

  /** If every started work settles that awaits nothing, every queued turn starts and is handed on: starts and settlements
      alone can follow any reachable state for exactly `Owed` events, never get stuck before, and at the end every turn was
      handed on. Works that await calls they made inside their turn do not get in the way: such a call never queues. */
  lemma {:induction false} QueueDrains(s: Db, es: seq<Event>)
    requires DbInv(s) && DrainPath(s, es)
    ensures |es| <= Owed(s.queue)
    ensures |es| == Owed(s.queue) <==> AllReleased(After(s, es).queue)
    ensures |es| < Owed(s.queue) ==> exists e :: IsDrain(e) && Enabled(After(s, es), e)
    decreases |es|
  {
    if es == [] {
      OwedMeansPossible(s);
    } else {
      DrainStepPays(s, es[0]);
      StepKeepsDbInv(s, es[0]);
      QueueDrains(Apply(s, es[0]), es[1..]);
    }
  }
}
