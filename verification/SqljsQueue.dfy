/** The sql.js write queue of db.ts: FIFO turns with re-entrant work, over one connection with one transaction state.
    One event is one synchronous stretch of JavaScript; every statement runs inside a work of some turn. */
module SqljsQueue {
  import opened Wrappers

  /** A turn. `active` closes when the turn is handed on; `pending` counts its unsettled works. */
  datatype Turn = Turn(active: bool, started: bool, pending: int)

  /** A work (queued method, statement or export) that has been started inside a turn. */
  datatype Work = Work(turn: nat, running: bool)

  /** Turns in queue order and works in starting order. */
  datatype Queue = Queue(turns: seq<Turn>, works: seq<Work>)

  predicate Released(q: Queue, t: nat) { t < |q.turns| && q.turns[t].started && !q.turns[t].active }

  predicate Holds(q: Queue, t: nat) { t < |q.turns| && q.turns[t].started && q.turns[t].active }

  /** The turn ahead has been handed on (or there is none), so the turn may start. */
  predicate Ready(q: Queue, t: nat) { t < |q.turns| && !q.turns[t].started && (t == 0 || Released(q, t - 1)) }

  predicate IsRunning(q: Queue, w: nat) { w < |q.works| && q.works[w].running && q.works[w].turn < |q.turns| }

  /** The asynchronous context a call is made from: none, or the turn whose work (or descendant) makes it. */
  predicate IsContext(q: Queue, from: Option<nat>) { from.Some? ==> from.value < |q.turns| && q.turns[from.value].started }

  /** heldTurn: a context counts only while its turn has not been handed on. */
  function HeldTurn(q: Queue, from: Option<nat>): Option<nat> {
    if from.Some? && Holds(q, from.value) then from else None
  }

  function Within(q: Queue, t: nat): Queue
    requires t < |q.turns|
  {
    Queue(q.turns[t := q.turns[t].(pending := q.turns[t].pending + 1)], q.works + [Work(t, true)])
  }

  function Enqueue(q: Queue, from: Option<nat>): Queue {
    if HeldTurn(q, from).Some? then Within(q, from.value)
    else q.(turns := q.turns + [Turn(true, false, 0)])
  }

  function StartTurn(q: Queue, t: nat): Queue
    requires Ready(q, t)
  {
    Within(q.(turns := q.turns[t := q.turns[t].(started := true)]), t)
  }

  /** The `finally` of a work: the last one to settle hands the turn on. */
  function Settle(q: Queue, w: nat): Queue
    requires IsRunning(q, w)
  {
    var t := q.works[w].turn;
    var left := q.turns[t].pending - 1;
    Queue(q.turns[t := q.turns[t].(pending := left, active := q.turns[t].active && left != 0)],
          q.works[w := q.works[w].(running := false)])
  }

  // ---------------------------------------------------------------- what the queue keeps

  /** The number of running works of turn `t`. */
  ghost function Running(works: seq<Work>, t: nat): nat {
    if works == [] then 0
    else Running(works[..|works| - 1], t) + if works[|works| - 1] == Work(t, true) then 1 else 0
  }

  ghost predicate TurnOk(q: Queue, t: nat)
    requires t < |q.turns|
  {
    var turn := q.turns[t];
    && turn.pending == Running(q.works, t)
    && (!turn.started ==> turn.active && turn.pending == 0)
    && (turn.started ==> (turn.active <==> turn.pending > 0))
    && (turn.started && t > 0 ==> Released(q, t - 1))
  }

  ghost predicate QueueInv(q: Queue) {
    && (forall t | 0 <= t < |q.turns| :: TurnOk(q, t))
    && (forall w | 0 <= w < |q.works| :: q.works[w].turn < |q.turns| && q.turns[q.works[w].turn].started)
  }

  lemma {:induction false} RunningAfterSettle(works: seq<Work>, w: nat, t: nat)
    requires w < |works| && works[w].running
    ensures Running(works[w := works[w].(running := false)], t) ==
            Running(works, t) - if works[w].turn == t then 1 else 0
  {
    var n := |works| - 1;
    var works' := works[w := works[w].(running := false)];
    if w < n {
      RunningAfterSettle(works[..n], w, t);
      assert works'[..n] == works[..n][w := works[w].(running := false)];
    } else {
      assert works'[..n] == works[..n];
    }
  }

  lemma RunningAfterAdd(works: seq<Work>, added: Work, t: nat)
    ensures Running(works + [added], t) == Running(works, t) + if added == Work(t, true) then 1 else 0
  {
    assert (works + [added])[..|works|] == works;
  }

  lemma {:induction false} RunningWorkCounts(works: seq<Work>, w: nat)
    requires w < |works| && works[w].running
    ensures Running(works, works[w].turn) > 0
  {
    var n := |works| - 1;
    if w < n { RunningWorkCounts(works[..n], w); }
  }

  lemma {:induction false} CountedWorkRuns(works: seq<Work>, t: nat) returns (w: nat)
    requires Running(works, t) > 0
    ensures w < |works| && works[w] == Work(t, true)
  {
    w := |works| - 1;
    if works[w] != Work(t, true) { w := CountedWorkRuns(works[..w], t); }
  }

  lemma {:induction false} NoWorkNoRunning(works: seq<Work>, t: nat)
    requires forall w | 0 <= w < |works| :: works[w].turn != t
    ensures Running(works, t) == 0
  {
    if works != [] { NoWorkNoRunning(works[..|works| - 1], t); }
  }

  lemma EnqueueKeepsInv(q: Queue, from: Option<nat>)
    requires QueueInv(q)
    ensures QueueInv(Enqueue(q, from))
  {
    var q' := Enqueue(q, from);
    forall t | 0 <= t < |q'.turns| ensures TurnOk(q', t) {
      if t < |q.turns| {
        assert TurnOk(q, t);
        RunningAfterAdd(q.works, Work(if from.Some? then from.value else 0, true), t);
        if t > 0 { assert TurnOk(q, t - 1); }
      } else {
        NoWorkNoRunning(q.works, t);
      }
    }
  }

  lemma StartKeepsInv(q: Queue, t: nat)
    requires QueueInv(q) && Ready(q, t)
    ensures QueueInv(StartTurn(q, t))
  {
    var q' := StartTurn(q, t);
    forall u | 0 <= u < |q'.turns| ensures TurnOk(q', u) {
      assert TurnOk(q, u);
      RunningAfterAdd(q.works, Work(t, true), u);
    }
  }

  lemma RunningWorkIsHeld(q: Queue, w: nat)
    requires QueueInv(q) && IsRunning(q, w)
    ensures Holds(q, q.works[w].turn) && q.turns[q.works[w].turn].pending > 0
  {
    assert TurnOk(q, q.works[w].turn);
    RunningWorkCounts(q.works, w);
  }

  lemma SettleKeepsInv(q: Queue, w: nat)
    requires QueueInv(q) && IsRunning(q, w)
    ensures QueueInv(Settle(q, w))
  {
    RunningWorkIsHeld(q, w);
    var q' := Settle(q, w);
    forall t | 0 <= t < |q'.turns| ensures TurnOk(q', t) {
      assert TurnOk(q, t);
      RunningAfterSettle(q.works, w, t);
    }
  }

  /** Every turn ahead of a started one has been handed on. */
  lemma {:induction false} EarlierTurnsReleased(q: Queue, t: nat, s: nat)
    requires QueueInv(q) && t < |q.turns| && q.turns[t].started && s < t
    ensures Released(q, s)
  {
    assert TurnOk(q, t);
    if s < t - 1 { EarlierTurnsReleased(q, t - 1, s); }
  }

  /** A turn has been handed on exactly when it started and none of its works is still running. */
  lemma ReleasedExactlyWhenSettled(q: Queue, t: nat)
    requires QueueInv(q) && t < |q.turns|
    ensures Released(q, t) <==> q.turns[t].started && forall w | 0 <= w < |q.works| :: q.works[w] != Work(t, true)
  {
    assert TurnOk(q, t);
    if Running(q.works, t) > 0 {
      var w := CountedWorkRuns(q.works, t);
    } else {
      forall w | 0 <= w < |q.works| ensures q.works[w] != Work(t, true) {
        if q.works[w] == Work(t, true) { RunningWorkCounts(q.works, w); }
      }
    }
  }

  // ---------------------------------------------------------------- the connection

  /** `ForeignKeys` is PRAGMA foreign_keys, which SQLite ignores inside a transaction. */
  datatype Stmt = Begin | Commit | Rollback | Write(value: int) | ForeignKeys(on: bool)

  datatype Entry = Entry(turn: nat, stmt: Stmt)

  /** A work that awaits a call it made inside its turn does not settle before what the call started has: a work begun at
      once, or the first work of a turn that the call queued. */
  datatype Target = TheWork(work: nat) | FirstWorkOf(turn: nat)

  datatype Await = Await(waiter: nat, target: Target)

  predicate HasSettled(q: Queue, target: Target) {
    match target
    case TheWork(v) => !IsRunning(q, v)
    case FirstWorkOf(t) =>
      exists v | 0 <= v < |q.works| :: q.works[v] == Work(t, false) && forall u | 0 <= u < v :: q.works[u].turn != t
  }

  /** `waiter` can await a call made in context `from`: it is running in that turn. */
  predicate CanAwait(q: Queue, from: Option<nat>, waiter: Option<nat>) {
    waiter.Some? ==> from.Some? && IsRunning(q, waiter.value) && q.works[waiter.value].turn == from.value
  }

  /** What the caller of `Enqueue(q, from)` awaits. */
  function Called(q: Queue, from: Option<nat>): Target {
    if HeldTurn(q, from).Some? then TheWork(|q.works|) else FirstWorkOf(|q.turns|)
  }

  /** The connection: its queue and who awaits whom, every statement so far, what is committed, and the open transaction,
      if any, with the turn that opened it and what it has written. */
  datatype Db = Db(
    queue: Queue, awaits: seq<Await>, log: seq<Entry>, committed: seq<Entry>, open: Option<nat>, uncommitted: seq<Entry>, foreignKeys: bool)

  function Execute(s: Db, e: Entry): Db {
    var s := s.(log := s.log + [e]);
    match e.stmt
    case Begin => if s.open.Some? then s else s.(open := Some(e.turn), uncommitted := [])
    case Commit =>
      if s.open.None? then s else s.(open := None, committed := s.committed + s.uncommitted, uncommitted := [])
    case Rollback => if s.open.None? then s else s.(open := None, uncommitted := [])
    case Write(_) =>
      if s.open.Some? then s.(uncommitted := s.uncommitted + [e]) else s.(committed := s.committed + [e])
    case ForeignKeys(on) => if s.open.Some? then s else s.(foreignKeys := on)
  }

  /** `Call`: a call from the given context, awaited by the given work, if any. */
  datatype Event = Call(from: Option<nat>, waiter: Option<nat>) | Start(t: nat) | Finish(w: nat) | Exec(w: nat, stmt: Stmt)

  predicate Enabled(s: Db, e: Event) {
    match e
    case Call(from, waiter) => IsContext(s.queue, from) && CanAwait(s.queue, from, waiter)
    case Start(t) => Ready(s.queue, t)
    case Finish(w) => IsRunning(s.queue, w) && forall a | a in s.awaits && a.waiter == w :: HasSettled(s.queue, a.target)
    case Exec(w, _) => IsRunning(s.queue, w)
  }

  function Apply(s: Db, e: Event): Db
    requires Enabled(s, e)
  {
    match e
    case Call(from, waiter) =>
      var awaits := if waiter.Some? then s.awaits + [Await(waiter.value, Called(s.queue, from))] else s.awaits;
      s.(queue := Enqueue(s.queue, from), awaits := awaits)
    case Start(t) => s.(queue := StartTurn(s.queue, t))
    case Finish(w) => s.(queue := Settle(s.queue, w))
    case Exec(w, stmt) => Execute(s, Entry(s.queue.works[w].turn, stmt))
  }

  const FRESH := Db(Queue([], []), [], [], [], None, [], true)

  ghost predicate AllIn(entries: seq<Entry>, log: seq<Entry>) { forall e | e in entries :: e in log }

  ghost predicate LogOk(q: Queue, log: seq<Entry>) {
    && (forall i | 0 <= i < |log| :: log[i].turn < |q.turns| && q.turns[log[i].turn].started)
    && (forall i, j | 0 <= i < j < |log| :: log[i].turn <= log[j].turn)
  }

  /** Whoever awaits a call awaits a work that began later: a call made while its turn is held never queues. */
  ghost predicate AwaitsOk(q: Queue, awaits: seq<Await>) {
    forall a | a in awaits :: a.target.TheWork? && a.waiter < a.target.work < |q.works|
  }

  ghost predicate DbInv(s: Db) {
    && QueueInv(s.queue)
    && AwaitsOk(s.queue, s.awaits)
    && LogOk(s.queue, s.log)
    && AllIn(s.committed, s.log)
    && AllIn(s.uncommitted, s.log)
    && (s.open.Some? ==> s.open.value < |s.queue.turns| && s.queue.turns[s.open.value].started)
    && (s.open.None? ==> s.uncommitted == [])
  }

  lemma StepKeepsDbInv(s: Db, e: Event)
    requires DbInv(s) && Enabled(s, e)
    ensures DbInv(Apply(s, e))
  {
    match e
    case Call(from, waiter) =>
      EnqueueKeepsInv(s.queue, from);
      if waiter.Some? { RunningWorkIsHeld(s.queue, waiter.value); }
    case Start(t) => StartKeepsInv(s.queue, t);
    case Finish(w) => SettleKeepsInv(s.queue, w);
    case Exec(w, stmt) =>
      NobodyIsAhead(s, w);
      ExecuteKeepsDbInv(s, Entry(s.queue.works[w].turn, stmt));
  }

  /** The turn of a running work is the latest one that has logged anything. */
  lemma NobodyIsAhead(s: Db, w: nat)
    requires DbInv(s) && IsRunning(s.queue, w)
    ensures s.queue.turns[s.queue.works[w].turn].started
    ensures forall i | 0 <= i < |s.log| :: s.log[i].turn <= s.queue.works[w].turn
  {
    RunningWorkIsHeld(s.queue, w);
    forall i | 0 <= i < |s.log| ensures s.log[i].turn <= s.queue.works[w].turn {
      if s.log[i].turn > s.queue.works[w].turn {
        EarlierTurnsReleased(s.queue, s.log[i].turn, s.queue.works[w].turn);
      }
    }
  }

  lemma AllInGrown(entries: seq<Entry>, log: seq<Entry>, e: Entry)
    requires AllIn(entries, log)
    ensures AllIn(entries, log + [e]) && AllIn(entries + [e], log + [e])
  {
  }

  lemma AllInJoined(xs: seq<Entry>, ys: seq<Entry>, log: seq<Entry>)
    requires AllIn(xs, log) && AllIn(ys, log)
    ensures AllIn(xs + ys, log)
  {
  }

  lemma LogGrown(q: Queue, log: seq<Entry>, e: Entry)
    requires LogOk(q, log) && e.turn < |q.turns| && q.turns[e.turn].started
    requires forall i | 0 <= i < |log| :: log[i].turn <= e.turn
    ensures LogOk(q, log + [e])
  {
  }

  lemma ExecuteKeepsDbInv(s: Db, e: Entry)
    requires DbInv(s) && e.turn < |s.queue.turns| && s.queue.turns[e.turn].started
    requires forall i | 0 <= i < |s.log| :: s.log[i].turn <= e.turn
    ensures DbInv(Execute(s, e))
  {
    LogGrown(s.queue, s.log, e);
    AllInGrown(s.committed, s.log, e);
    AllInGrown(s.uncommitted, s.log, e);
    AllInJoined(s.committed, s.uncommitted, s.log + [e]);
    var s' := Execute(s, e);
    assert s'.queue == s.queue && s'.log == s.log + [e];
    assert AllIn(s'.committed, s'.log) && AllIn(s'.uncommitted, s'.log);
  }
}
