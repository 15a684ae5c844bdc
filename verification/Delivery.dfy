/** Ordered delivery with backpressure (agent-session-delivery.ts): output waiting behind a slow request is combined, but
    never across a state change. */
module Delivery {
  import opened Wrappers

  const MAX_BATCH_EVENTS: nat := 128
  const MAX_BATCH_BYTES: nat := 512 * 1024

  /** A batch as a value; `parts` counts the calls of enqueue whose output it holds. */
  datatype BatchView<E, S> = BatchView(events: seq<E>, state: Option<S>, bytes: nat, parts: nat)

  /** Delivery as values: `handed` is everything handed to send so far, in order. */
  datatype View<E, S> = View(
    handed: seq<BatchView<E, S>>, inFlight: Option<BatchView<E, S>>, pending: seq<BatchView<E, S>>, draining: bool)

  datatype Op<E, S> = Enqueue(events: seq<E>, state: Option<S>, bytes: nat) | Next | Settle | Throw

  predicate Fits<E, S>(tail: BatchView<E, S>, events: seq<E>, state: Option<S>, bytes: nat) {
    && tail.state.None? && state.None?
    && |tail.events| + |events| <= MAX_BATCH_EVENTS
    && tail.bytes + bytes <= MAX_BATCH_BYTES
  }

  function OnEnqueue<E, S>(v: View<E, S>, events: seq<E>, state: Option<S>, bytes: nat): View<E, S> {
    if events == [] && state.None? then v
    else
      var n := |v.pending|;
      if n > 0 && Fits(v.pending[n - 1], events, state, bytes) then
        var tail := v.pending[n - 1];
        var merged := BatchView(tail.events + events, tail.state, tail.bytes + bytes, tail.parts + 1);
        v.(pending := v.pending[..n - 1] + [merged], draining := true)
      else
        v.(pending := v.pending + [BatchView(events, state, bytes, 1)], draining := true)
  }

  lemma MergingIsOnEnqueue<E, S>(v: View<E, S>, events: seq<E>, state: Option<S>, bytes: nat)
    requires |v.pending| > 0 && Fits(v.pending[|v.pending| - 1], events, state, bytes) && events != []
    ensures var tail := v.pending[|v.pending| - 1];
            OnEnqueue(v, events, state, bytes) ==
            v.(pending := v.pending[..|v.pending| - 1]
                          + [BatchView(tail.events + events, tail.state, tail.bytes + bytes, tail.parts + 1)],
               draining := true)
  {
  }

  lemma QueueingIsOnEnqueue<E, S>(v: View<E, S>, events: seq<E>, state: Option<S>, bytes: nat)
    requires events != [] || state.Some?
    requires |v.pending| == 0 || !Fits(v.pending[|v.pending| - 1], events, state, bytes)
    ensures OnEnqueue(v, events, state, bytes) ==
            v.(pending := v.pending + [BatchView(events, state, bytes, 1)], draining := true)
  {
  }

  /** One turn of the drain loop: hand the first waiting batch to send, or stop when none waits. */
  function OnNext<E, S>(v: View<E, S>): View<E, S> {
    if v.pending == [] then v.(draining := false)
    else v.(handed := v.handed + [v.pending[0]], inFlight := Some(v.pending[0]), pending := v.pending[1..])
  }

  predicate Enabled<E, S>(v: View<E, S>, op: Op<E, S>) {
    match op
    case Enqueue(_, _, _) => true
    case Next => v.draining && v.inFlight.None?
    case Settle => v.inFlight.Some?
    case Throw => v.inFlight.Some?
  }

  /** `Settle`: the request settled, delivered or not. `Throw`: send threw synchronously, and the loop's `finally` ran. */
  function Apply<E, S>(v: View<E, S>, op: Op<E, S>): View<E, S> {
    match op
    case Enqueue(events, state, bytes) => OnEnqueue(v, events, state, bytes)
    case Next => OnNext(v)
    case Settle => v.(inFlight := None)
    case Throw => v.(inFlight := None, draining := false)
  }

  // ---------------------------------------------------------------- the objects

  class Batch<E, S> {
    var events: seq<E>
    const state: Option<S>
    var bytes: nat
    ghost var parts: nat

    constructor (events: seq<E>, state: Option<S>, bytes: nat)
      ensures View() == BatchView(events, state, bytes, 1)
    {
      this.events, this.state, this.bytes, this.parts := events, state, bytes, 1;
    }

    ghost function View(): BatchView<E, S> reads this { BatchView(events, state, bytes, parts) }
  }

  class AgentSessionDelivery<E(==), S(==)> {
    var pending: seq<Batch<E, S>>
    var draining: bool
    var inFlight: Batch?<E, S>
    ghost var handed: seq<Batch<E, S>>

    ghost function Batches(): set<Batch<E, S>> reads this { (set b | b in pending) + (set b | b in handed) }

    ghost function Views(batches: seq<Batch<E, S>>): seq<BatchView<E, S>>
      reads batches
    {
      seq(|batches|, i reads batches requires 0 <= i < |batches| => batches[i].View())
    }

    ghost function Model(): View<E, S>
      reads this, Batches()
      requires inFlight != null ==> inFlight in handed
    {
      View(Views(handed), if inFlight == null then None else Some(inFlight.View()), Views(pending), draining)
    }

    /** No two places share a batch object, so what is handed over is never written again. */
    ghost predicate Valid()
      reads this, Batches()
    {
      && (forall i, j | 0 <= i < j < |pending| :: pending[i] != pending[j])
      && (forall b | b in pending :: b !in handed)
      && (inFlight != null ==> inFlight in handed)
    }

    constructor ()
      ensures Valid() && Model() == View([], None, [], false)
    {
      pending, handed := [], [];
      draining := false;
      inFlight := null;
    }

    /** The last waiting batch grows in place. */
    method AppendToTail(events: seq<E>, bytes: nat)
      requires Valid() && |pending| > 0
      modifies pending[|pending| - 1]
      ensures Valid() && Views(handed) == old(Views(handed))
      ensures inFlight != null ==> inFlight.View() == old(inFlight.View())
      ensures Views(pending) ==
              var tail := old(pending[|pending| - 1].View());
              old(Views(pending))[..|pending| - 1]
              + [BatchView(tail.events + events, tail.state, tail.bytes + bytes, tail.parts + 1)]
    {
      var tail := pending[|pending| - 1];
      assert tail in pending && tail !in handed;
      tail.events := tail.events + events;
      tail.bytes := tail.bytes + bytes;
      tail.parts := tail.parts + 1;
    }

    method QueueBatch(events: seq<E>, state: Option<S>, bytes: nat)
      requires Valid()
      modifies this`pending
      ensures Valid() && Views(handed) == old(Views(handed))
      ensures inFlight != null ==> inFlight.View() == old(inFlight.View())
      ensures Views(pending) == old(Views(pending)) + [BatchView(events, state, bytes, 1)]
    {
      var batch := new Batch(events, state, bytes);
      pending := pending + [batch];
    }

    /** Appends to the last waiting batch in place, or queues a new one; batches already handed to send stay as they are. */
    method Enqueue(events: seq<E>, state: Option<S>, bytes: nat)
      requires Valid()
      modifies this`pending, this`draining, set b | b in pending
      ensures Valid() && Model() == old(OnEnqueue(Model(), events, state, bytes))
    {
      if events == [] && state == None {
        return;
      }
      ghost var before := Model();
      var n := |pending|;
      assert |before.pending| == n && (n > 0 ==> before.pending[n - 1] == pending[n - 1].View());
      if n > 0 && pending[n - 1].state.None? && state.None?
         && |pending[n - 1].events| + |events| <= MAX_BATCH_EVENTS && pending[n - 1].bytes + bytes <= MAX_BATCH_BYTES
      {
        AppendToTail(events, bytes);
        MergingIsOnEnqueue(before, events, state, bytes);
      } else {
        QueueBatch(events, state, bytes);
        QueueingIsOnEnqueue(before, events, state, bytes);
      }
      if !draining {
        draining := true;
      }
    }

    method DrainNext() returns (batch: Batch?<E, S>)
      requires Valid() && draining && inFlight == null
      modifies this
      ensures Valid() && Model() == old(OnNext(Model()))
      ensures batch == inFlight
    {
      if |pending| == 0 {
        draining := false;
        batch := null;
      } else {
        batch := pending[0];
        inFlight, pending := batch, pending[1..];
        handed := handed + [batch];
        assert Views(pending) == old(Views(pending))[1..];
        assert Views(handed) == old(Views(handed)) + [batch.View()];
      }
    }

    method SendSettled()
      requires Valid() && inFlight != null
      modifies this
      ensures Valid() && Model() == old(Apply(Model(), Settle))
    {
      inFlight := null;
      assert Views(handed) == old(Views(handed)) && Views(pending) == old(Views(pending));
    }

    method SendThrew()
      requires Valid() && inFlight != null
      modifies this
      ensures Valid() && Model() == old(Apply(Model(), Throw))
    {
      inFlight := null;
      draining := false;
      assert Views(handed) == old(Views(handed)) && Views(pending) == old(Views(pending));
    }
  }

  // ---------------------------------------------------------------- conservation, over all runs

  datatype Item<E, S> = Event(e: E) | State(s: S)

  /** Events, then the state change that closes them. */
  function Items<E, S>(events: seq<E>, state: Option<S>): seq<Item<E, S>> {
    seq(|events|, i requires 0 <= i < |events| => Event(events[i])) + if state.Some? then [State(state.value)] else []
  }

  function Flatten<E, S>(batches: seq<BatchView<E, S>>): seq<Item<E, S>> {
    if batches == [] then []
    else Flatten(batches[..|batches| - 1]) + Items(batches[|batches| - 1].events, batches[|batches| - 1].state)
  }

  /** Everything the operations asked to deliver, in order. */
  function Asked<E, S>(ops: seq<Op<E, S>>): seq<Item<E, S>> {
    if ops == [] then []
    else
      var last := ops[|ops| - 1];
      Asked(ops[..|ops| - 1]) + if last.Enqueue? then Items(last.events, last.state) else []
  }

  function Idle<E, S>(): View<E, S> { View([], None, [], false) }

  /** The state after the operations, if each was possible. */
  function After<E, S>(ops: seq<Op<E, S>>): Option<View<E, S>> {
    if ops == [] then Some(Idle())
    else
      var before := After(ops[..|ops| - 1]);
      if before.Some? && Enabled(before.value, ops[|ops| - 1]) then Some(Apply(before.value, ops[|ops| - 1])) else None
  }

  /** A batch over the limits came from a single enqueue; one that combines several carries no state; none is empty. */
  predicate WithinLimits<E, S>(b: BatchView<E, S>) {
    && (b.parts != 1 ==> |b.events| <= 128 && b.bytes <= 524_288 && b.state.None?)
    && b.parts > 0 && (b.events != [] || b.state.Some?)
  }

  ghost predicate Sound<E, S>(v: View<E, S>) {
    && (forall b | b in v.pending :: WithinLimits(b))
    && (forall b | b in v.handed :: WithinLimits(b))
    && (v.inFlight.Some? ==> v.draining && |v.handed| > 0 && v.inFlight.value == v.handed[|v.handed| - 1])
  }

  lemma {:induction false} FlattenJoin<E, S>(a: seq<BatchView<E, S>>, b: seq<BatchView<E, S>>)
    ensures Flatten(a + b) == Flatten(a) + Flatten(b)
  {
    if b == [] {
      assert a + b == a;
    } else {
      var front, last := b[..|b| - 1], b[|b| - 1];
      assert (a + b)[..|a + b| - 1] == a + front && (a + b)[|a + b| - 1] == last;
      FlattenJoin(a, front);
      var items := Items(last.events, last.state);
      assert Flatten(a + b) == Flatten(a + front) + items;
      assert (Flatten(a) + Flatten(front)) + items == Flatten(a) + (Flatten(front) + items);
    }
  }

  lemma FlattenOne<E, S>(b: BatchView<E, S>)
    ensures Flatten([b]) == Items(b.events, b.state)
  {
    assert [b][..0] == [];
    assert Flatten([b][..0]) == [];
  }

  lemma EnqueueConserves<E, S>(v: View<E, S>, events: seq<E>, state: Option<S>, bytes: nat)
    ensures Flatten(OnEnqueue(v, events, state, bytes).pending) == Flatten(v.pending) + Items(events, state)
  {
    var n := |v.pending|;
    if events == [] && state.None? {
      assert Items(events, state) == [];
    } else if n > 0 && Fits(v.pending[n - 1], events, state, bytes) {
      var tail := v.pending[n - 1];
      var merged := BatchView(tail.events + events, tail.state, tail.bytes + bytes, tail.parts + 1);
      FlattenJoin(v.pending[..n - 1], [merged]);
      FlattenOne(merged);
      assert Items(merged.events, merged.state) == Items(tail.events, tail.state) + Items(events, state);
    } else {
      FlattenJoin(v.pending, [BatchView(events, state, bytes, 1)]);
      FlattenOne(BatchView(events, state, bytes, 1));
    }
  }

  lemma NextConserves<E, S>(v: View<E, S>)
    ensures Flatten(OnNext(v).handed) + Flatten(OnNext(v).pending) == Flatten(v.handed) + Flatten(v.pending)
  {
    if v.pending != [] {
      assert v.pending == [v.pending[0]] + v.pending[1..];
      FlattenJoin([v.pending[0]], v.pending[1..]);
      FlattenJoin(v.handed, [v.pending[0]]);
    }
  }

  lemma StepKeepsSound<E, S>(v: View<E, S>, op: Op<E, S>)
    requires Sound(v) && Enabled(v, op)
    ensures Sound(Apply(v, op))
  {
  }

  lemma Regrouped<T>(a: seq<T>, b: seq<T>, c: seq<T>)
    ensures a + (b + c) == a + b + c && a + b + [] == a + b
  {
  }

  /** What an operation adds to what has been asked for. */
  function Brought<E, S>(op: Op<E, S>): seq<Item<E, S>> { if op.Enqueue? then Items(op.events, op.state) else [] }

  lemma StepConserves<E, S>(v: View<E, S>, op: Op<E, S>)
    requires Enabled(v, op)
    ensures Flatten(Apply(v, op).handed) + Flatten(Apply(v, op).pending) == Flatten(v.handed) + Flatten(v.pending) + Brought(op)
  {
    Regrouped(Flatten(v.handed), Flatten(v.pending), Brought(op));
    match op
    case Enqueue(events, state, bytes) => EnqueueConserves(v, events, state, bytes);
    case Next => NextConserves(v);
    case _ =>
  }

  /** In every run, what was handed to send (the last of it perhaps in flight) followed by what still waits is exactly what
      enqueue was asked to deliver, in order, each state change after the events enqueued with it; batches over the
      limits came from one enqueue, and no batch combines output across a state change. */
  lemma {:induction false} DeliveryConserves<E, S>(ops: seq<Op<E, S>>)
    requires After(ops).Some?
    ensures Flatten(After(ops).value.handed) + Flatten(After(ops).value.pending) == Asked(ops)
    ensures Sound(After(ops).value)
  {
    if ops != [] {
      var front, op := ops[..|ops| - 1], ops[|ops| - 1];
      DeliveryConserves(front);
      var v := After(front).value;
      StepKeepsSound(v, op);
      StepConserves(v, op);
    }
  }

  // ---------------------------------------------------------------- output is combined wherever it may be

  /** Two neighbours that could not have been one batch: a state change is between or behind them, or together they are
      over a limit. */
  predicate Apart<E, S>(b: BatchView<E, S>, next: BatchView<E, S>) {
    || b.state.Some? || next.state.Some?
    || |b.events| + |next.events| > 128
    || b.bytes + next.bytes > 524_288
  }

  ghost predicate Maximal<E, S>(pending: seq<BatchView<E, S>>) {
    forall i | 0 <= i < |pending| - 1 :: Apart(pending[i], pending[i + 1])
  }

  lemma EnqueueKeepsMaximal<E, S>(v: View<E, S>, events: seq<E>, state: Option<S>, bytes: nat)
    requires Maximal(v.pending)
    ensures Maximal(OnEnqueue(v, events, state, bytes).pending)
  {
    var n, after := |v.pending|, OnEnqueue(v, events, state, bytes).pending;
    forall i | 0 <= i < |after| - 1 ensures Apart(after[i], after[i + 1]) {
      if i < n - 1 { assert Apart(v.pending[i], v.pending[i + 1]); }
    }
  }

  /** In every run the waiting batches are as few as the rules allow: no two neighbours could have been combined. */
  lemma {:induction false} WaitingBatchesAreMaximal<E, S>(ops: seq<Op<E, S>>)
    requires After(ops).Some?
    ensures Maximal(After(ops).value.pending)
  {
    if ops != [] {
      var front, op := ops[..|ops| - 1], ops[|ops| - 1];
      WaitingBatchesAreMaximal(front);
      var v := After(front).value;
      if op.Enqueue? { EnqueueKeepsMaximal(v, op.events, op.state, op.bytes); }
    }
  }

  // ---------------------------------------------------------------- the drainer

  /** What waits has a drainer that will come to it. */
  predicate Attended<E, S>(v: View<E, S>) { v.pending != [] ==> v.draining }

  lemma AttendedUnlessSendThrows<E, S>(v: View<E, S>, op: Op<E, S>)
    requires Attended(v) && Enabled(v, op)
    ensures Attended(Apply(v, op)) <==> !(op.Throw? && v.pending != [])
  {
  }

  /** A call of enqueue that brings something. */
  predicate Brings<E, S>(op: Op<E, S>) { op.Enqueue? && (op.events != [] || op.state.Some?) }

  /** Operation `i` throws while batches wait, and no later call of enqueue brings anything. */
  ghost predicate Strands<E, S>(ops: seq<Op<E, S>>, i: nat) {
    && i < |ops| && ops[i].Throw?
    && After(ops[..i]).Some? && After(ops[..i]).value.pending != []
    && forall j | i < j < |ops| :: !Brings(ops[j])
  }

  /** Once output is stranded, only a call of enqueue that brings something changes anything. */
  lemma StrandedStays<E, S>(v: View<E, S>, op: Op<E, S>)
    requires Sound(v) && !Attended(v) && Enabled(v, op)
    ensures if Brings(op) then Attended(Apply(v, op)) else Apply(v, op) == v
  {
  }

  lemma StrandsGrows<E, S>(front: seq<Op<E, S>>, op: Op<E, S>, i: nat)
    requires i < |front|
    ensures Strands(front + [op], i) <==> Strands(front, i) && !Brings(op)
  {
    var ops := front + [op];
    assert ops[..i] == front[..i];
    assert ops[|front|] == op && forall j | i < j < |front| :: ops[j] == front[j];
  }

  lemma StrandsLast<E, S>(front: seq<Op<E, S>>, op: Op<E, S>)
    requires After(front).Some?
    ensures Strands(front + [op], |front|) <==> op.Throw? && After(front).value.pending != []
  {
    assert (front + [op])[..|front|] == front;
  }

  /** The exact condition, over all runs: waiting output has no drainer if and only if at some time send threw
      synchronously while batches waited and no call of enqueue has brought anything since. */
  lemma {:induction false} UnattendedExactlyAfterThrow<E, S>(ops: seq<Op<E, S>>)
    requires After(ops).Some?
    ensures !Attended(After(ops).value) <==> exists i: nat :: Strands(ops, i)
  {
    if ops != [] {
      var n := |ops| - 1;
      var front, op := ops[..n], ops[n];
      assert ops == front + [op];
      UnattendedExactlyAfterThrow(front);
      DeliveryConserves(front);
      var v := After(front).value;
      forall i: nat | i < n ensures Strands(ops, i) <==> Strands(front, i) && !Brings(op) { StrandsGrows(front, op, i); }
      StrandsLast(front, op);
      if Attended(v) {
        AttendedUnlessSendThrows(v, op);
      } else {
        StrandedStays(v, op);
      }
    }
  }

  /** Such runs exist: two batches wait, and send throws on the first. */
  lemma OutputCanBeStranded<E, S>(e: E) returns (ops: seq<Op<E, S>>)
    ensures After(ops).Some? && !Attended(After(ops).value)
  {
    var big, small := Enqueue([e], None, MAX_BATCH_BYTES + 1), Enqueue([e], None, 0);
    var v1: View<E, S> := Apply(Idle(), big);
    var v2: View<E, S> := Apply(v1, small);
    ops := [big, small, Next, Throw];
    assert ops[..3][..2][..1][..0] == [] && ops[..3][..2][..1] == [big] && ops[..3][..2] == [big, small];
    assert ops[..3] == [big, small, Next];
    assert After(ops[..3][..2][..1]) == Some(v1);
    assert After(ops[..3][..2]) == Some(v2);
    assert |v2.pending| == 2;
  }

  /** In a run in which send never throws synchronously, waiting output always has a drainer. */
  lemma {:induction false} AttendedInRunsWithoutThrow<E, S>(ops: seq<Op<E, S>>)
    requires After(ops).Some? && forall i | 0 <= i < |ops| :: !ops[i].Throw?
    ensures Attended(After(ops).value)
  {
    if ops != [] {
      AttendedInRunsWithoutThrow(ops[..|ops| - 1]);
      AttendedUnlessSendThrows(After(ops[..|ops| - 1]).value, ops[|ops| - 1]);
    }
  }
}
