/** Bounded history: the lazily compacted window of agent-session-history.ts, the newest-first byte fit, and the window
    with its omission notice as agent-session-store.ts builds and refits it. */
module History {
  import opened Wrappers

  /** How many of `total` items a window of `limit` has let go (all of them when the limit is not positive). */
  function OffsetOf(total: nat, limit: int): (offset: nat)
    ensures offset <= total
  {
    if limit <= 0 then total else if total <= limit then 0 else total - limit
  }

  /** The last `limit` items of `all`. */
  function LastOf<T>(all: seq<T>, limit: int): (last: seq<T>)
    ensures |last| == |all| - OffsetOf(|all|, limit)
  {
    all[OffsetOf(|all|, limit)..]
  }

  /** `copied` counts the items moved by compactions, and `all` remembers every item pushed. */
  class BoundedHistory<T> {
    const limit: int
    var items: seq<T>
    var start: nat
    var total: nat
    ghost var all: seq<T>
    ghost var copied: nat

    ghost predicate Valid()
      reads this
    {
      && total == |all|
      && (limit <= 0 ==> items == [] && start == 0)
      && (limit > 0 ==> start < limit)
      && start <= |items|
      && items[start..] == LastOf(all, limit)
      && (start > 0 ==> |items| == limit + start)
      && copied + start <= total
    }

    constructor (limit: int)
      ensures Valid() && all == [] && this.limit == limit
    {
      this.limit := limit;
      items, start, total := [], 0, 0;
      all, copied := [], 0;
    }

    /** Fewer than 2 * limit items are stored, and all compactions together have moved no more items than were pushed. */
    method Push(item: T)
      requires Valid()
      modifies this
      ensures Valid() && all == old(all) + [item]
      ensures limit > 0 ==> |items| < 2 * limit
      ensures copied <= total
    {
      total := total + 1;
      all := all + [item];
      if limit <= 0 {
        return;
      }
      items := items + [item];
      if |items| > limit {
        start := start + 1;
        assert items[start..] == LastOf(all, limit);
        if start >= limit {
          items := items[start..];
          copied := copied + |items|;
          start := 0;
        }
      }
    }

    method Items() returns (kept: seq<T>)
      requires Valid()
      ensures kept == LastOf(all, limit)
    {
      kept := if start > 0 then items[start..] else items;
    }

    /** The number of items no longer kept: the absolute index of the first one kept. */
    method Offset() returns (offset: nat)
      requires Valid()
      ensures offset == OffsetOf(|all|, limit)
    {
      assert |items[start..]| == |items| - start;
      offset := total - (|items| - start);
    }
  }

  // ---------------------------------------------------------------- the byte fit

  function Sum(sizes: seq<nat>): nat {
    if sizes == [] then 0 else sizes[0] + Sum(sizes[1..])
  }

  /** `k` is where the kept suffix begins: the longest one within `maxBytes`, or just the last event when even that is
      too big. */
  ghost predicate IsFit(sizes: seq<nat>, maxBytes: int, k: nat) {
    && k <= |sizes|
    && (sizes == [] ==> k == 0)
    && (sizes != [] ==>
          && k < |sizes|
          && (Sum(sizes[k..]) <= maxBytes || k == |sizes| - 1)
          && (k > 0 ==> Sum(sizes[k - 1..]) > maxBytes))
  }

  lemma {:induction false} LongerSuffixIsLarger(sizes: seq<nat>, i: nat, j: nat)
    requires i <= j <= |sizes|
    ensures Sum(sizes[j..]) <= Sum(sizes[i..])
    decreases j - i
  {
    if i < j {
      assert sizes[i..][1..] == sizes[i + 1..];
      LongerSuffixIsLarger(sizes, i + 1, j);
    }
  }

  lemma FitIsUnique(sizes: seq<nat>, maxBytes: int, j: nat, k: nat)
    requires IsFit(sizes, maxBytes, j) && IsFit(sizes, maxBytes, k)
    ensures j == k
  {
    if j < k { LongerSuffixIsLarger(sizes, j, k - 1); }
    if k < j { LongerSuffixIsLarger(sizes, k, j - 1); }
  }

  function Sizes<E>(events: seq<E>, size: E -> nat): (r: seq<nat>)
    ensures |r| == |events|
  {
    seq(|events|, i requires 0 <= i < |events| => size(events[i]))
  }

  /** fitHistoryBytes, newest first. `size` is the serialised length of an event plus one. */
  method FitHistoryBytes<E>(events: seq<E>, maxBytes: int, size: E -> nat) returns (kept: seq<E>)
    ensures |kept| <= |events| && kept == events[|events| - |kept|..]
    ensures IsFit(Sizes(events, size), maxBytes, |events| - |kept|)
  {
    ghost var sizes := Sizes(events, size);
    var total := 0;
    var first := |events|;
    var i := |events|;
    while i > 0
      invariant 0 <= i == first <= |events|
      invariant total == Sum(sizes[first..])
      invariant first < |events| - 1 ==> total <= maxBytes
    {
      var next := size(events[i - 1]);
      assert sizes[i - 1..][1..] == sizes[i..] && sizes[i - 1..][0] == next;
      if total + next > maxBytes && first < |events| {
        break;
      }
      total := total + next;
      first := i - 1;
      i := i - 1;
      if total > maxBytes {
        break;
      }
    }
    assert first > 0 ==> sizes[first - 1..][1..] == sizes[first..] && sizes[first - 1..][0] == sizes[first - 1];
    kept := events[first..];
  }

  lemma {:induction false} FitExists(sizes: seq<nat>, maxBytes: int) returns (k: nat)
    ensures IsFit(sizes, maxBytes, k)
  {
    if |sizes| <= 1 || Sum(sizes) <= maxBytes {
      assert sizes[0..] == sizes;
      k := 0;
    } else {
      var k' := FitExists(sizes[1..], maxBytes);
      assert sizes[1..][k'..] == sizes[k' + 1..];
      assert k' > 0 ==> sizes[1..][k' - 1..] == sizes[k'..];
      assert sizes[0..] == sizes;
      k := k' + 1;
    }
  }

  /** Where the byte fit begins. */
  ghost function FitStart(sizes: seq<nat>, maxBytes: int): (k: nat)
    ensures k <= |sizes|
  {
    assert exists k: nat :: IsFit(sizes, maxBytes, k) by { var k := FitExists(sizes, maxBytes); }
    var k :| IsFit(sizes, maxBytes, k);
    k
  }

  /** Fitting a fitted list again is fitting once at the smaller limit. */
  lemma FitTwice(sizes: seq<nat>, m1: int, m2: int)
    ensures FitStart(sizes, m1) <= |sizes|
    ensures FitStart(sizes, m1) + FitStart(sizes[FitStart(sizes, m1)..], m2) ==
            FitStart(sizes, if m1 <= m2 then m1 else m2)
  {
    var k1 := FitStart(sizes, m1);
    var rest := sizes[k1..];
    var k2 := FitStart(rest, m2);
    var m := if m1 <= m2 then m1 else m2;
    assert rest[k2..] == sizes[k1 + k2..];
    assert k2 > 0 ==> rest[k2 - 1..] == sizes[k1 + k2 - 1..];
    LongerSuffixIsLarger(sizes, k1, k1 + k2);
    FitIsUnique(sizes, m, k1 + k2, FitStart(sizes, m));
  }

  lemma SomethingKept(sizes: seq<nat>, maxBytes: int)
    ensures FitStart(sizes, maxBytes) <= |sizes|
    ensures FitStart(sizes, maxBytes) == |sizes| <==> sizes == []
  {
  }

  // ---------------------------------------------------------------- the window and its notice

  datatype EventId = Named(name: string) | Positional(session: string, at: nat) | TruncationNotice(session: string)

  datatype Payload = Recorded(text: string) | Omitted(count: nat)

  datatype HistoryEvent = HistoryEvent(id: EventId, seqNo: nat, payload: Payload, createdAt: string)

  datatype Window = Window(events: seq<HistoryEvent>, truncated: bool, omitted: nat)

  function Notice(session: string, omitted: nat, createdAt: string): HistoryEvent {
    HistoryEvent(TruncationNotice(session), 0, Omitted(omitted), createdAt)
  }

  ghost function FitWindow(
    session: string, events: seq<HistoryEvent>, omittedBefore: nat, maxBytes: int, now: string, size: HistoryEvent -> nat): Window
  {
    var k := FitStart(Sizes(events, size), maxBytes);
    Presented(session, events[k..], omittedBefore + k, now)
  }

  /** What is kept, under a notice if anything was omitted. */
  function Presented(session: string, kept: seq<HistoryEvent>, omitted: nat, now: string): Window {
    var notice := Notice(session, omitted, if kept != [] then kept[0].createdAt else now);
    Window(if omitted > 0 then [notice] + kept else kept, omitted > 0, omitted)
  }

  lemma OnlyALoneNoticeCarriesTheClock(session: string, kept: seq<HistoryEvent>, omitted: nat, now1: string, now2: string)
    ensures Presented(session, kept, omitted, now1) == Presented(session, kept, omitted, now2)
            <==> kept != [] || omitted == 0 || now1 == now2
  {
    if kept == [] && omitted > 0 {
      assert Presented(session, kept, omitted, now1).events[0].createdAt == now1;
      assert Presented(session, kept, omitted, now2).events[0].createdAt == now2;
    }
  }

  /** fitHistoryWindow: fit, count what was dropped, and put the notice in front. */
  method FitHistoryWindow(
    session: string, events: seq<HistoryEvent>, omittedBefore: nat, maxBytes: int, now: string, size: HistoryEvent -> nat)
    returns (w: Window)
    ensures w == FitWindow(session, events, omittedBefore, maxBytes, now, size)
  {
    var kept := FitHistoryBytes(events, maxBytes, size);
    FitIsUnique(Sizes(events, size), maxBytes, |events| - |kept|, FitStart(Sizes(events, size), maxBytes));
    var omitted := omittedBefore + (|events| - |kept|);
    if omitted > 0 {
      var createdAt := if kept != [] then kept[0].createdAt else now;
      kept := [Notice(session, omitted, createdAt)] + kept;
    }
    w := Window(kept, omitted > 0, omitted);
  }

  /** The events of a window without its notice. */
  function Body(w: Window): seq<HistoryEvent> {
    if w.omitted > 0 && |w.events| > 0 then w.events[1..] else w.events
  }

  ghost function Refit(session: string, w: Window, maxBytes: int, now: string, size: HistoryEvent -> nat): Window {
    FitWindow(session, Body(w), w.omitted, maxBytes, now, size)
  }

  lemma SizesOfSuffix<E>(events: seq<E>, size: E -> nat, k: nat)
    requires k <= |events|
    ensures Sizes(events[k..], size) == Sizes(events, size)[k..]
  {
  }

  /** The byte fit of `events` begins at `k` and keeps `kept`. */
  ghost predicate Keeps<E>(events: seq<E>, maxBytes: int, size: E -> nat, k: nat, kept: seq<E>) {
    && k <= |events|
    && k == FitStart(Sizes(events, size), maxBytes)
    && kept == events[k..]
  }

  /** The two fits together keep what the fit at the smaller limit keeps. */
  lemma KeepsTwice<E>(events: seq<E>, m1: int, m2: int, size: E -> nat)
    returns (k1: nat, body: seq<E>, k2: nat, kept: seq<E>)
    ensures Keeps(events, m1, size, k1, body)
    ensures Keeps(body, m2, size, k2, kept)
    ensures Keeps(events, if m1 <= m2 then m1 else m2, size, k1 + k2, kept)
    ensures kept == [] <==> events == []
  {
    var sizes := Sizes(events, size);
    FitTwice(sizes, m1, m2);
    k1 := FitStart(sizes, m1);
    SizesOfSuffix(events, size, k1);
    body := events[k1..];
    k2 := FitStart(sizes[k1..], m2);
    kept := body[k2..];
    SomethingKept(sizes, if m1 <= m2 then m1 else m2);
  }

  lemma WindowOf(session: string, events: seq<HistoryEvent>, omittedBefore: nat, k: nat, kept: seq<HistoryEvent>,
    omitted: nat, maxBytes: int, now: string, size: HistoryEvent -> nat)
    requires Keeps(events, maxBytes, size, k, kept) && omitted == omittedBefore + k
    ensures FitWindow(session, events, omittedBefore, maxBytes, now, size) == Presented(session, kept, omitted, now)
  {
  }

  lemma BodyOfPresented(session: string, kept: seq<HistoryEvent>, omitted: nat, now: string)
    ensures Body(Presented(session, kept, omitted, now)) == kept
    ensures Presented(session, kept, omitted, now).omitted == omitted
  {
  }

  lemma RefitOfPresented(session: string, kept: seq<HistoryEvent>, omitted: nat, now1: string,
    m2: int, now2: string, size: HistoryEvent -> nat)
    ensures Refit(session, Presented(session, kept, omitted, now1), m2, now2, size) ==
            FitWindow(session, kept, omitted, m2, now2, size)
  {
    BodyOfPresented(session, kept, omitted, now1);
  }

  lemma RefitStep(session: string, events: seq<HistoryEvent>, omittedBefore: nat, k1: nat, body: seq<HistoryEvent>,
    k2: nat, kept: seq<HistoryEvent>, omitted: nat, m1: int, m2: int, now1: string, now2: string, size: HistoryEvent -> nat)
    requires Keeps(events, m1, size, k1, body) && Keeps(body, m2, size, k2, kept)
    requires omitted == omittedBefore + k1 + k2
    ensures Refit(session, FitWindow(session, events, omittedBefore, m1, now1, size), m2, now2, size) ==
            Presented(session, kept, omitted, now2)
  {
    var between := omittedBefore + k1;
    WindowOf(session, events, omittedBefore, k1, body, between, m1, now1, size);
    RefitOfPresented(session, body, between, now1, m2, now2, size);
    WindowOf(session, body, between, k2, kept, omitted, m2, now2, size);
  }

  /** What a fit, and what a fit followed by a refit, present. */
  lemma RefitPresents(session: string, events: seq<HistoryEvent>, omittedBefore: nat, m1: int, m2: int,
    now1: string, now2: string, now: string, size: HistoryEvent -> nat)
    returns (omitted: nat, kept: seq<HistoryEvent>)
    ensures Refit(session, FitWindow(session, events, omittedBefore, m1, now1, size), m2, now2, size) ==
            Presented(session, kept, omitted, now2)
    ensures FitWindow(session, events, omittedBefore, if m1 <= m2 then m1 else m2, now, size) ==
            Presented(session, kept, omitted, now)
    ensures kept == [] <==> events == []
    ensures omittedBefore <= omitted <= omittedBefore + |events|
  {
    var k1, body, k2, tail := KeepsTwice(events, m1, m2, size);
    kept, omitted := tail, omittedBefore + k1 + k2;
    RefitStep(session, events, omittedBefore, k1, body, k2, kept, omitted, m1, m2, now1, now2, size);
    WindowOf(session, events, omittedBefore, k1 + k2, kept, omitted, if m1 <= m2 then m1 else m2, now, size);
  }

  /** Refitting a fitted window at a second limit gives what one fit at the smaller limit gives, omitted count and notice
      included, if and only if an event was kept, or nothing was ever omitted, or the clock reads the same: only a notice
      that stands alone carries the time at which it was made. */
  lemma RefitIsFitAtSmallerLimit(
    session: string, events: seq<HistoryEvent>, omittedBefore: nat, m1: int, m2: int,
    now1: string, now2: string, now: string, size: HistoryEvent -> nat)
    ensures Refit(session, FitWindow(session, events, omittedBefore, m1, now1, size), m2, now2, size) ==
            FitWindow(session, events, omittedBefore, if m1 <= m2 then m1 else m2, now, size)
            <==> events != [] || omittedBefore == 0 || now2 == now
  {
    var omitted, kept := RefitPresents(session, events, omittedBefore, m1, m2, now1, now2, now, size);
    OnlyALoneNoticeCarriesTheClock(session, kept, omitted, now2, now);
  }

  // ---------------------------------------------------------------- numbering

  /** readHistory numbers events by absolute position, from 1, and names the unnamed ones after it. */
  function Numbered(session: string, e: HistoryEvent, absolute: nat): HistoryEvent {
    e.(seqNo := absolute, id := if e.id == Named("") then Positional(session, absolute) else e.id)
  }

  function Number(session: string, events: seq<HistoryEvent>, offset: nat): (r: seq<HistoryEvent>)
    ensures |r| == |events|
  {
    seq(|events|, i requires 0 <= i < |events| => Numbered(session, events[i], offset + i + 1))
  }

  /** What readHistory returns for a scan that pushed `all` through a BoundedHistory. */
  ghost function ReadWindow(
    session: string, all: seq<HistoryEvent>, limit: int, maxBytes: int, now: string, size: HistoryEvent -> nat): Window
  {
    var offset := OffsetOf(|all|, limit);
    FitWindow(session, Number(session, LastOf(all, limit), offset), offset, maxBytes, now, size)
  }

  /** `e`, the event at position `at` of the recording, as it is shown: numbered from 1, named after its number if it had no
      name, and otherwise as it was. */
  ghost predicate ShowsAt(session: string, shown: HistoryEvent, e: HistoryEvent, at: nat) {
    && shown.seqNo == at + 1
    && shown.payload == e.payload && shown.createdAt == e.createdAt
    && (e.id != Named("") ==> shown.id == e.id)
    && (e.id == Named("") ==> shown.id == Positional(session, at + 1))
  }

  /** `body` shows the end of `all` from position `from` on. */
  ghost predicate IsNumberedEnd(session: string, all: seq<HistoryEvent>, from: nat, body: seq<HistoryEvent>) {
    && from + |body| == |all|
    && forall j | 0 <= j < |body| :: ShowsAt(session, body[j], all[from + j], from + j)
  }

  lemma NumberedEndShrinks(session: string, all: seq<HistoryEvent>, from: nat, body: seq<HistoryEvent>, k: nat)
    requires IsNumberedEnd(session, all, from, body) && k <= |body|
    ensures IsNumberedEnd(session, all, from + k, body[k..])
  {
  }

  /** A window reads: the events kept, under a notice exactly if any were omitted; the notice has number 0,
      says how many, and carries the time of the first event kept, or of the clock if none was. */
  lemma WindowReads(
    session: string, events: seq<HistoryEvent>, omittedBefore: nat, maxBytes: int, now: string, size: HistoryEvent -> nat)
    ensures var w := FitWindow(session, events, omittedBefore, maxBytes, now, size);
            && w.omitted == omittedBefore + |events| - |Body(w)| && (w.truncated <==> w.omitted > 0)
            && |Body(w)| <= |events| && Body(w) == events[|events| - |Body(w)|..]
            && |w.events| == |Body(w)| + (if w.omitted > 0 then 1 else 0)
            && (w.omitted > 0 ==>
                  && w.events[0].id == TruncationNotice(session) && w.events[0].seqNo == 0
                  && w.events[0].payload == Omitted(w.omitted)
                  && w.events[0].createdAt == if Body(w) == [] then now else Body(w)[0].createdAt)
  {
    var k := FitStart(Sizes(events, size), maxBytes);
    WindowOf(session, events, omittedBefore, k, events[k..], omittedBefore + k, maxBytes, now, size);
    BodyOfPresented(session, events[k..], omittedBefore + k, now);
  }

  /** Every kept event carries its absolute position in the whole recording, the kept ones are its end, and omitted plus
      kept make up the total. */
  lemma KeptEventsKeepTheirPosition(
    session: string, all: seq<HistoryEvent>, limit: int, maxBytes: int, now: string, size: HistoryEvent -> nat)
    ensures var w := ReadWindow(session, all, limit, maxBytes, now, size);
            && IsNumberedEnd(session, all, w.omitted, Body(w))
            && (w.truncated <==> w.omitted > 0)
            && (all != [] && limit > 0 ==> |Body(w)| > 0)
  {
    var offset := OffsetOf(|all|, limit);
    var numbered := Number(session, LastOf(all, limit), offset);
    var k := FitStart(Sizes(numbered, size), maxBytes);
    var kept := numbered[k..];
    WindowOf(session, numbered, offset, k, kept, offset + k, maxBytes, now, size);
    BodyOfPresented(session, kept, offset + k, now);
    NumberedEndShrinks(session, all, offset, numbered, k);
    SomethingKept(Sizes(numbered, size), maxBytes);
  }
}
