/** The watch over long-held turns (watchSqljsTurns of db.ts): times, counts and queue positions. */
module TurnWatch {
  import opened Wrappers

  /** A turn waiting to start, and when it queued. */
  datatype Waiter = Waiter(turn: nat, queuedAt: int)

  datatype Kind = First | FollowUp | AtRelease

  /** One warning about the holder: when, and which waiting turns it newly covers, in queue order; the first `before` of
      them were waiting when the holder started. */
  datatype Report = Report(kind: Kind, at: int, covers: seq<Waiter>, before: nat)

  /** The turn being held and the warnings about it so far. */
  datatype Hold = Hold(turn: nat, startedAt: int, warned: bool, reports: seq<Report>)

  datatype Watch = Watch(
    limit: nat, clock: int, current: Option<Hold>, waiting: seq<Waiter>, alreadyWaiting: nat,
    reported: nat, firstUnreportedAt: Option<int>, lastReportAt: int, repeatDelay: int)

  /** A warning while the turn is held lists the waiting turns; one at its release lists none. */
  function Warning(w: Watch, kind: Kind, now: int): Report {
    if kind.AtRelease? then Report(kind, now, [], 0) else Report(kind, now, w.waiting, w.alreadyWaiting)
  }

  function WarnLongTurn(w: Watch, hold: Hold, kind: Kind, now: int): Watch {
    w.(current := Some(hold.(warned := true, reports := hold.reports + [Warning(w, kind, now)])),
       reported := |w.waiting|,
       lastReportAt := now)
  }

  function OnQueued(w: Watch, turn: nat, now: int): Watch {
    w.(clock := now,
       waiting := w.waiting + [Waiter(turn, now)],
       firstUnreportedAt :=
         if w.current.Some? && w.current.value.warned && w.firstUnreportedAt.None? then Some(now) else w.firstUnreportedAt)
  }

  /** Turns start in queue order. */
  function OnBegin(w: Watch, now: int): Watch
    requires |w.waiting| > 0
  {
    w.(clock := now,
       current := Some(Hold(w.waiting[0].turn, now, false, [])),
       waiting := w.waiting[1..],
       alreadyWaiting := |w.waiting| - 1,
       reported := 0,
       firstUnreportedAt := None,
       repeatDelay := w.limit)
  }

  /** The waiting turns after the first `n`. */
  function Behind(waiting: seq<Waiter>, n: nat): seq<Waiter> { if n <= |waiting| then waiting[n..] else [] }

  function OnTick(w: Watch, now: int): Watch {
    if w.current.None? then w.(clock := now)
    else
      var hold := w.current.value;
      if hold.warned then
        if w.firstUnreportedAt.None? || now - w.firstUnreportedAt.value < w.limit || now - w.lastReportAt < w.repeatDelay
        then w.(clock := now)
        else
          w.(clock := now,
             current := Some(hold.(reports := hold.reports + [Report(FollowUp, now, Behind(w.waiting, w.reported), 0)])),
             reported := |w.waiting|,
             firstUnreportedAt := None,
             lastReportAt := now,
             repeatDelay := w.repeatDelay * 2)
      else if now - hold.startedAt >= w.limit then WarnLongTurn(w, hold, First, now).(clock := now)
      else w.(clock := now)
  }

  datatype Ended = Ended(watch: Watch, hold: Hold)

  /** The release: a long turn that no tick saw is warned about now. */
  function OnEnd(w: Watch, now: int): Ended
    requires w.current.Some?
  {
    var hold := w.current.value;
    var w' :=
      if !hold.warned && now - hold.startedAt >= w.limit then WarnLongTurn(w, hold, AtRelease, now) else w;
    Ended(w'.(clock := now, current := None), w'.current.value)
  }

  // ---------------------------------------------------------------- one hold, from begin to end

  datatype Event = Queue(turn: nat, at: int) | Tick(at: int)

  /** What can happen while one turn is held, on a clock that does not run backwards. */
  ghost predicate Possible(w: Watch, e: Event) { w.current.Some? && e.at >= w.clock }

  function Step(w: Watch, e: Event): Watch {
    match e
    case Queue(turn, at) => OnQueued(w, turn, at)
    case Tick(at) => OnTick(w, at)
  }

  function Pow2(k: nat): nat { if k == 0 then 1 else 2 * Pow2(k - 1) }

  /** The least time between report k and report k + 1. */
  function Delay(limit: nat, k: nat): (d: nat)
    ensures d >= limit
  {
    if k == 0 then limit else 2 * Delay(limit, k - 1)
  }

  lemma {:induction false} DelayDoubles(limit: nat, k: nat)
    ensures Delay(limit, k) == limit * Pow2(k)
  {
    if k > 0 {
      DelayDoubles(limit, k - 1);
      var half := Pow2(k - 1);
      assert limit * (2 * half) == 2 * (limit * half);
    }
  }

  /** All turns covered by the reports, in order. */
  function Covered(reports: seq<Report>): seq<Waiter> {
    if reports == [] then [] else Covered(reports[..|reports| - 1]) + reports[|reports| - 1].covers
  }

  /** Reports about one holder: the first is the first warning, the k-th after it comes no sooner than
      limit * (2^k - 1) = Delay(k) - limit later. */
  ghost predicate BackedOff(limit: nat, reports: seq<Report>) {
    && (forall k | 0 <= k < |reports| :: (k == 0 <==> !reports[k].kind.FollowUp?))
    && (forall k | 0 <= k < |reports| :: reports[k].at - reports[0].at >= Delay(limit, k) - limit)
  }

  ghost predicate HoldInv(w: Watch) {
    && w.current.Some?
    && w.reported <= |w.waiting| && w.alreadyWaiting <= |w.waiting|
    && var hold := w.current.value;
    && hold.startedAt <= w.clock
    && (hold.warned <==> hold.reports != [])
    && BackedOff(w.limit, hold.reports)
    && Covered(hold.reports) == w.waiting[..w.reported]
    && (!hold.warned ==> w.firstUnreportedAt.None? && w.reported == 0 && w.repeatDelay == w.limit)
    && (hold.warned ==> WarnedOk(w, hold))
  }

  /** Behind a warned holder the watch knows when the first uncovered turn queued, when it last warned, and how long to wait
      before it warns again. */
  ghost predicate WarnedOk(w: Watch, hold: Hold)
    requires w.reported <= |w.waiting| && hold.reports != []
  {
    var first, last := hold.reports[0], hold.reports[|hold.reports| - 1];
    && w.firstUnreportedAt == (if w.reported < |w.waiting| then Some(w.waiting[w.reported].queuedAt) else None)
    && first.kind.First? && first.covers <= w.waiting && first.before == w.alreadyWaiting <= |first.covers|
    && first.at - hold.startedAt >= w.limit
    && w.lastReportAt == last.at <= w.clock
    && w.repeatDelay == Delay(w.limit, |hold.reports| - 1)
  }

  lemma CoveredAppend(reports: seq<Report>, r: Report)
    ensures Covered(reports + [r]) == Covered(reports) + r.covers
  {
    assert (reports + [r])[..|reports|] == reports;
  }

  lemma CoveredCounts(w: Watch)
    requires HoldInv(w)
    ensures |Covered(w.current.value.reports)| == w.reported
  {
  }

  /** When a tick at `now` warns: the first time once the turn has been held for the limit; later once the turn that has
      waited longest without being covered has done so for the limit, and the last warning is far enough back. */
  ghost predicate Due(w: Watch, now: int)
    requires w.current.Some?
  {
    var reports := w.current.value.reports;
    if reports == [] then now - w.current.value.startedAt >= w.limit
    else
      && |Covered(reports)| < |w.waiting|
      && now - w.waiting[|Covered(reports)|].queuedAt >= w.limit
      && now - reports[|reports| - 1].at >= Delay(w.limit, |reports| - 1)
  }

  /** The warning a due tick gives. */
  function DueReport(w: Watch, now: int): Report
    requires w.current.Some?
  {
    if w.current.value.warned then Report(FollowUp, now, Behind(w.waiting, w.reported), 0) else Warning(w, First, now)
  }

  lemma TickWarnsWhenDue(w: Watch, now: int)
    requires HoldInv(w)
    ensures OnTick(w, now).current.Some?
    ensures OnTick(w, now).current.value.reports ==
            w.current.value.reports + if Due(w, now) then [DueReport(w, now)] else []
  {
    CoveredCounts(w);
  }

  lemma DueReportCoversTheRest(w: Watch, now: int)
    requires HoldInv(w)
    ensures Covered(w.current.value.reports + [DueReport(w, now)]) == w.waiting
  {
    CoveredAppend(w.current.value.reports, DueReport(w, now));
    assert w.waiting[..w.reported] + w.waiting[w.reported..] == w.waiting;
  }

  /** After a follow-up everything waiting is covered, and the next one is twice as far off. */
  lemma FollowUpKeepsWarnedOk(w: Watch, now: int)
    requires HoldInv(w) && now >= w.clock && w.current.value.warned && Due(w, now)
    ensures OnTick(w, now).current.Some? && OnTick(w, now).reported == |OnTick(w, now).waiting|
    ensures OnTick(w, now).current.value.reports != [] && WarnedOk(OnTick(w, now), OnTick(w, now).current.value)
  {
    CoveredCounts(w);
  }

  lemma FollowUpKeepsHoldInv(w: Watch, now: int)
    requires HoldInv(w) && now >= w.clock && w.current.value.warned && Due(w, now)
    ensures HoldInv(OnTick(w, now))
  {
    FollowUpKeepsWarnedOk(w, now);
    TickWarnsWhenDue(w, now);
    DueReportCoversTheRest(w, now);
    BackOffDoubles(w.limit, w.current.value.reports, DueReport(w, now));
  }

  lemma FirstWarningKeepsHoldInv(w: Watch, now: int)
    requires HoldInv(w) && now >= w.clock && !w.current.value.warned && Due(w, now)
    ensures HoldInv(OnTick(w, now))
  {
    DueReportCoversTheRest(w, now);
    assert w.current.value.reports + [Warning(w, First, now)] == [Warning(w, First, now)];
  }

  lemma TickKeepsHoldInv(w: Watch, now: int)
    requires HoldInv(w) && now >= w.clock
    ensures HoldInv(OnTick(w, now))
  {
    if Due(w, now) {
      if w.current.value.warned { FollowUpKeepsHoldInv(w, now); } else { FirstWarningKeepsHoldInv(w, now); }
    } else {
      CoveredCounts(w);
    }
  }

  lemma BackOffDoubles(limit: nat, reports: seq<Report>, r: Report)
    requires |reports| > 0 && BackedOff(limit, reports) && r.kind.FollowUp?
    requires r.at - reports[|reports| - 1].at >= Delay(limit, |reports| - 1)
    ensures BackedOff(limit, reports + [r])
  {
    forall i | 0 <= i < |reports| ensures (reports + [r])[i] == reports[i] {}
  }

  lemma StepKeepsHoldInv(w: Watch, e: Event)
    requires HoldInv(w) && e.at >= w.clock
    ensures HoldInv(Step(w, e))
  {
    match e
    case Queue(turn, at) => assert (w.waiting + [Waiter(turn, at)])[..w.reported] == w.waiting[..w.reported];
    case Tick(at) => TickKeepsHoldInv(w, at);
  }

  ghost predicate IsHold(w: Watch, es: seq<Event>)
    decreases |es|
  {
    es == [] || (Possible(w, es[0]) && IsHold(Step(w, es[0]), es[1..]))
  }

  ghost function After(w: Watch, es: seq<Event>): Watch
    requires IsHold(w, es)
    decreases |es|
  {
    if es == [] then w else After(Step(w, es[0]), es[1..])
  }

  lemma {:induction false} HoldKeepsInv(w: Watch, es: seq<Event>)
    requires HoldInv(w) && IsHold(w, es)
    ensures HoldInv(After(w, es)) && After(w, es).limit == w.limit
    ensures After(w, es).current.value.turn == w.current.value.turn
    ensures After(w, es).current.value.startedAt == w.current.value.startedAt
    ensures w.waiting <= After(w, es).waiting && After(w, es).alreadyWaiting == w.alreadyWaiting
    decreases |es|
  {
    if es != [] {
      StepKeepsHoldInv(w, es[0]);
      HoldKeepsInv(Step(w, es[0]), es[1..]);
    }
  }

  lemma BeginStartsHold(w: Watch, now: int)
    requires |w.waiting| > 0
    ensures HoldInv(OnBegin(w, now))
  {
  }

  /** At any moment while a turn is held: the warnings so far cover, each waiting turn once and in queue order, exactly
      the front of the queue up to the last warning; nobody queued since a warning is forgotten. The first one sets apart
      exactly the turns that were waiting when the holder started. */
  lemma ReportsTileTheQueue(w: Watch, began: int, es: seq<Event>)
    requires |w.waiting| > 0 && IsHold(OnBegin(w, began), es)
    ensures var s := After(OnBegin(w, began), es);
            && s.current.Some? && s.reported <= |s.waiting|
            && Covered(s.current.value.reports) == s.waiting[..s.reported]
            && (s.current.value.warned ==> (s.firstUnreportedAt.None? <==> s.reported == |s.waiting|))
            && (s.current.value.reports != [] ==>
                  var first := s.current.value.reports[0];
                  first.before <= |first.covers| && first.covers[..first.before] == w.waiting[1..])
  {
    BeginStartsHold(w, began);
    HoldKeepsInv(OnBegin(w, began), es);
  }

  function Firsts(reports: seq<Report>): nat {
    if reports == [] then 0
    else Firsts(reports[..|reports| - 1]) + if reports[|reports| - 1].kind.FollowUp? then 0 else 1
  }

  lemma {:induction false} OneFirst(limit: nat, reports: seq<Report>)
    requires BackedOff(limit, reports)
    ensures Firsts(reports) == if reports == [] then 0 else 1
  {
    if |reports| > 0 {
      var front := reports[..|reports| - 1];
      assert forall k | 0 <= k < |front| :: front[k] == reports[k];
      OneFirst(limit, front);
    }
  }

  lemma EndWarnsOnce(w: Watch, ended: int)
    requires HoldInv(w) && ended >= w.clock
    ensures var hold := OnEnd(w, ended).hold;
            && BackedOff(w.limit, hold.reports)
            && (hold.reports != [] <==> ended - hold.startedAt >= w.limit)
            && (hold.reports != [] ==> Delay(w.limit, |hold.reports| - 1) - w.limit <= ended - hold.startedAt)
  {
    var hold := w.current.value;
    if hold.warned {
      var last := |hold.reports| - 1;
      assert hold.reports[last].at - hold.reports[0].at >= Delay(w.limit, last) - w.limit;
    }
  }

  /** Every turn held for at least the limit, and no other, gets exactly one first warning (while held or at release).
      The k-th follow-up comes at least limit * (2^k - 1) after it, so n follow-ups need a hold of limit * (2^n - 1). */
  lemma LongTurnsAreWarnedOnce(w: Watch, began: int, es: seq<Event>, ended: int)
    requires |w.waiting| > 0 && IsHold(OnBegin(w, began), es) && ended >= After(OnBegin(w, began), es).clock
    ensures After(OnBegin(w, began), es).current.Some?
    ensures var reports := OnEnd(After(OnBegin(w, began), es), ended).hold.reports;
            && Firsts(reports) == (if ended - began >= w.limit then 1 else 0)
            && (reports != [] ==> w.limit * Pow2(|reports| - 1) - w.limit <= ended - began)
            && (forall k | 0 <= k < |reports| :: reports[k].at - reports[0].at >= w.limit * Pow2(k) - w.limit)
  {
    BeginStartsHold(w, began);
    HoldKeepsInv(OnBegin(w, began), es);
    var s := After(OnBegin(w, began), es);
    EndWarnsOnce(s, ended);
    var reports := OnEnd(s, ended).hold.reports;
    OneFirst(w.limit, reports);
    if reports != [] { DelayDoubles(w.limit, |reports| - 1); }
    forall k | 0 <= k < |reports| ensures reports[k].at - reports[0].at >= w.limit * Pow2(k) - w.limit {
      DelayDoubles(w.limit, k);
    }
  }

  // ---------------------------------------------------------------- the watch as an object

  /** `atStart` remembers who was waiting when the held turn started. */
  class TurnWatcher {
    const limit: nat
    var clock: int
    var current: Option<nat>
    var startedAt: int
    var warned: bool
    var waiting: seq<Waiter>
    var alreadyWaiting: nat
    var reported: nat
    var firstUnreportedAt: Option<int>
    var lastReportAt: int
    var repeatDelay: int
    ghost var reports: seq<Report>
    ghost var atStart: seq<Waiter>

    ghost function View(): Watch
      reads this
    {
      Watch(limit, clock, if current.Some? then Some(Hold(current.value, startedAt, warned, reports)) else None,
            waiting, alreadyWaiting, reported, firstUnreportedAt, lastReportAt, repeatDelay)
    }

    ghost predicate Valid()
      reads this
    {
      current.Some? ==> HoldInv(View()) && atStart <= waiting && alreadyWaiting == |atStart|
    }

    constructor (limit: nat)
      ensures Valid() && View() == Watch(limit, 0, None, [], 0, 0, None, 0, limit)
    {
      this.limit := limit;
      clock, startedAt, lastReportAt := 0, 0, 0;
      current, firstUnreportedAt := None, None;
      warned := false;
      waiting, reports, atStart := [], [], [];
      alreadyWaiting, reported := 0, 0;
      repeatDelay := limit;
    }

    /** A turn queues behind all others, covered by no warning yet. */
    method Queued(turn: nat, now: int)
      requires Valid() && now >= clock
      modifies this`clock, this`waiting, this`firstUnreportedAt
      ensures Valid() && clock == now && waiting == old(waiting) + [Waiter(turn, now)]
      ensures View() == old(OnQueued(View(), turn, now))
    {
      if current.Some? { StepKeepsHoldInv(View(), Queue(turn, now)); }
      clock := now;
      waiting := waiting + [Waiter(turn, now)];
      if current.Some? && warned && firstUnreportedAt.None? {
        firstUnreportedAt := Some(now);
      }
    }

    /** The turn that has waited longest becomes the holder, and nothing has been reported about it. */
    method Begin(now: int)
      requires Valid() && current.None? && |waiting| > 0 && now >= clock
      modifies this
      ensures Valid() && clock == startedAt == now && current == Some(old(waiting[0].turn))
      ensures waiting == old(waiting)[1..] == atStart && reports == []
      ensures View() == old(OnBegin(View(), now))
    {
      BeginStartsHold(View(), now);
      current, waiting := Some(waiting[0].turn), waiting[1..];
      atStart := waiting;
      clock, startedAt, warned := now, now, false;
      alreadyWaiting := |waiting|;
      reported := 0;
      firstUnreportedAt := None;
      repeatDelay := limit;
      reports := [];
    }

    /** A due warning covers exactly the waiting turns that no warning about this holder covers yet, the first one setting
        apart those that were waiting before it started. Without one nothing changes but the clock. */
    method Tick(now: int)
      requires Valid() && now >= clock
      modifies this
      ensures Valid() && clock == now && current == old(current) && waiting == old(waiting) && atStart == old(atStart)
      ensures old(current.Some? && Due(View(), now)) ==>
                && |reports| == |old(reports)| + 1 && reports[..|reports| - 1] == old(reports)
                && reports[|reports| - 1].at == now && Covered(reports) == waiting
      ensures old(current.Some? && Due(View(), now) && reports == []) ==>
                reports[0].kind.First? && reports[0].covers == waiting && reports[0].before == |atStart|
      ensures !old(current.Some? && Due(View(), now)) ==> reports == old(reports)
      ensures View() == old(OnTick(View(), now))
    {
      if current.Some? {
        TickKeepsHoldInv(View(), now);
        TickWarnsWhenDue(View(), now);
        DueReportCoversTheRest(View(), now);
      }
      Look(now);
    }

    /** The body of the tick. */
    method Look(now: int)
      modifies this
      ensures View() == old(OnTick(View(), now)) && atStart == old(atStart)
      ensures old(current.None?) ==> reports == old(reports)
    {
      clock := now;
      if current.None? {
        return;
      }
      if warned {
        if firstUnreportedAt.None? || now - firstUnreportedAt.value < limit || now - lastReportAt < repeatDelay {
          return;
        }
        reports := reports + [Report(FollowUp, now, Behind(waiting, reported), 0)];
        reported := |waiting|;
        firstUnreportedAt := None;
        lastReportAt := now;
        repeatDelay := repeatDelay * 2;
      } else if now - startedAt >= limit {
        WarnLong(First, now);
      }
    }

    method WarnLong(kind: Kind, now: int)
      requires current.Some?
      modifies this
      ensures View() == old(WarnLongTurn(View(), View().current.value, kind, now)) && atStart == old(atStart)
    {
      warned := true;
      reports := reports + [Warning(View(), kind, now)];
      reported := |waiting|;
      lastReportAt := now;
    }

    /** The holder leaves with a first warning exactly if it was held for the limit, and with no other first one. */
    method End(now: int) returns (ghost hold: Hold)
      requires Valid() && current.Some? && now >= clock
      modifies this
      ensures Valid() && clock == now && current.None? && waiting == old(waiting)
      ensures hold.turn == old(current).value && hold.startedAt == old(startedAt)
      ensures old(reports) <= hold.reports && Firsts(hold.reports) == if now - old(startedAt) >= limit then 1 else 0
      ensures Ended(View(), hold) == old(OnEnd(View(), now))
    {
      EndWarnsOnce(View(), now);
      OneFirst(limit, OnEnd(View(), now).hold.reports);
      clock := now;
      if !warned && now - startedAt >= limit {
        WarnLong(AtRelease, now);
      }
      hold := Hold(current.value, startedAt, warned, reports);
      current := None;
    }
  }
}
