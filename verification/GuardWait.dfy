/** The bounded counters of waiting for the recovery guard (waitForRecoveryGuard inside acquireRecoveryLock). */
module GuardWait {

  /** How many delete-pending errors, or failed looks, in a row end the wait. */
  const RECOVERY_GUARD_TRANSIENT_LIMIT: nat := 80

  /** A look at somebody else's guard: stale and removed, not to be removed, or stale but not removable (likewise a
      leftover owner file of this process that cannot be removed). */
  datatype Look = Reclaimed | Busy | CouldNot

  /** What one try gives: the guard directory (then won or lost when the claim is checked), EEXIST and a look, a
      delete-pending error, or an error that ends the wait at once (the time limit among them). */
  datatype Try = Made(won: bool) | Exists(look: Look) | Transient | Fails

  datatype Outcome = Acquired | GaveUp | Failed | StillWaiting

  /** Delete-pending errors in a row right before try `i`. */
  function Streak(tries: seq<Try>, i: nat): nat
    requires i <= |tries|
  {
    if i == 0 || !tries[i - 1].Transient? then 0 else Streak(tries, i - 1) + 1
  }

  /** Tries `from` .. `to`-1 all hit a delete-pending error. */
  ghost predicate InARow(tries: seq<Try>, from: int, to: nat)
    requires to <= |tries|
  {
    0 <= from <= to && forall j | from <= j < to :: tries[j].Transient?
  }

  lemma {:induction false} StreakCountsTheRow(tries: seq<Try>, i: nat, k: nat)
    requires i <= |tries|
    ensures Streak(tries, i) >= k <==> InARow(tries, i - k, i)
  {
    if k > 0 && i > 0 && tries[i - 1].Transient? {
      StreakCountsTheRow(tries, i - 1, k - 1);
    }
  }

  /** The looks among the first `i` tries. */
  ghost function Looks(tries: seq<Try>, i: nat): seq<Look>
    requires i <= |tries|
  {
    if i == 0 then [] else Looks(tries, i - 1) + if tries[i - 1].Exists? then [tries[i - 1].look] else []
  }

  /** Failed looks since the last one that did not fail; other tries in between do not matter. */
  function FailedLooks(tries: seq<Try>, i: nat): nat
    requires i <= |tries|
  {
    if i == 0 then 0
    else if tries[i - 1].Exists? then if tries[i - 1].look.CouldNot? then FailedLooks(tries, i - 1) + 1 else 0
    else FailedLooks(tries, i - 1)
  }

  ghost predicate LastFailed(looks: seq<Look>, k: nat) {
    k <= |looks| && forall j | |looks| - k <= j < |looks| :: looks[j].CouldNot?
  }

  lemma {:induction false} FailedLooksAreTheLast(tries: seq<Try>, i: nat, k: nat)
    requires i <= |tries|
    ensures FailedLooks(tries, i) >= k <==> LastFailed(Looks(tries, i), k)
  {
    if i > 0 && k > 0 {
      var before, looks := Looks(tries, i - 1), Looks(tries, i);
      if !tries[i - 1].Exists? {
        FailedLooksAreTheLast(tries, i - 1, k);
        assert looks == before;
      } else {
        FailedLooksAreTheLast(tries, i - 1, k - 1);
        assert looks[|looks| - 1] == tries[i - 1].look;
        assert forall j | 0 <= j < |before| :: looks[j] == before[j];
      }
    }
  }

  /** Try `i` is the last of `limit` delete-pending errors in a row, or of 80 looks in a row that failed. */
  ghost predicate Exhausts(tries: seq<Try>, i: nat, limit: nat)
    requires i < |tries|
  {
    || (tries[i].Transient? && InARow(tries, i + 1 - limit, i + 1))
    || (tries[i] == Exists(CouldNot) && LastFailed(Looks(tries, i + 1), 80))
  }

  ghost predicate Ends(tries: seq<Try>, i: nat, limit: nat)
    requires i < |tries|
  {
    tries[i] == Made(true) || tries[i].Fails? || Exhausts(tries, i, limit)
  }

  lemma ExhaustsByCount(tries: seq<Try>, i: nat, limit: nat)
    requires i < |tries|
    ensures tries[i].Transient? ==> (Exhausts(tries, i, limit) <==> Streak(tries, i) + 1 >= limit)
    ensures tries[i] == Exists(CouldNot) ==>
              (Exhausts(tries, i, limit) <==> FailedLooks(tries, i) + 1 >= RECOVERY_GUARD_TRANSIENT_LIMIT)
  {
    StreakCountsTheRow(tries, i + 1, limit);
    FailedLooksAreTheLast(tries, i + 1, RECOVERY_GUARD_TRANSIENT_LIMIT);
  }

  ghost predicate Pauses(t: Try) { t.Transient? || t == Exists(Busy) || t == Exists(CouldNot) || t == Made(false) }

  ghost function PausesUpTo(tries: seq<Try>, n: nat): nat
    requires n <= |tries|
  {
    if n == 0 then 0 else PausesUpTo(tries, n - 1) + if Pauses(tries[n - 1]) then 1 else 0
  }

  /** waitForRecoveryGuard from try `from` on: stops at the first try that makes the directory or ends the wait.
      `failed` is the caller's count of failed looks, which outlives the call. */
  method WaitForRecoveryGuard(tries: seq<Try>, from: nat, failedBefore: nat, pausesBefore: nat, limit: nat)
    returns (outcome: Outcome, at: nat, failed: nat, pauses: nat)
    requires from <= |tries| && Streak(tries, from) == 0
    requires failedBefore == FailedLooks(tries, from) && pausesBefore == PausesUpTo(tries, from)
    ensures from <= at <= |tries| && forall i | from <= i < at :: !Ends(tries, i, limit)
    ensures failed == FailedLooks(tries, at) || outcome.GaveUp?
    ensures pauses == PausesUpTo(tries, at)
    ensures outcome.StillWaiting? <==> at == |tries|
    ensures outcome.Acquired? <==> at < |tries| && tries[at].Made?
    ensures outcome.Failed? <==> at < |tries| && tries[at].Fails?
    ensures outcome.GaveUp? <==> at < |tries| && Exhausts(tries, at, limit)
  {
    var streak := 0;
    at, failed, pauses := from, failedBefore, pausesBefore;
    while at < |tries|
      invariant from <= at <= |tries| && streak == Streak(tries, at)
      invariant failed == FailedLooks(tries, at) && pauses == PausesUpTo(tries, at)
      invariant forall i | from <= i < at :: !Ends(tries, i, limit)
    {
      ExhaustsByCount(tries, at, limit);
      match tries[at] {
        case Made(_) => return Acquired, at, failed, pauses;
        case Fails => return Failed, at, failed, pauses;
        case Transient =>
          streak := streak + 1;
          if streak >= limit {
            return GaveUp, at, failed, pauses;
          }
          pauses := pauses + 1;
        case Exists(look) =>
          streak := 0;
          if look.CouldNot? {
            failed := failed + 1;
            if failed >= RECOVERY_GUARD_TRANSIENT_LIMIT {
              return GaveUp, at, failed, pauses;
            }
          } else {
            failed := 0;
          }
          if !look.Reclaimed? {
            pauses := pauses + 1;
          }
      }
      at := at + 1;
    }
    outcome := StillWaiting;
  }

  /** acquireRecoveryLock. It ends at the first try that ends the wait: with the guard when a claim is won; with an error
      only when some try fails for good, or the last 80 tries all hit delete-pending, or the last 80 looks all failed. An
      EEXIST or a lost claim starts the first count again; only a look that succeeds starts the second again. It pauses
      after every earlier try except those that reclaimed a stale guard. */
  method AcquireRecoveryLock(tries: seq<Try>) returns (outcome: Outcome, at: nat, pauses: nat)
    ensures at <= |tries| && forall i | 0 <= i < at :: !Ends(tries, i, 80)
    ensures pauses == PausesUpTo(tries, at)
    ensures outcome.StillWaiting? <==> at == |tries|
    ensures outcome.Acquired? <==> at < |tries| && tries[at] == Made(true)
    ensures outcome.Failed? <==> at < |tries| && tries[at].Fails?
    ensures outcome.GaveUp? <==> at < |tries| && Exhausts(tries, at, 80)
  {
    var failed := 0;
    at, pauses, outcome := 0, 0, Acquired;
    while outcome.Acquired?
      invariant at <= |tries| && forall i | 0 <= i < at :: !Ends(tries, i, RECOVERY_GUARD_TRANSIENT_LIMIT)
      invariant outcome.Acquired? ==> Streak(tries, at) == 0 && failed == FailedLooks(tries, at)
      invariant pauses == PausesUpTo(tries, at)
      invariant !outcome.Acquired? ==> (outcome.StillWaiting? <==> at == |tries|)
      invariant !outcome.Acquired? ==> (outcome.Failed? <==> at < |tries| && tries[at].Fails?)
      invariant !outcome.Acquired? ==> (outcome.GaveUp? <==> at < |tries| && Exhausts(tries, at, RECOVERY_GUARD_TRANSIENT_LIMIT))
      decreases |tries| - at, outcome.Acquired?
    {
      outcome, at, failed, pauses := WaitForRecoveryGuard(tries, at, failed, pauses, RECOVERY_GUARD_TRANSIENT_LIMIT);
      if outcome.Acquired? {
        if tries[at].won {
          return;
        }
        pauses := pauses + 1;
        at := at + 1;
      }
    }
  }
}
