/** Who still owns a lock: the pure verdicts of agent-lockfile.ts, over injected operating-system facts.
    Optional fields of a parsed payload and facts a platform cannot supply are `None`. */
module LockJudge {
  import opened Wrappers

  const BOOT_TIME_TOLERANCE_MS: nat := 120_000
  const PID_START_TOLERANCE_MS: nat := 60_000
  const RECOVERY_LOCK_STALE_MS: nat := 60_000
  const RECOVERY_GUARD_EMPTY_STALE_MS: nat := 5_000

  /** The identity fields of a lock or guard-owner payload; `startedAtMs` is `started_at` when it parses. */
  datatype ParsedLock = ParsedLock(
    pid: nat,
    startedAtMs: Option<int>,
    bootId: Option<string>,
    bootTimeMs: Option<int>,
    pidStartTicks: Option<int>)

  datatype Presence = Dead | Present

  datatype LockOwnerFacts = LockOwnerFacts(
    bootId: Option<string>,
    bootTimeMs: int,
    pidPresence: Presence,
    pidStartTicks: Option<int>,
    pidStartedAtMs: Option<int>)

  datatype StaleReason = BootIdMismatch | BootTimeMismatch | LockPredatesBoot | PidDead | PidRecycled
  datatype KeepReason = OwnerAlive | OwnerUnverifiable
  datatype Verdict = Stale(why: StaleReason) | Kept(because: KeepReason)

  datatype BootGeneration = OtherBoot(why: StaleReason) | ThisBoot | UnknownBoot

  function Abs(x: int): nat { if x < 0 then -x else x }

  function CompareBootGeneration(lock: ParsedLock, facts: LockOwnerFacts): BootGeneration {
    if lock.bootId.Some? && facts.bootId.Some? then
      if lock.bootId == facts.bootId then ThisBoot else OtherBoot(BootIdMismatch)
    else if lock.bootTimeMs.Some? then
      if Abs(facts.bootTimeMs - lock.bootTimeMs.value) > BOOT_TIME_TOLERANCE_MS
      then OtherBoot(BootTimeMismatch) else UnknownBoot
    else if lock.startedAtMs.Some? && lock.startedAtMs.value < facts.bootTimeMs - BOOT_TIME_TOLERANCE_MS then
      OtherBoot(LockPredatesBoot)
    else UnknownBoot
  }

  predicate JudgePidRecycled(lock: ParsedLock, facts: LockOwnerFacts) {
    if lock.pidStartTicks.Some? && facts.pidStartTicks.Some? then
      lock.pidStartTicks != facts.pidStartTicks
    else
      && facts.pidStartedAtMs.Some?
      && lock.startedAtMs.Some?
      && facts.pidStartedAtMs.value > lock.startedAtMs.value + PID_START_TOLERANCE_MS
  }

  function JudgeLockOwner(lock: ParsedLock, facts: LockOwnerFacts): Verdict {
    var boot := CompareBootGeneration(lock, facts);
    if boot.OtherBoot? then Stale(boot.why)
    else if facts.pidPresence.Dead? then Stale(PidDead)
    else if JudgePidRecycled(lock, facts) then Stale(PidRecycled)
    else Kept(if boot.ThisBoot? then OwnerAlive else OwnerUnverifiable)
  }

  // ---------------------------------------------------------------- what the verdicts come to

  predicate BothKnown<T>(recorded: Option<T>, probed: Option<T>) { recorded.Some? && probed.Some? }

  /** Evidence that the lock is from another boot: the identifiers where both are known; otherwise the boot times, more than
      120 s apart; otherwise a start more than 120 s before this boot. */
  predicate ShowsOtherBoot(lock: ParsedLock, facts: LockOwnerFacts) {
    || (BothKnown(lock.bootId, facts.bootId) && lock.bootId.value != facts.bootId.value)
    || (!BothKnown(lock.bootId, facts.bootId) && lock.bootTimeMs.Some?
        && (facts.bootTimeMs - lock.bootTimeMs.value > 120_000 || lock.bootTimeMs.value - facts.bootTimeMs > 120_000))
    || (!BothKnown(lock.bootId, facts.bootId) && lock.bootTimeMs.None? && lock.startedAtMs.Some?
        && facts.bootTimeMs - lock.startedAtMs.value > 120_000)
  }

  /** Evidence that another process has the number now: the start ticks where both are known; otherwise a start more than
      60 s after the lock was written. */
  predicate ShowsOtherProcess(lock: ParsedLock, facts: LockOwnerFacts) {
    || (BothKnown(lock.pidStartTicks, facts.pidStartTicks) && lock.pidStartTicks.value != facts.pidStartTicks.value)
    || (!BothKnown(lock.pidStartTicks, facts.pidStartTicks) && BothKnown(lock.startedAtMs, facts.pidStartedAtMs)
        && facts.pidStartedAtMs.value - lock.startedAtMs.value > 60_000)
  }

  /** For every lock and all facts, whatever is missing: stale exactly on evidence of another boot, a dead number, or
      evidence of another process, in this order of reasons; kept as alive exactly if the boot is known to be this one. */
  lemma StaleExactlyOnEvidence(lock: ParsedLock, facts: LockOwnerFacts)
    ensures JudgeLockOwner(lock, facts).Stale? <==>
            ShowsOtherBoot(lock, facts) || facts.pidPresence.Dead? || ShowsOtherProcess(lock, facts)
    ensures JudgeLockOwner(lock, facts) == Stale(PidDead) <==> !ShowsOtherBoot(lock, facts) && facts.pidPresence.Dead?
    ensures JudgeLockOwner(lock, facts) == Stale(PidRecycled) <==>
            !ShowsOtherBoot(lock, facts) && facts.pidPresence.Present? && ShowsOtherProcess(lock, facts)
    ensures JudgeLockOwner(lock, facts) == Stale(BootIdMismatch) <==>
            BothKnown(lock.bootId, facts.bootId) && lock.bootId.value != facts.bootId.value
    ensures JudgeLockOwner(lock, facts) == Stale(LockPredatesBoot) ==> lock.bootTimeMs.None?
    ensures JudgeLockOwner(lock, facts) == Kept(OwnerAlive) ==>
            BothKnown(lock.bootId, facts.bootId) && lock.bootId.value == facts.bootId.value
    ensures JudgeLockOwner(lock, facts) == Kept(OwnerUnverifiable) ==> !BothKnown(lock.bootId, facts.bootId)
  {
  }

  // ---------------------------------------------------------------- truth

  /** What is really so about one process: its number, the boot it belongs to (the kernel's identifier and the
      earliest reading of that boot's approximate start), its start tick and its start time. */
  datatype Birth = Birth(pid: nat, bootUuid: string, bootAt: int, ticks: int, startAt: int)

  /** `lock` was written by `writer`: each recorded field is right, boot-time readings within one boot
      spread over at most `drift`, and nobody records a start earlier than its own start or its own boot. */
  ghost predicate WrittenBy(lock: ParsedLock, writer: Birth, drift: nat) {
    && lock.pid == writer.pid
    && (lock.bootId.Some? ==> lock.bootId.value == writer.bootUuid)
    && (lock.bootTimeMs.Some? ==> writer.bootAt <= lock.bootTimeMs.value <= writer.bootAt + drift)
    && (lock.pidStartTicks.Some? ==> lock.pidStartTicks.value == writer.ticks)
    && (lock.startedAtMs.Some? ==> lock.startedAtMs.value >= writer.startAt && lock.startedAtMs.value >= writer.bootAt)
  }

  /** `facts` were probed in the boot `(uuid, at)` while `holder` (if anybody) used the probed number. */
  ghost predicate ProbedFrom(
    facts: LockOwnerFacts, uuid: string, at: int, holder: Option<Birth>, drift: nat, noise: nat)
  {
    && (facts.bootId.Some? ==> facts.bootId.value == uuid)
    && at <= facts.bootTimeMs <= at + drift
    && (facts.pidPresence.Dead? ==> holder.None?)
    && (holder.Some? && facts.pidStartTicks.Some? ==> facts.pidStartTicks.value == holder.value.ticks)
    && (holder.Some? && facts.pidStartedAtMs.Some? ==> facts.pidStartedAtMs.value <= holder.value.startAt + noise)
  }

  /** A lock judged while its writer is running. */
  ghost predicate LiveWriterProbed(lock: ParsedLock, facts: LockOwnerFacts, writer: Birth, drift: nat, noise: nat) {
    && WrittenBy(lock, writer, drift)
    && ProbedFrom(facts, writer.bootUuid, writer.bootAt, Some(writer), drift, noise)
  }

  ghost predicate JudgeIsSafe(drift: nat, noise: nat) {
    forall lock, facts, writer :: LiveWriterProbed(lock, facts, writer, drift, noise) ==> JudgeLockOwner(lock, facts).Kept?
  }

  /** The two tolerances are exactly what safety needs: with any mix of missing facts a running writer is never
      called stale if and only if readings err by no more than the tolerances. */
  lemma JudgeIsSafeExactlyWithinTolerances(drift: nat, noise: nat)
    ensures JudgeIsSafe(drift, noise) <==> drift <= BOOT_TIME_TOLERANCE_MS && noise <= PID_START_TOLERANCE_MS
  {
    var writer := Birth(1, "boot", 0, 7, 0);
    if drift > BOOT_TIME_TOLERANCE_MS {
      var lock := ParsedLock(1, None, None, Some(0), None);
      var facts := LockOwnerFacts(None, drift, Present, None, None);
      assert LiveWriterProbed(lock, facts, writer, drift, noise);
      assert JudgeLockOwner(lock, facts) == Stale(BootTimeMismatch);
    } else if noise > PID_START_TOLERANCE_MS {
      var lock := ParsedLock(1, Some(0), None, None, None);
      var facts := LockOwnerFacts(None, 0, Present, None, Some(noise));
      assert LiveWriterProbed(lock, facts, writer, drift, noise);
      assert JudgeLockOwner(lock, facts) == Stale(PidRecycled);
    }
  }

  /** With the boot identifier and start ticks known on both sides the verdict is also complete: stale exactly when
      the writer no longer runs. A later process that inherits the number in the same boot has another start tick. */
  lemma KnownIdentityDecides(
    lock: ParsedLock, facts: LockOwnerFacts, writer: Birth, uuid: string, at: int, holder: Option<Birth>)
    requires WrittenBy(lock, writer, BOOT_TIME_TOLERANCE_MS)
    requires ProbedFrom(facts, uuid, at, holder, BOOT_TIME_TOLERANCE_MS, PID_START_TOLERANCE_MS)
    requires lock.bootId.Some? && facts.bootId.Some? && lock.pidStartTicks.Some?
    requires holder.Some? ==> facts.pidStartTicks.Some? && holder.value.pid == lock.pid && holder.value.bootUuid == uuid
    requires holder.None? ==> facts.pidPresence.Dead?
    requires holder.Some? && writer.bootUuid == uuid && holder.value.ticks == writer.ticks ==> holder.value == writer
    ensures JudgeLockOwner(lock, facts).Stale? <==> holder != Some(writer)
  {
    if lock.bootId == facts.bootId && holder.Some? {
      assert JudgePidRecycled(lock, facts) <==> holder.value.ticks != writer.ticks;
    }
  }

  // ---------------------------------------------------------------- the recovery guard

  datatype JudgedOwner = JudgedOwner(lock: ParsedLock, facts: LockOwnerFacts)

  /** What a waiter saw at the guard path: at most one of `owner` (a single readable owner file) and `owners`
      (the readable ones of several) is filled. */
  datatype RecoveryGuardFacts = RecoveryGuardFacts(
    owner: Option<JudgedOwner>,
    owners: seq<JudgedOwner>,
    ownerUnreadable: bool,
    guardMtimeMs: Option<int>,
    guardEmpty: bool,
    bootTimeMs: int,
    nowMs: int)

  datatype ReclaimReason = OwnerStale | GuardPredatesBoot | GuardExpired | GuardEmpty
  datatype GuardVerdict = Reclaim(reason: ReclaimReason) | Wait

  predicate HasBootGeneration(lock: ParsedLock) { lock.bootId.Some? || lock.bootTimeMs.Some? }

  predicate PredatesBoot(facts: RecoveryGuardFacts) {
    facts.guardMtimeMs.Some? && facts.guardMtimeMs.value < facts.bootTimeMs - BOOT_TIME_TOLERANCE_MS
  }

  function JudgeOneOwner(one: JudgedOwner, facts: RecoveryGuardFacts): GuardVerdict
    requires facts.guardMtimeMs.Some?
  {
    if JudgeLockOwner(one.lock, one.facts).Stale? then Reclaim(OwnerStale)
    else if !HasBootGeneration(one.lock) && PredatesBoot(facts) then Reclaim(GuardPredatesBoot)
    else if !HasBootGeneration(one.lock) && facts.nowMs - facts.guardMtimeMs.value >= RECOVERY_LOCK_STALE_MS
    then Reclaim(GuardExpired)
    else Wait
  }

  /** Several owners: the first one to be kept keeps the guard, otherwise the first reason is reported. */
  function JudgeAllOwners(owners: seq<JudgedOwner>, facts: RecoveryGuardFacts): GuardVerdict
    requires facts.guardMtimeMs.Some? && |owners| > 0
  {
    var first := JudgeOneOwner(owners[0], facts);
    if first.Wait? || |owners| == 1 then first
    else if JudgeAllOwners(owners[1..], facts).Wait? then Wait
    else first
  }

  function JudgeRecoveryGuard(facts: RecoveryGuardFacts): GuardVerdict {
    if facts.guardMtimeMs.None? then Wait
    else if facts.ownerUnreadable then Wait
    else if facts.owner.None? && |facts.owners| > 0 then JudgeAllOwners(facts.owners, facts)
    else if facts.owner.Some? then JudgeOneOwner(facts.owner.value, facts)
    else if PredatesBoot(facts) then Reclaim(GuardPredatesBoot)
    else
      var age := facts.nowMs - facts.guardMtimeMs.value;
      if facts.guardEmpty && age >= RECOVERY_GUARD_EMPTY_STALE_MS then Reclaim(GuardEmpty)
      else if age >= RECOVERY_LOCK_STALE_MS then Reclaim(GuardExpired)
      else Wait
  }

  predicate OwnerIsStale(one: JudgedOwner) { JudgeLockOwner(one.lock, one.facts).Stale? }

  lemma {:induction false} AllOwnersMustGo(owners: seq<JudgedOwner>, facts: RecoveryGuardFacts)
    requires facts.guardMtimeMs.Some? && |owners| > 0
    ensures JudgeAllOwners(owners, facts).Reclaim? <==>
            forall i | 0 <= i < |owners| :: JudgeOneOwner(owners[i], facts).Reclaim?
  {
    if |owners| > 1 {
      AllOwnersMustGo(owners[1..], facts);
      assert forall i | 0 < i < |owners| :: owners[i] == owners[1..][i - 1];
    }
  }

  /** A guard whose readable owners all carry a boot generation is reclaimed exactly when none of its owner files was
      unreadable and every one of those owners is stale: no clock reading decides it. */
  lemma OwnedGuardReclaimedExactlyWhenAllStale(facts: RecoveryGuardFacts)
    requires facts.guardMtimeMs.Some?
    requires facts.owner.Some? <==> |facts.owners| == 0
    requires facts.owner.Some? ==> HasBootGeneration(facts.owner.value.lock)
    requires forall one | one in facts.owners :: HasBootGeneration(one.lock)
    ensures JudgeRecoveryGuard(facts).Reclaim? <==>
            && !facts.ownerUnreadable
            && (facts.owner.Some? ==> OwnerIsStale(facts.owner.value))
            && (forall one | one in facts.owners :: OwnerIsStale(one))
  {
    if |facts.owners| > 0 {
      AllOwnersMustGo(facts.owners, facts);
      assert forall i | 0 <= i < |facts.owners| ::
          JudgeOneOwner(facts.owners[i], facts).Reclaim? <==> OwnerIsStale(facts.owners[i]);
    }
  }

  /** An owner gives no reason to keep the guard: it is stale, or it carries no boot generation and the guard is older than
      this boot by more than 120 s or has stood for 60 s. */
  predicate Dispensable(one: JudgedOwner, mtime: int, facts: RecoveryGuardFacts) {
    || OwnerIsStale(one)
    || (one.lock.bootId.None? && one.lock.bootTimeMs.None?
        && (facts.bootTimeMs - mtime > 120_000 || facts.nowMs - mtime >= 60_000))
  }

  /** For all facts: a guard is reclaimed exactly if it is still there, no owner file was unreadable, and: every owner it
      has is dispensable; or it has none and predates this boot by more than 120 s, or has stood empty for 5 s, or has
      stood for 60 s. */
  lemma GuardReclaimedExactly(facts: RecoveryGuardFacts)
    ensures JudgeRecoveryGuard(facts).Reclaim? <==>
            && facts.guardMtimeMs.Some? && !facts.ownerUnreadable
            && var mtime := facts.guardMtimeMs.value;
            if facts.owner.Some? then Dispensable(facts.owner.value, mtime, facts)
            else if facts.owners != [] then forall one | one in facts.owners :: Dispensable(one, mtime, facts)
            else
              || facts.bootTimeMs - mtime > 120_000
              || (facts.guardEmpty && facts.nowMs - mtime >= 5_000)
              || facts.nowMs - mtime >= 60_000
  {
    if facts.guardMtimeMs.Some? && facts.owners != [] {
      AllOwnersMustGo(facts.owners, facts);
      assert forall i | 0 <= i < |facts.owners| ::
          JudgeOneOwner(facts.owners[i], facts).Reclaim? <==> Dispensable(facts.owners[i], facts.guardMtimeMs.value, facts);
    }
  }
}
