/** Takeovers with --force, over all runs: a takeover only ever judges and removes the lock of a process that is gone, so
    it never breaks ownership, and of several contenders for one owner one takes over and is not signalled by the rest. */
module LockTakeover {
  import opened Wrappers
  import opened LockJudge
  import opened LockProtocol
  import opened LockProofs
  import opened LockOwnership

  // ---------------------------------------------------------------- what a takeover found gone stays gone

  /** From the moment the observed owner's number was found free, the record a takeover goes by is a dead writer's. */
  ghost predicate FoundGone(w: World, pc: Pc) {
    match pc
    case TakeReread(victim) => Gone(w, victim.writer)
    case TakeLatest(expected) => expected.Some? ==> Gone(w, expected.value.writer)
    case TakeJudge(known, latest) => Gone(w, known.writer) && latest.payload.pid == known.payload.pid
    case TakeUnlink(known, _) => Gone(w, known.writer)
    case _ => true
  }

  ghost predicate GoneInv(w: World) { forall p | p in w.procs :: FoundGone(w, w.procs[p].pc) }

  lemma FreeNumberMeansGone(w: World, r: Record)
    requires Known(w, r) && IdentityOk(w, r.writer) && PidFree(w, r.payload.pid)
    ensures Gone(w, r.writer)
  {
  }

  lemma TakeOverFindsGone(w: World, p: ProcId, me': Proc, fs': Fs, killed: Option<Record>)
    requires Alive(w, p) && KnowsRecords(w, w.procs[p]) && FoundGone(w, w.procs[p].pc)
    requires forall q | q in w.procs :: IdentityOk(w, q)
    requires TakeOver(w, p, w.procs[p], me', fs', killed)
    ensures FoundGone(w, me'.pc)
  {
    match w.procs[p].pc
    case TakeCheck(owner) =>
      if owner.Some? && me'.pc == TakeLatest(owner) { FreeNumberMeansGone(w, owner.value); }
    case TakeWait(victim) =>
      if me'.pc == TakeReread(victim) { FreeNumberMeansGone(w, victim); }
    case TakeRecheck(current) =>
      if me'.pc == TakeLatest(Some(current)) { FreeNumberMeansGone(w, current); }
    case _ =>
  }

  lemma WaitingFindsNothing(w: World, p: ProcId, me': Proc, fs': Fs)
    requires Alive(w, p) && (WaitForGuard(w, p, w.procs[p], me', fs') || JudgeGuard(w, w.procs[p], me', fs'))
    ensures FoundGone(w, me'.pc)
  {
  }

  lemma OtherStepFindsNothing(w: World, p: ProcId, me': Proc, fs': Fs)
    requires Alive(w, p)
    requires || Attempt(w, p, w.procs[p], me', fs') || CleanUp(w, p, w.procs[p], me', fs')
             || LetGo(w, p, w.procs[p], me', fs') || ClaimGuard(w, p, w.procs[p], me', fs')
    ensures FoundGone(w, me'.pc)
  {
  }

  lemma OwnStepFindsGone(w: World, w': World, p: ProcId, me': Proc, killed: Option<Record>)
    requires GuardInv(w) && RecordInv(w) && GoneInv(w) && Acts(w, w', p, me', w'.fs, killed)
    ensures FoundGone(w, me'.pc)
  {
    var me := w.procs[p];
    assert KnowsRecords(w, me) && FoundGone(w, me.pc);
    if TakeOver(w, p, me, me', w'.fs, killed) { TakeOverFindsGone(w, p, me', w'.fs, killed); }
    else if WaitForGuard(w, p, me, me', w'.fs) { WaitingFindsNothing(w, p, me', w'.fs); }
    else if JudgeGuard(w, me, me', w'.fs) { WaitingFindsNothing(w, p, me', w'.fs); }
    else { OtherStepFindsNothing(w, p, me', w'.fs); }
  }

  /** Nobody comes back to life. */
  lemma GoneStaysGone(w: World, w': World, pc: Pc)
    requires forall q | Gone(w, q) :: Gone(w', q)
    ensures FoundGone(w, pc) ==> FoundGone(w', pc)
  {
  }

  lemma StepKeepsGone(w: World, w': World, action: Label)
    requires GuardInv(w) && Step(w, w', action)
    ensures forall q | Gone(w, q) :: Gone(w', q)
  {
    if action.Act? {
      var me', fs', killed :| Acts(w, w', action.p, me', fs', killed);
      OwnStepKeepsGuard(w, w', action.p, me', killed);
    }
  }

  lemma StepKeepsGoneInv(w: World, w': World, action: Label)
    requires GuardInv(w) && RecordInv(w) && GoneInv(w) && Step(w, w', action)
    ensures GoneInv(w')
  {
    StepKeepsGone(w, w', action);
    if action.Act? {
      var me', fs', killed :| Acts(w, w', action.p, me', fs', killed);
      OwnStepFindsGone(w, w', action.p, me', killed);
      GoneStaysGone(w, w', me'.pc);
    }
    forall p | p in w'.procs ensures FoundGone(w', w'.procs[p].pc) {
      if p in w.procs {
        assert FoundGone(w, w.procs[p].pc);
        GoneStaysGone(w, w', w.procs[p].pc);
      }
    }
  }

  lemma {:induction false} RunKeepsGoneInv(run: Run, i: nat)
    requires IsRun(run) && i < |run.worlds|
    ensures GoneInv(run.worlds[i])
  {
    if i > 0 {
      RunKeepsGoneInv(run, i - 1);
      RunKeepsGuardInv(run, i - 1);
      RunKeepsRecordInv(run, i - 1);
      StepKeepsGoneInv(run.worlds[i - 1], run.worlds[i], run.labels[i - 1]);
    }
  }

  /** Where numbers are not reused, a takeover never has a running process's record under judgement: whoever is about to
      judge the record of a running process is in a stale cleanup. */
  lemma TakeoversJudgeOnlyTheDead(run: Run, i: nat, q: ProcId, v: ProcId)
    requires IsRun(run) && i < |run.worlds| && PidsNeverReused(run.worlds[i])
    requires Judging(run.worlds[i], q, v) && Alive(run.worlds[i], v)
    ensures run.worlds[i].procs[q].pc.CleanJudge?
  {
    var w := run.worlds[i];
    RunKeepsGoneInv(run, i);
    RunKeepsRecordInv(run, i);
    RunKeepsGuardInv(run, i);
    if w.procs[q].pc.TakeJudge? {
      assert FoundGone(w, w.procs[q].pc) && KnowsRecords(w, w.procs[q]);
      OneWriterPerNumber(w, w.procs[q].pc.known, w.procs[q].pc.latest);
    }
  }

  lemma OneWriterPerNumber(w: World, r1: Record, r2: Record)
    requires GuardInv(w) && PidsNeverReused(w) && Known(w, r1) && Known(w, r2) && r1.payload.pid == r2.payload.pid
    ensures r1.writer == r2.writer
  {
    assert IdentityOk(w, r1.writer) && IdentityOk(w, r2.writer);
  }

  // ---------------------------------------------------------------- exclusive ownership

  ghost predicate NumbersNotReused(run: Run) { forall i | 0 <= i < |run.worlds| :: PidsNeverReused(run.worlds[i]) }

  /** A release under the judgement of a stale cleanup: the releasing owner's lock has just been read by a guard holder
      that came to clean up. */
  ghost predicate ReleasedUnderCleanup(w: World, w': World, action: Label) {
    ReleasedUnderJudgement(w, w', action) && exists q :: Judging(w, q, action.p) && w.procs[q].pc.CleanJudge?
  }

  /** Where numbers are not reused the takeovers drop out of the condition. */
  lemma OnlyCleanupsDisturb(run: Run, i: nat, w': World, action: Label)
    requires IsRun(run) && i < |run.worlds| && PidsNeverReused(run.worlds[i])
    ensures ReleasedUnderJudgement(run.worlds[i], w', action) <==> ReleasedUnderCleanup(run.worlds[i], w', action)
  {
    var w := run.worlds[i];
    if ReleasedUnderJudgement(w, w', action) {
      var q :| Judging(w, q, action.p);
      TakeoversJudgeOnlyTheDead(run, i, q, action.p);
    }
  }

  ghost predicate NoReleaseUnderCleanup(run: Run)
    requires IsPath(run)
  {
    forall i | 0 <= i < |run.labels| :: !ReleasedUnderCleanup(run.worlds[i], run.worlds[i + 1], run.labels[i])
  }

  /** Happy-path, stale-cleanup and force contenders together: where numbers are not reused and no release falls under the
      judgement of a stale cleanup, at every moment at most one running process holds the lock, and its record is the
      one on the path. Takeovers need no condition. */
  lemma OwnershipIsExclusive(run: Run, i: nat)
    requires IsRun(run) && NumbersNotReused(run) && NoReleaseUnderCleanup(run) && i < |run.worlds|
    ensures AtMostOne(run.worlds[i], pc => HoldsLock(pc))
    ensures forall p | Alive(run.worlds[i], p) && HoldsLock(run.worlds[i].procs[p].pc) ::
              run.worlds[i].fs.lock == Some(Record(p, run.worlds[i].procs[p].payload))
  {
    forall j | 0 <= j < |run.labels| ensures !ReleasedUnderJudgement(run.worlds[j], run.worlds[j + 1], run.labels[j]) {
      OnlyCleanupsDisturb(run, j, run.worlds[j + 1], run.labels[j]);
    }
    UndisturbedOwnershipIsExclusive(run, i);
  }

  /** The exact condition where numbers have not been reused so far: a step leads to a world that stays exclusive if and
      only if it is not a release under the judgement of a stale cleanup. */
  lemma ExclusiveExactlyWithoutReleaseUnderCleanup(run: Run, i: nat, w': World, action: Label)
    requires IsRun(run) && NumbersNotReused(run) && NoReleaseUnderCleanup(run)
    requires i < |run.worlds| && Step(run.worlds[i], w', action)
    ensures SafeFrom(w') <==> !ReleasedUnderCleanup(run.worlds[i], w', action)
  {
    forall j | 0 <= j < |run.labels| ensures !ReleasedUnderJudgement(run.worlds[j], run.worlds[j + 1], run.labels[j]) {
      OnlyCleanupsDisturb(run, j, run.worlds[j + 1], run.labels[j]);
    }
    OnlyCleanupsDisturb(run, i, w', action);
    ExclusiveExactlyWithoutReleaseUnderJudgement(run, i, w', action);
  }

  // ---------------------------------------------------------------- several contenders for one owner

  /** The process has published its lock at some time; it never goes back. */
  predicate Published(pc: Pc) { HoldsLock(pc) || pc.Done? }

  /** Nobody observes its own record. */
  ghost predicate ObservesOthers(p: ProcId, me: Proc) {
    && (me.goal.Takeover? ==> me.goal.observed.writer != p)
    && (me.pc.JudgeExisting? ==> me.pc.seen.writer != p)
  }

  ghost predicate PublishInv(w: World) {
    && (w.fs.lock.Some? ==> w.fs.lock.value.writer in w.procs && Published(w.procs[w.fs.lock.value.writer].pc))
    && (forall p | p in w.procs :: ObservesOthers(p, w.procs[p]))
  }

  /** What one step does to publication, goal and observation. */
  ghost predicate Publishes(w: World, p: ProcId, me: Proc, me': Proc, fs': Fs) {
    && (Published(me.pc) ==> Published(me'.pc))
    && (fs'.lock == w.fs.lock || fs'.lock.None? || (fs'.lock.value.writer == p && Published(me'.pc)))
    && (me'.goal == me.goal || me'.goal.Cleanup? || (me.pc.JudgeExisting? && me'.goal == Takeover(me.pc.seen)))
    && (me'.pc.JudgeExisting? ==> me.pc.ReadExisting? && w.fs.lock == Some(me'.pc.seen))
    && me'.force == me.force && (me'.goal.Takeover? && me'.goal != me.goal ==> me.force)
    && (TakesOver(me'.pc) ==> me'.goal == me.goal && (TakesOver(me.pc) || me.goal.Takeover?))
  }

  /** Inside a takeover. */
  predicate TakesOver(pc: Pc) {
    || pc.TakeRead? || pc.TakeCheck? || pc.TakeWait? || pc.TakeReread? || pc.TakeRecheck? || pc.TakeLatest?
    || pc.TakeJudge? || pc.TakeUnlink? || pc.TakeLink?
  }

  lemma AttemptPublishes(w: World, p: ProcId, me': Proc, fs': Fs)
    requires Alive(w, p) && Attempt(w, p, w.procs[p], me', fs')
    ensures Publishes(w, p, w.procs[p], me', fs')
  {
  }

  lemma WaitingPublishes(w: World, p: ProcId, me': Proc, fs': Fs)
    requires Alive(w, p) && (WaitForGuard(w, p, w.procs[p], me', fs') || JudgeGuard(w, w.procs[p], me', fs'))
    ensures Publishes(w, p, w.procs[p], me', fs')
  {
  }

  lemma GuardStepPublishes(w: World, p: ProcId, me': Proc, fs': Fs)
    requires Alive(w, p) && (LetGo(w, p, w.procs[p], me', fs') || ClaimGuard(w, p, w.procs[p], me', fs'))
    ensures Publishes(w, p, w.procs[p], me', fs')
  {
  }

  lemma CleanUpPublishes(w: World, p: ProcId, me': Proc, fs': Fs)
    requires Alive(w, p) && CleanUp(w, p, w.procs[p], me', fs')
    ensures Publishes(w, p, w.procs[p], me', fs')
  {
  }

  lemma TakeOverPublishes(w: World, p: ProcId, me': Proc, fs': Fs, killed: Option<Record>)
    requires Alive(w, p) && TakeOver(w, p, w.procs[p], me', fs', killed)
    ensures Publishes(w, p, w.procs[p], me', fs')
  {
  }

  lemma OwnStepPublishes(w: World, w': World, p: ProcId, me': Proc, killed: Option<Record>)
    requires Acts(w, w', p, me', w'.fs, killed)
    ensures Publishes(w, p, w.procs[p], me', w'.fs)
  {
    var me := w.procs[p];
    if TakeOver(w, p, me, me', w'.fs, killed) { TakeOverPublishes(w, p, me', w'.fs, killed); }
    else if WaitForGuard(w, p, me, me', w'.fs) { WaitingPublishes(w, p, me', w'.fs); }
    else if JudgeGuard(w, me, me', w'.fs) { WaitingPublishes(w, p, me', w'.fs); }
    else if CleanUp(w, p, me, me', w'.fs) { CleanUpPublishes(w, p, me', w'.fs); }
    else if Attempt(w, p, me, me', w'.fs) { AttemptPublishes(w, p, me', w'.fs); }
    else { GuardStepPublishes(w, p, me', w'.fs); }
  }

  lemma StepKeepsPublishInv(w: World, w': World, action: Label)
    requires PublishInv(w) && Step(w, w', action)
    ensures PublishInv(w')
  {
    if action.Act? {
      var me', fs', killed :| Acts(w, w', action.p, me', fs', killed);
      OwnStepPublishes(w, w', action.p, me', killed);
      assert ObservesOthers(action.p, w.procs[action.p]);
    }
    forall p | p in w'.procs ensures ObservesOthers(p, w'.procs[p]) {
      if p in w.procs { assert ObservesOthers(p, w.procs[p]); }
    }
  }

  lemma {:induction false} RunKeepsPublishInv(run: Run, i: nat)
    requires IsRun(run) && i < |run.worlds|
    ensures PublishInv(run.worlds[i])
  {
    if i > 0 {
      RunKeepsPublishInv(run, i - 1);
      StepKeepsPublishInv(run.worlds[i - 1], run.worlds[i], run.labels[i - 1]);
    }
  }

  // ---------------------------------------------------------------- only with --force

  predicate OnlyWithForce(me: Proc) { (me.goal.Takeover? ==> me.force) && (TakesOver(me.pc) ==> me.goal.Takeover?) }

  ghost predicate ForceInv(w: World) {
    && (forall p | p in w.procs :: OnlyWithForce(w.procs[p]))
    && (forall s | s in w.signals :: s.sender in w.procs && w.procs[s.sender].force)
  }

  lemma OwnStepKeepsForce(w: World, w': World, p: ProcId, me': Proc, killed: Option<Record>)
    requires ForceInv(w) && Acts(w, w', p, me', w'.fs, killed)
    ensures OnlyWithForce(me') && me'.force == w.procs[p].force && w'.procs == w.procs[p := me']
    ensures forall s | s in w'.signals :: s in w.signals || (s.sender == p && me'.force)
  {
    OwnStepPublishes(w, w', p, me', killed);
    assert OnlyWithForce(w.procs[p]);
  }

  lemma StepKeepsForceInv(w: World, w': World, action: Label)
    requires ForceInv(w) && Step(w, w', action)
    ensures ForceInv(w')
  {
    if action.Act? {
      var me', fs', killed :| Acts(w, w', action.p, me', fs', killed);
      OwnStepKeepsForce(w, w', action.p, me', killed);
    }
    forall p | p in w'.procs ensures OnlyWithForce(w'.procs[p]) {
      if p in w.procs { assert OnlyWithForce(w.procs[p]); }
    }
  }

  lemma {:induction false} RunKeepsForceInv(run: Run, i: nat)
    requires IsRun(run) && i < |run.worlds|
    ensures ForceInv(run.worlds[i])
  {
    if i > 0 {
      RunKeepsForceInv(run, i - 1);
      StepKeepsForceInv(run.worlds[i - 1], run.worlds[i], run.labels[i - 1]);
    }
  }

  /** In every run only processes started with --force want to take over, get into a takeover, or have sent a signal. */
  lemma OnlyForceTakesOver(run: Run, i: nat)
    requires IsRun(run) && i < |run.worlds|
    ensures forall p | p in run.worlds[i].procs && (run.worlds[i].procs[p].goal.Takeover? || TakesOver(run.worlds[i].procs[p].pc)) ::
              run.worlds[i].procs[p].force
    ensures forall s | s in run.worlds[i].signals ::
              s.sender in run.worlds[i].procs && run.worlds[i].procs[s.sender].force
  {
    RunKeepsForceInv(run, i);
    forall p | p in run.worlds[i].procs && (run.worlds[i].procs[p].goal.Takeover? || TakesOver(run.worlds[i].procs[p].pc))
      ensures run.worlds[i].procs[p].force
    {
      assert OnlyWithForce(run.worlds[i].procs[p]);
    }
  }

  /** A contender without --force that meets the lock of a running process gives up and leaves everything as it is. */
  lemma TurnedAwayWithoutForce(run: Run, i: nat, p: ProcId)
    requires IsRun(run) && i < |run.labels| && run.labels[i] == Act(p) && Alive(run.worlds[i], p)
    requires run.worlds[i].procs[p].pc.JudgeExisting? && !run.worlds[i].procs[p].force
    requires Alive(run.worlds[i], run.worlds[i].procs[p].pc.seen.writer)
    ensures p in run.worlds[i + 1].procs && run.worlds[i + 1].procs[p].pc == Done
    ensures run.worlds[i + 1].fs == run.worlds[i].fs && run.worlds[i + 1].signals == run.worlds[i].signals
  {
    RunKeepsGuardInv(run, i);
    RunKeepsRecordInv(run, i);
    var w, w' := run.worlds[i], run.worlds[i + 1];
    assert Step(w, w', run.labels[i]);
    var me', fs', killed :| Acts(w, w', p, me', fs', killed);
    assert KnowsRecords(w, w.procs[p]);
    RunningOwnerIsKept(w, p, me', fs');
  }

  lemma RunningOwnerIsKept(w: World, p: ProcId, me': Proc, fs': Fs)
    requires GuardInv(w) && Alive(w, p) && w.procs[p].pc.JudgeExisting? && !w.procs[p].force
    requires Attempt(w, p, w.procs[p], me', fs') && Known(w, w.procs[p].pc.seen) && Alive(w, w.procs[p].pc.seen.writer)
    ensures me'.pc == Done && fs' == w.fs
  {
    var seen := w.procs[p].pc.seen;
    assert IdentityOk(w, seen.writer);
    forall facts | Probed(w, seen.payload.pid, facts) ensures JudgeLockOwner(seen.payload, facts).Kept? {
      if JudgeLockOwner(seen.payload, facts).Stale? { StaleWriterIsGone(w, seen.writer, seen.payload, facts); }
    }
  }

  // ---------------------------------------------------------------- one contender at a time

  /** Nobody but `p` removes or replaces the record of `p` while `p` runs. */
  lemma LiveRecordStays(run: Run, i: nat, p: ProcId)
    requires IsRun(run) && NumbersNotReused(run) && NoReleaseUnderCleanup(run) && i < |run.labels|
    requires Alive(run.worlds[i], p) && run.labels[i] != Act(p)
    requires run.worlds[i].fs.lock == Some(Record(p, run.worlds[i].procs[p].payload))
    ensures run.worlds[i + 1].fs.lock == run.worlds[i].fs.lock
  {
    forall j | 0 <= j < |run.labels| ensures !ReleasedUnderJudgement(run.worlds[j], run.worlds[j + 1], run.labels[j]) {
      OnlyCleanupsDisturb(run, j, run.worlds[j + 1], run.labels[j]);
    }
    PathKeepsOwnInv(run, i);
    var w, w', action := run.worlds[i], run.worlds[i + 1], run.labels[i];
    assert Step(w, w', action);
    if action.Act? {
      var me', fs', killed :| Acts(w, w', action.p, me', fs', killed);
      OwnStepKeepsHolding(w, w', action.p, me', killed);
    }
  }

  /** Any number of force contenders that observed the same owner: at every moment at most one of them holds the lock;
      every signal any of them has ever sent went to that owner, and so never to the one that took over; and while that
      one runs and its record is on the path, no step of another contender removes the record or publishes a lock. */
  lemma OneContenderTakesOver(run: Run, i: nat, observed: Record, p: ProcId)
    requires IsRun(run) && NumbersNotReused(run) && NoReleaseUnderCleanup(run) && i < |run.worlds|
    requires p in run.worlds[i].procs && run.worlds[i].procs[p].goal == Takeover(observed)
    ensures Alive(run.worlds[i], p) && HoldsLock(run.worlds[i].procs[p].pc) ==>
              forall q | Alive(run.worlds[i], q) && HoldsLock(run.worlds[i].procs[q].pc) :: q == p
    ensures forall s | s in run.worlds[i].signals && s.observed == observed ::
              s.target == observed && s.target.writer != p
    ensures i < |run.labels| && run.labels[i] != Act(p) && Alive(run.worlds[i], p)
            && run.worlds[i].fs.lock == Some(Record(p, run.worlds[i].procs[p].payload)) ==>
              run.worlds[i + 1].fs.lock == run.worlds[i].fs.lock
  {
    OwnershipIsExclusive(run, i);
    RunKeepsPublishInv(run, i);
    assert ObservesOthers(p, run.worlds[i].procs[p]);
    forall s | s in run.worlds[i].signals && s.observed == observed ensures s.target == observed {
      OnlyTheObservedOwnerIsSignalled(run, i, s);
    }
    if i < |run.labels| && run.labels[i] != Act(p) && Alive(run.worlds[i], p)
       && run.worlds[i].fs.lock == Some(Record(p, run.worlds[i].procs[p].payload))
    {
      LiveRecordStays(run, i, p);
    }
  }
}
