/** Who owns the main lock, over all runs: exactly which interleavings keep it exclusive, and whom a takeover signals. */
module LockOwnership {
  import opened Wrappers
  import opened LockJudge
  import opened LockProtocol
  import opened LockProofs

  // ---------------------------------------------------------------- records and signals (every run)

  /** `r` is what process `r.writer` publishes. */
  ghost predicate Known(w: World, r: Record) { r.writer in w.procs && r.payload == w.procs[r.writer].payload }

  ghost predicate KnownIfAny(w: World, r: Option<Record>) { r.Some? ==> Known(w, r.value) }

  ghost predicate KnowsRecords(w: World, me: Proc) {
    && (me.goal.Takeover? ==> Known(w, me.goal.observed))
    && match me.pc
       case JudgeExisting(seen) => Known(w, seen)
       case CleanJudge(current) => Known(w, current)
       case CleanUnlink(current) => Known(w, current)
       case TakeCheck(owner) => KnownIfAny(w, owner)
       case TakeWait(victim) =>
         Known(w, victim) && me.goal.Takeover? && victim.payload.pid == me.goal.observed.payload.pid
       case TakeReread(victim) => Known(w, victim)
       case TakeRecheck(current) => Known(w, current)
       case TakeLatest(expected) => KnownIfAny(w, expected)
       case TakeJudge(known, latest) => Known(w, known) && Known(w, latest)
       case TakeUnlink(known, latest) => Known(w, known) && Known(w, latest)
       case _ => true
  }

  ghost predicate SignalOk(w: World, s: Signal) {
    Known(w, s.observed) && Known(w, s.target) && s.target.payload.pid == s.observed.payload.pid
  }

  ghost predicate RecordInv(w: World) {
    && KnownIfAny(w, w.fs.lock)
    && (forall p | p in w.procs :: KnowsRecords(w, w.procs[p]))
    && (forall s | s in w.signals :: SignalOk(w, s))
  }

  lemma PlainStepKnowsRecords(w: World, p: ProcId, me': Proc, fs': Fs)
    requires Alive(w, p) && KnownIfAny(w, w.fs.lock) && KnowsRecords(w, w.procs[p])
    requires Attempt(w, p, w.procs[p], me', fs') || CleanUp(w, p, w.procs[p], me', fs')
    ensures KnowsRecords(w, me') && KnownIfAny(w, fs'.lock)
  {
  }

  lemma GuardStepKnowsRecords(w: World, p: ProcId, me': Proc, fs': Fs)
    requires Alive(w, p) && KnownIfAny(w, w.fs.lock) && KnowsRecords(w, w.procs[p])
    requires LetGo(w, p, w.procs[p], me', fs') || ClaimGuard(w, p, w.procs[p], me', fs')
    ensures KnowsRecords(w, me') && KnownIfAny(w, fs'.lock)
  {
  }

  lemma WaitingStepKnowsRecords(w: World, p: ProcId, me': Proc, fs': Fs)
    requires Alive(w, p) && KnownIfAny(w, w.fs.lock) && KnowsRecords(w, w.procs[p])
    requires WaitForGuard(w, p, w.procs[p], me', fs') || JudgeGuard(w, w.procs[p], me', fs')
    ensures KnowsRecords(w, me') && KnownIfAny(w, fs'.lock)
  {
  }

  lemma TakeOverStepKnowsRecords(w: World, p: ProcId, me': Proc, fs': Fs, killed: Option<Record>)
    requires Alive(w, p) && KnownIfAny(w, w.fs.lock) && KnowsRecords(w, w.procs[p])
    requires TakeOver(w, p, w.procs[p], me', fs', killed)
    ensures KnowsRecords(w, me') && KnownIfAny(w, fs'.lock)
    ensures killed.Some? ==>
              && w.procs[p].goal.Takeover? && Known(w, killed.value)
              && killed.value.payload.pid == w.procs[p].goal.observed.payload.pid
  {
  }

  /** Processes are never forgotten and keep their payload, so what is known stays known. */
  lemma KnowledgeStays(w: World, w': World)
    requires forall p | p in w.procs :: p in w'.procs && w'.procs[p].payload == w.procs[p].payload
    ensures forall r | Known(w, r) :: Known(w', r)
    ensures forall me | KnowsRecords(w, me) :: KnowsRecords(w', me)
    ensures forall s | SignalOk(w, s) :: SignalOk(w', s)
  {
  }

  lemma OwnStepKnowsRecords(w: World, w': World, p: ProcId, me': Proc, killed: Option<Record>)
    requires RecordInv(w) && Acts(w, w', p, me', w'.fs, killed)
    ensures KnowsRecords(w, me') && KnownIfAny(w, w'.fs.lock)
    ensures forall s | s in w'.signals :: SignalOk(w, s)
  {
    var me := w.procs[p];
    assert KnowsRecords(w, me);
    if TakeOver(w, p, me, me', w'.fs, killed) { TakeOverStepKnowsRecords(w, p, me', w'.fs, killed); }
    else if WaitForGuard(w, p, me, me', w'.fs) { WaitingStepKnowsRecords(w, p, me', w'.fs); }
    else if JudgeGuard(w, me, me', w'.fs) { WaitingStepKnowsRecords(w, p, me', w'.fs); }
    else if LetGo(w, p, me, me', w'.fs) || ClaimGuard(w, p, me, me', w'.fs) { GuardStepKnowsRecords(w, p, me', w'.fs); }
    else { PlainStepKnowsRecords(w, p, me', w'.fs); }
  }

  lemma ActKeepsRecordInv(w: World, w': World, p: ProcId, me': Proc, killed: Option<Record>)
    requires GuardInv(w) && RecordInv(w) && Acts(w, w', p, me', w'.fs, killed)
    ensures RecordInv(w')
  {
    OwnStepKeepsGuard(w, w', p, me', killed);
    OwnStepKnowsRecords(w, w', p, me', killed);
    KnowledgeStays(w, w');
  }

  lemma StepKeepsRecordInv(w: World, w': World, action: Label)
    requires GuardInv(w) && RecordInv(w) && Step(w, w', action)
    ensures RecordInv(w')
  {
    if action.Act? {
      var me', fs', killed :| Acts(w, w', action.p, me', fs', killed);
      ActKeepsRecordInv(w, w', action.p, me', killed);
    } else {
      KnowledgeStays(w, w');
      forall p | p in w'.procs ensures KnowsRecords(w', w'.procs[p]) {
        if p in w.procs { assert KnowsRecords(w, w.procs[p]); }
      }
    }
  }

  lemma {:induction false} RunKeepsRecordInv(run: Run, i: nat)
    requires IsRun(run) && i < |run.worlds|
    ensures RecordInv(run.worlds[i])
  {
    if i > 0 {
      RunKeepsRecordInv(run, i - 1);
      RunKeepsGuardInv(run, i - 1);
      StepKeepsRecordInv(run.worlds[i - 1], run.worlds[i], run.labels[i - 1]);
    }
  }

  ghost predicate PidsNeverReused(w: World) {
    forall p, q | p in w.procs && q in w.procs && w.procs[p].birth.pid == w.procs[q].birth.pid :: p == q
  }

  /** A takeover signals only the pid it observed before it began to wait for the guard. Where numbers were not reused
      that is the very record it observed, so a peer that took over meanwhile (another record) is never signalled. */
  lemma OnlyTheObservedOwnerIsSignalled(run: Run, i: nat, s: Signal)
    requires IsRun(run) && i < |run.worlds| && s in run.worlds[i].signals
    ensures s.target.payload.pid == s.observed.payload.pid
    ensures PidsNeverReused(run.worlds[i]) ==> s.target == s.observed
  {
    RunKeepsRecordInv(run, i);
    RunKeepsGuardInv(run, i);
    var w := run.worlds[i];
    assert SignalOk(w, s);
    assert IdentityOk(w, s.observed.writer) && IdentityOk(w, s.target.writer);
  }

  // ---------------------------------------------------------------- ownership: invariant

  /** What `me` relies on about the lock path. */
  ghost predicate Holding(w: World, lock: Option<Record>, p: ProcId, me: Proc) {
    me.alive ==>
      && (HoldsLock(me.pc) ==> lock == Some(Record(p, me.payload)))
      && (me.pc.CleanJudge? ==> lock == Some(me.pc.current))
      && (me.pc.CleanUnlink? ==> lock == Some(me.pc.current) && Gone(w, me.pc.current.writer))
      && (me.pc.TakeJudge? ==> lock == Some(me.pc.latest))
      && (me.pc.TakeUnlink? ==> lock == Some(me.pc.latest) && Gone(w, me.pc.latest.writer))
  }

  ghost predicate OwnInv(w: World) {
    && GuardInv(w) && RecordInv(w)
    && forall p | p in w.procs :: Holding(w, w.fs.lock, p, w.procs[p])
  }

  /** A step publishes the process's own lock on the empty path, or releases its own, or removes from inside the guard
      the lock of a process that is gone. */
  ghost predicate LockChange(w: World, p: ProcId, lock': Option<Record>)
    requires p in w.procs
  {
    var lock, me := w.fs.lock, w.procs[p];
    || lock' == lock
    || (lock.None? && lock' == Some(Record(p, me.payload)))
    || (lock.Some? && lock'.None? && me.pc.ReleaseUnlink? && lock.value.writer == p)
    || (lock.Some? && lock'.None? && InGuard(me.pc) && Gone(w, lock.value.writer))
  }

  lemma AttemptKeepsHolding(w: World, p: ProcId, me': Proc, fs': Fs)
    requires Alive(w, p) && Holding(w, w.fs.lock, p, w.procs[p]) && Attempt(w, p, w.procs[p], me', fs')
    ensures Holding(w, fs'.lock, p, me') && LockChange(w, p, fs'.lock)
  {
  }

  lemma LetGoKeepsHolding(w: World, p: ProcId, me': Proc, fs': Fs)
    requires Alive(w, p) && Holding(w, w.fs.lock, p, w.procs[p]) && LetGo(w, p, w.procs[p], me', fs')
    ensures Holding(w, fs'.lock, p, me') && LockChange(w, p, fs'.lock)
  {
  }

  lemma ClaimKeepsHolding(w: World, p: ProcId, me': Proc, fs': Fs)
    requires Alive(w, p) && Holding(w, w.fs.lock, p, w.procs[p]) && ClaimGuard(w, p, w.procs[p], me', fs')
    ensures Holding(w, fs'.lock, p, me') && LockChange(w, p, fs'.lock)
  {
  }

  lemma WaitingStepKeepsHolding(w: World, p: ProcId, me': Proc, fs': Fs)
    requires Alive(w, p) && Holding(w, w.fs.lock, p, w.procs[p])
    requires WaitForGuard(w, p, w.procs[p], me', fs') || JudgeGuard(w, w.procs[p], me', fs')
    ensures Holding(w, fs'.lock, p, me') && LockChange(w, p, fs'.lock)
  {
  }

  lemma CleanUpKeepsHolding(w: World, p: ProcId, me': Proc, fs': Fs)
    requires Alive(w, p) && Holding(w, w.fs.lock, p, w.procs[p]) && KnowsRecords(w, w.procs[p])
    requires forall q | q in w.procs :: IdentityOk(w, q)
    requires CleanUp(w, p, w.procs[p], me', fs')
    ensures Holding(w, fs'.lock, p, me') && LockChange(w, p, fs'.lock)
  {
    var pc := w.procs[p].pc;
    if pc.CleanJudge? && me'.pc.CleanUnlink? {
      var facts :| Probed(w, pc.current.payload.pid, facts) && JudgeLockOwner(pc.current.payload, facts).Stale?;
      assert IdentityOk(w, pc.current.writer);
      StaleWriterIsGone(w, pc.current.writer, pc.current.payload, facts);
    }
  }

  lemma TakeOverKeepsHolding(w: World, p: ProcId, me': Proc, fs': Fs, killed: Option<Record>)
    requires Alive(w, p) && Holding(w, w.fs.lock, p, w.procs[p]) && KnowsRecords(w, w.procs[p])
    requires forall q | q in w.procs :: IdentityOk(w, q)
    requires TakeOver(w, p, w.procs[p], me', fs', killed)
    ensures Holding(w, fs'.lock, p, me') && LockChange(w, p, fs'.lock)
  {
    if w.procs[p].pc.TakeJudge? {
      assert IdentityOk(w, w.procs[p].pc.latest.writer);
    }
  }

  lemma OwnStepKeepsHolding(w: World, w': World, p: ProcId, me': Proc, killed: Option<Record>)
    requires OwnInv(w) && Acts(w, w', p, me', w'.fs, killed)
    ensures Holding(w, w'.fs.lock, p, me') && LockChange(w, p, w'.fs.lock)
  {
    var me := w.procs[p];
    assert KnowsRecords(w, me) && Holding(w, w.fs.lock, p, me);
    if TakeOver(w, p, me, me', w'.fs, killed) { TakeOverKeepsHolding(w, p, me', w'.fs, killed); }
    else if CleanUp(w, p, me, me', w'.fs) { CleanUpKeepsHolding(w, p, me', w'.fs); }
    else if WaitForGuard(w, p, me, me', w'.fs) { WaitingStepKeepsHolding(w, p, me', w'.fs); }
    else if JudgeGuard(w, me, me', w'.fs) { WaitingStepKeepsHolding(w, p, me', w'.fs); }
    else if Attempt(w, p, me, me', w'.fs) { AttemptKeepsHolding(w, p, me', w'.fs); }
    else if LetGo(w, p, me, me', w'.fs) { LetGoKeepsHolding(w, p, me', w'.fs); }
    else { ClaimKeepsHolding(w, p, me', w'.fs); }
  }

  lemma OthersKeepHolding(w: World, w': World, p: ProcId, me': Proc, q: ProcId)
    requires OwnInv(w) && Alive(w, p) && q in w.procs && q != p
    requires SameLife(w.procs[p], me') && w'.procs == w.procs[p := me'] && LockChange(w, p, w'.fs.lock)
    requires !ReleasedUnderJudgement(w, w', Act(p))
    ensures Holding(w', w'.fs.lock, q, w.procs[q])
  {
    assert Holding(w, w.fs.lock, q, w.procs[q]);
    assert Judging(w, q, p) ==> !w.procs[p].pc.ReleaseUnlink? || !(w.fs.lock.Some? && w'.fs.lock.None?);
  }

  lemma AllKeepHolding(w: World, w': World, p: ProcId, me': Proc)
    requires OwnInv(w) && Alive(w, p) && Holding(w, w'.fs.lock, p, me')
    requires SameLife(w.procs[p], me') && w'.procs == w.procs[p := me'] && LockChange(w, p, w'.fs.lock)
    requires !ReleasedUnderJudgement(w, w', Act(p))
    ensures forall q | q in w'.procs :: Holding(w', w'.fs.lock, q, w'.procs[q])
  {
    forall q | q in w'.procs ensures Holding(w', w'.fs.lock, q, w'.procs[q]) {
      if q != p { OthersKeepHolding(w, w', p, me', q); }
    }
  }

  lemma ActKeepsHolding(w: World, w': World, p: ProcId, me': Proc, killed: Option<Record>)
    requires OwnInv(w) && Acts(w, w', p, me', w'.fs, killed) && !ReleasedUnderJudgement(w, w', Act(p))
    ensures forall q | q in w'.procs :: Holding(w', w'.fs.lock, q, w'.procs[q])
  {
    OwnStepKeepsHolding(w, w', p, me', killed);
    OwnStepKeepsGuard(w, w', p, me', killed);
    AllKeepHolding(w, w', p, me');
  }

  lemma DeathOrStartKeepsHolding(w: World, w': World, action: Label)
    requires OwnInv(w) && Step(w, w', action) && !action.Act?
    ensures forall q | q in w'.procs :: Holding(w', w'.fs.lock, q, w'.procs[q])
  {
    forall q | q in w'.procs ensures Holding(w', w'.fs.lock, q, w'.procs[q]) {
      if q in w.procs { assert Holding(w, w.fs.lock, q, w.procs[q]); }
    }
  }

  lemma StepKeepsOwnInv(w: World, w': World, action: Label)
    requires OwnInv(w) && Step(w, w', action) && !ReleasedUnderJudgement(w, w', action)
    ensures OwnInv(w')
  {
    StepKeepsGuardInv(w, w', action);
    StepKeepsRecordInv(w, w', action);
    if action.Act? {
      var me', fs', killed :| Acts(w, w', action.p, me', fs', killed);
      ActKeepsHolding(w, w', action.p, me', killed);
    } else {
      DeathOrStartKeepsHolding(w, w', action);
    }
  }

  lemma {:induction false} PathKeepsOwnInv(path: Run, i: nat)
    requires IsPath(path) && OwnInv(path.worlds[0]) && Undisturbed(path) && i < |path.worlds|
    ensures OwnInv(path.worlds[i])
  {
    if i > 0 {
      PathKeepsOwnInv(path, i - 1);
      StepKeepsOwnInv(path.worlds[i - 1], path.worlds[i], path.labels[i - 1]);
    }
  }

  lemma OneOwner(w: World)
    requires OwnInv(w)
    ensures AtMostOne(w, pc => HoldsLock(pc))
  {
    forall p, q | Alive(w, p) && Alive(w, q) && HoldsLock(w.procs[p].pc) && HoldsLock(w.procs[q].pc) ensures p == q {
      assert Holding(w, w.fs.lock, p, w.procs[p]) && Holding(w, w.fs.lock, q, w.procs[q]);
    }
  }

  /** In every run in which no owner's release falls between a guard holder's read of its lock and the judgement, at
      every moment at most one running process holds the lock, and its record is the one on the path. */
  lemma UndisturbedOwnershipIsExclusive(run: Run, i: nat)
    requires IsRun(run) && Undisturbed(run) && i < |run.worlds|
    ensures AtMostOne(run.worlds[i], pc => HoldsLock(pc))
    ensures forall p | Alive(run.worlds[i], p) && HoldsLock(run.worlds[i].procs[p].pc) ::
              run.worlds[i].fs.lock == Some(Record(p, run.worlds[i].procs[p].payload))
  {
    PathKeepsOwnInv(run, i);
    OneOwner(run.worlds[i]);
    forall p | Alive(run.worlds[i], p) && HoldsLock(run.worlds[i].procs[p].pc)
      ensures run.worlds[i].fs.lock == Some(Record(p, run.worlds[i].procs[p].payload))
    {
      assert Holding(run.worlds[i], run.worlds[i].fs.lock, p, run.worlds[i].procs[p]);
    }
  }

  // ---------------------------------------------------------------- ownership: the exact condition

  /** Whatever happens from `w` on without a release under judgement, nobody ever shares the lock. */
  ghost predicate SafeFrom(w: World) {
    forall path, i | IsPath(path) && path.worlds[0] == w && Undisturbed(path) && 0 <= i < |path.worlds| ::
      AtMostOne(path.worlds[i], pc => HoldsLock(pc))
  }

  lemma {:induction false} FreshNumber(used: set<nat>) returns (n: nat)
    ensures forall u | u in used :: u < n
  {
    n := 0;
    if used != {} {
      var u :| u in used;
      n := FreshNumber(used - {u});
      assert used == (used - {u}) + {u};
      if n <= u { n := u + 1; }
    }
  }

  /** A newcomer with an unused identity and an unused number. */
  lemma SomebodyCanStart(w: World) returns (q: ProcId, me: Proc)
    ensures q !in w.procs && Newborn(w, me)
    ensures forall p | p in w.procs :: w.procs[p].birth.pid < me.birth.pid
  {
    q := FreshNumber(w.procs.Keys);
    var pids := set p | p in w.procs :: w.procs[p].birth.pid;
    var pid := FreshNumber(pids);
    var birth := Birth(pid, w.boot.uuid, w.boot.at, 0, w.boot.at);
    var payload := ParsedLock(pid, None, Some(w.boot.uuid), Some(w.boot.at), None);
    me := Proc(true, birth, payload, false, Link, Cleanup, 1, 0, {});
    forall p | p in w.procs ensures w.procs[p].birth.pid < pid {
      assert w.procs[p].birth.pid in pids;
    }
  }

  lemma DeadPidIsStale(w: World, lock: ParsedLock) returns (facts: LockOwnerFacts)
    requires PidFree(w, lock.pid)
    ensures Probed(w, lock.pid, facts) && JudgeLockOwner(lock, facts).Stale?
  {
    facts := LockOwnerFacts(None, w.boot.at, Dead, None, None);
  }

  function Moved(w: World, p: ProcId, me': Proc, fs': Fs): World { w.(procs := w.procs[p := me'], fs := fs') }

  /** `p` has put its own lock on the path, whatever was there. */
  function Evicted(w: World, p: ProcId): World
    requires p in w.procs
  {
    Moved(w, p, w.procs[p].(pc := LeaveOwner(BecomeOwner)), w.fs.(lock := Some(Record(p, w.procs[p].payload))))
  }

  lemma MoveIsStep(w: World, p: ProcId, me': Proc, fs': Fs)
    requires Alive(w, p)
    requires || Attempt(w, p, w.procs[p], me', fs') || CleanUp(w, p, w.procs[p], me', fs')
             || TakeOver(w, p, w.procs[p], me', fs', None)
    ensures Step(w, Moved(w, p, me', fs'), Act(p))
  {
    assert Acts(w, Moved(w, p, me', fs'), p, me', fs', None);
  }

  ghost predicate QuietStep(w: World, w': World, action: Label) {
    Step(w, w', action) && !ReleasedUnderJudgement(w, w', action)
  }

  ghost predicate QuietPath(path: Run) { IsPath(path) && Undisturbed(path) }

  lemma Extended(path: Run, w': World, action: Label) returns (longer: Run)
    requires QuietPath(path) && QuietStep(path.worlds[|path.worlds| - 1], w', action)
    ensures QuietPath(longer) && longer.worlds == path.worlds + [w']
  {
    longer := Run(path.worlds + [w'], path.labels + [action]);
    forall i | 0 <= i < |longer.labels| ensures QuietStep(longer.worlds[i], longer.worlds[i + 1], longer.labels[i]) {
      if i < |path.labels| { assert longer.labels[i] == path.labels[i] && longer.worlds[i + 1] == path.worlds[i + 1]; }
    }
  }

  function Last(path: Run): World
    requires |path.worlds| > 0
  {
    path.worlds[|path.worlds| - 1]
  }

  lemma JoinedStep(first: Run, second: Run, path: Run, i: nat)
    requires QuietPath(first) && QuietPath(second) && Last(first) == second.worlds[0]
    requires path == Run(first.worlds + second.worlds[1..], first.labels + second.labels) && i < |path.labels|
    ensures QuietStep(path.worlds[i], path.worlds[i + 1], path.labels[i])
  {
    if i < |first.labels| {
      assert path.worlds[i] == first.worlds[i] && path.worlds[i + 1] == first.worlds[i + 1];
      assert path.labels[i] == first.labels[i];
    } else {
      var k := i - |first.labels|;
      assert path.worlds[i] == second.worlds[k] && path.worlds[i + 1] == second.worlds[k + 1];
      assert path.labels[i] == second.labels[k];
    }
  }

  lemma Joined(first: Run, second: Run) returns (path: Run)
    requires QuietPath(first) && QuietPath(second) && Last(first) == second.worlds[0]
    ensures QuietPath(path) && path.worlds[0] == first.worlds[0] && Last(path) == Last(second)
  {
    path := Run(first.worlds + second.worlds[1..], first.labels + second.labels);
    forall i | 0 <= i < |path.labels| ensures QuietStep(path.worlds[i], path.worlds[i + 1], path.labels[i]) {
      JoinedStep(first, second, path, i);
    }
  }

  /** The record a judging guard holder has read. */
  function JudgedRecord(pc: Pc): Record
    requires pc.CleanJudge? || pc.TakeJudge?
  {
    if pc.CleanJudge? then pc.current else pc.latest
  }

  lemma CleanUnlinkerEvicts(path: Run, p: ProcId) returns (longer: Run)
    requires QuietPath(path) && Alive(Last(path), p) && Last(path).procs[p].pc.CleanUnlink?
    ensures QuietPath(longer) && longer.worlds[0] == path.worlds[0] && Last(longer) == Evicted(Last(path), p)
  {
    var w := Last(path);
    longer := CleanUpExtends(path, p, w.procs[p].(pc := CleanLink), w.fs.(lock := None));
    longer := CleanUpExtends(longer, p, Evicted(w, p).procs[p], Evicted(w, p).fs);
    assert Last(longer).procs == Evicted(w, p).procs;
  }

  lemma TakeUnlinkerEvicts(path: Run, p: ProcId) returns (longer: Run)
    requires QuietPath(path) && Alive(Last(path), p) && Last(path).procs[p].pc.TakeUnlink?
    ensures QuietPath(longer) && longer.worlds[0] == path.worlds[0] && Last(longer) == Evicted(Last(path), p)
  {
    var w := Last(path);
    longer := TakeOverExtends(path, p, w.procs[p].(pc := TakeLink), w.fs.(lock := None));
    longer := TakeOverExtends(longer, p, Evicted(w, p).procs[p], Evicted(w, p).fs);
    assert Last(longer).procs == Evicted(w, p).procs;
  }

  /** The judging holder, which took its record from an owner that has since released and gone, removes whatever lock
      is on the path now and publishes its own. */
  lemma JudgeEvicts(w: World, p: ProcId) returns (path: Run)
    requires Alive(w, p) && (w.procs[p].pc.CleanJudge? || w.procs[p].pc.TakeJudge?)
    requires PidFree(w, JudgedRecord(w.procs[p].pc).payload.pid)
    ensures QuietPath(path) && path.worlds[0] == w && Last(path) == Evicted(w, p)
  {
    var me := w.procs[p];
    if me.pc.CleanJudge? {
      var facts := DeadPidIsStale(w, me.pc.current.payload);
      path := CleanUpExtends(Run([w], []), p, me.(pc := CleanUnlink(me.pc.current)), w.fs);
      path := CleanUnlinkerEvicts(path, p);
    } else {
      path := TakeOverExtends(Run([w], []), p, me.(pc := TakeUnlink(me.pc.known, me.pc.latest)), w.fs);
      path := TakeUnlinkerEvicts(path, p);
    }
    assert Last(path).procs == Evicted(w, p).procs;
  }

  lemma MoveExtends(path: Run, p: ProcId, me': Proc, fs': Fs) returns (longer: Run)
    requires QuietPath(path) && Alive(Last(path), p) && !Last(path).procs[p].pc.ReleaseUnlink?
    requires || Attempt(Last(path), p, Last(path).procs[p], me', fs') || CleanUp(Last(path), p, Last(path).procs[p], me', fs')
             || TakeOver(Last(path), p, Last(path).procs[p], me', fs', None)
    ensures QuietPath(longer) && longer.worlds == path.worlds + [Moved(Last(path), p, me', fs')]
  {
    MoveIsStep(Last(path), p, me', fs');
    longer := Extended(path, Moved(Last(path), p, me', fs'), Act(p));
  }

  /** The same for one kind of step at a time: a caller then proves that kind and not the whole disjunction. */
  lemma AttemptExtends(path: Run, p: ProcId, me': Proc, fs': Fs) returns (longer: Run)
    requires QuietPath(path) && Alive(Last(path), p) && !Last(path).procs[p].pc.ReleaseUnlink?
    requires Attempt(Last(path), p, Last(path).procs[p], me', fs')
    ensures QuietPath(longer) && longer.worlds == path.worlds + [Moved(Last(path), p, me', fs')]
  {
    longer := MoveExtends(path, p, me', fs');
  }

  lemma CleanUpExtends(path: Run, p: ProcId, me': Proc, fs': Fs) returns (longer: Run)
    requires QuietPath(path) && Alive(Last(path), p) && !Last(path).procs[p].pc.ReleaseUnlink?
    requires CleanUp(Last(path), p, Last(path).procs[p], me', fs')
    ensures QuietPath(longer) && longer.worlds == path.worlds + [Moved(Last(path), p, me', fs')]
  {
    longer := MoveExtends(path, p, me', fs');
  }

  lemma TakeOverExtends(path: Run, p: ProcId, me': Proc, fs': Fs) returns (longer: Run)
    requires QuietPath(path) && Alive(Last(path), p) && !Last(path).procs[p].pc.ReleaseUnlink?
    requires TakeOver(Last(path), p, Last(path).procs[p], me', fs', None)
    ensures QuietPath(longer) && longer.worlds == path.worlds + [Moved(Last(path), p, me', fs')]
  {
    longer := MoveExtends(path, p, me', fs');
  }

  /** An owner that has released its lock exits, and a newcomer takes the empty path. */
  lemma NewcomerTakesOver(w: World, v: ProcId) returns (path: Run, q: ProcId)
    requires Alive(w, v) && w.fs.lock.None?
    requires forall r | Alive(w, r) && w.procs[r].birth.pid == w.procs[v].birth.pid :: r == v
    ensures QuietPath(path) && path.worlds[0] == w
    ensures q !in w.procs && Alive(Last(path), q) && Last(path).procs[q].pc == Owner
    ensures forall p | p in w.procs && p != v :: p in Last(path).procs && Last(path).procs[p] == w.procs[p]
    ensures PidFree(Last(path), w.procs[v].birth.pid)
  {
    var w1 := w.(procs := w.procs[v := w.procs[v].(alive := false)]);
    path := Extended(Run([w], []), w1, Crash(v));
    var newcomer;
    q, newcomer := SomebodyCanStart(w1);
    var w2 := w1.(procs := w1.procs[q := newcomer]);
    path := Extended(path, w2, Start(q));
    path := AttemptExtends(path, q, newcomer.(pc := Owner), w2.fs.(lock := Some(Record(q, newcomer.payload))));
    assert w1.procs[v].birth.pid < newcomer.birth.pid;
    var w3 := Last(path);
    forall r | r in w3.procs && w3.procs[r].alive ensures w3.procs[r].birth.pid != w.procs[v].birth.pid {
      if r != q { assert Alive(w, r) && r != v; }
    }
  }

  lemma ReleaseLeavesJudge(w: World, w': World, v: ProcId, p: ProcId)
    requires OwnInv(w) && Step(w, w', Act(v)) && ReleasedUnderJudgement(w, w', Act(v)) && Judging(w, p, v)
    ensures p != v && Alive(w', v) && Alive(w', p) && w'.procs[p] == w.procs[p] && w'.fs.lock.None?
    ensures w'.procs[v].birth == w.procs[v].birth
    ensures forall r | Alive(w', r) && w'.procs[r].birth.pid == w'.procs[v].birth.pid :: r == v
    ensures w.fs.lock == Some(Record(v, w.procs[v].payload))
    ensures w.procs[v].payload.pid == w.procs[v].birth.pid
  {
    var me', fs', killed :| Acts(w, w', v, me', fs', killed);
    OwnStepKeepsGuard(w, w', v, me', killed);
    assert Holding(w, w.fs.lock, v, w.procs[v]);
    assert IdentityOk(w, v);
    forall r | Alive(w', r) && w'.procs[r].birth.pid == w'.procs[v].birth.pid ensures r == v {
      assert Alive(w, r);
    }
  }

  lemma JudgedIsReleased(w: World, w': World, v: ProcId) returns (p: ProcId)
    requires OwnInv(w) && Step(w, w', Act(v)) && ReleasedUnderJudgement(w, w', Act(v))
    ensures p != v && Alive(w', p) && (w'.procs[p].pc.CleanJudge? || w'.procs[p].pc.TakeJudge?)
    ensures Alive(w', v) && w'.fs.lock.None? && JudgedRecord(w'.procs[p].pc).payload.pid == w'.procs[v].birth.pid
    ensures forall r | Alive(w', r) && w'.procs[r].birth.pid == w'.procs[v].birth.pid :: r == v
  {
    p :| Judging(w, p, v);
    ReleaseLeavesJudge(w, w', v, p);
    assert Holding(w, w.fs.lock, p, w.procs[p]);
  }

  /** After a release under judgement: the old owner exits, a newcomer takes the empty path, and the judge evicts it. */
  lemma DisturbedWorldBreaks(w: World, w': World, v: ProcId) returns (path: Run)
    requires OwnInv(w) && Step(w, w', Act(v)) && ReleasedUnderJudgement(w, w', Act(v))
    ensures QuietPath(path) && path.worlds[0] == w'
    ensures !AtMostOne(Last(path), pc => HoldsLock(pc))
  {
    var p := JudgedIsReleased(w, w', v);
    var first, q := NewcomerTakesOver(w', v);
    var second := JudgeEvicts(Last(first), p);
    path := Joined(first, second);
    TwoOwners(Last(path), p, q);
  }

  lemma TwoOwners(w: World, p: ProcId, q: ProcId)
    requires p != q && Alive(w, p) && Alive(w, q) && HoldsLock(w.procs[p].pc) && HoldsLock(w.procs[q].pc)
    ensures !AtMostOne(w, pc => HoldsLock(pc))
  {
  }

  /** The exact condition. From any world reached without a release under judgement, a step leads to a world that stays
      exclusive (as long as no release under judgement follows) if and only if that step is not one itself. */
  lemma ExclusiveExactlyWithoutReleaseUnderJudgement(run: Run, i: nat, w': World, action: Label)
    requires IsRun(run) && Undisturbed(run) && i < |run.worlds| && Step(run.worlds[i], w', action)
    ensures SafeFrom(w') <==> !ReleasedUnderJudgement(run.worlds[i], w', action)
  {
    var w := run.worlds[i];
    PathKeepsOwnInv(run, i);
    if ReleasedUnderJudgement(w, w', action) {
      var path := DisturbedWorldBreaks(w, w', action.p);
      assert !AtMostOne(path.worlds[|path.worlds| - 1], pc => HoldsLock(pc));
    } else {
      StepKeepsOwnInv(w, w', action);
      forall path, j | IsPath(path) && path.worlds[0] == w' && Undisturbed(path) && 0 <= j < |path.worlds|
        ensures AtMostOne(path.worlds[j], pc => HoldsLock(pc))
      {
        PathKeepsOwnInv(path, j);
        OneOwner(path.worlds[j]);
      }
    }
  }
}
