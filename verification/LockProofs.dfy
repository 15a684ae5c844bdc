/** What every run of the lockfile protocol keeps. */
module LockProofs {
  import opened Wrappers
  import opened LockJudge
  import opened LockProtocol

  // ---------------------------------------------------------------- the guard: invariant

  ghost predicate Gone(w: World, p: ProcId) { p in w.procs && !w.procs[p].alive }

  /** A read that can only count towards a reclaim if the writer of the file is gone. */
  ghost predicate SoundRead(w: World, n: GuardName, read: OwnerRead) {
    match read
    case TornDead => Gone(w, n.proc)
    case Parsed(judged) => HasBootGeneration(judged.lock) && (OwnerIsStale(judged) ==> Gone(w, n.proc))
  }

  ghost predicate IdentityOk(w: World, p: ProcId)
    requires p in w.procs
  {
    var me := w.procs[p];
    && WritesTruth(me, me.payload)
    && (me.alive ==> me.birth.bootUuid == w.boot.uuid && me.birth.bootAt == w.boot.at)
    && 1 <= me.tries <= MAX_ACQUIRE_ATTEMPTS
  }

  ghost predicate PidsDiffer(w: World) {
    forall p, q | Alive(w, p) && Alive(w, q) && w.procs[p].birth.pid == w.procs[q].birth.pid :: p == q
  }

  /** What process `p` in state `me` may rely on while the guard path holds `guard`. */
  ghost predicate Promise(w: World, guard: Option<set<GuardName>>, p: ProcId, me: Proc) {
    && (forall n | n in me.abandoned ::
          n.proc == p && n.claim <= me.claims && (HasName(me.pc) || me.pc.WriteOwner? ==> n.claim < me.claims))
    && (me.alive ==>
          && (HasName(me.pc) ==> guard.Some? && OwnName(p, me) in guard.value)
          && (me.pc.ProbeOwners? ==> forall n | n in me.pc.found :: SoundRead(w, n, me.pc.found[n]))
          && (me.pc.DeleteOwners? ==> forall n | n in me.pc.judged :: Gone(w, n.proc)))
  }

  ghost predicate GuardOk(w: World, p: ProcId)
    requires p in w.procs
  {
    Promise(w, w.fs.guard, p, w.procs[p])
  }

  ghost predicate GuardInv(w: World) {
    && (forall p | p in w.procs :: IdentityOk(w, p) && GuardOk(w, p))
    && PidsDiffer(w)
    && AtMostOne(w, pc => InGuard(pc))
  }

  /** No running process other than `p` loses an owner file. */
  ghost predicate OthersKeepNames(w: World, fs': Fs, p: ProcId) {
    forall n | w.fs.guard.Some? && n in w.fs.guard.value && Alive(w, n.proc) && n.proc != p ::
      fs'.guard.Some? && n in fs'.guard.value
  }

  ghost predicate SameLife(me: Proc, me': Proc) {
    && me'.alive == me.alive && me'.birth == me.birth && me'.payload == me.payload
    && 1 <= me'.tries <= MAX_ACQUIRE_ATTEMPTS
  }

  // ---------------------------------------------------------------- the guard: judgements are sound

  lemma StaleWriterIsGone(w: World, writer: ProcId, payload: ParsedLock, facts: LockOwnerFacts)
    requires writer in w.procs && IdentityOk(w, writer)
    requires WritesTruth(w.procs[writer], payload) && Probed(w, payload.pid, facts)
    requires JudgeLockOwner(payload, facts).Stale?
    ensures Gone(w, writer)
  {
    if w.procs[writer].alive {
      JudgeIsSafeExactlyWithinTolerances(BOOT_TIME_TOLERANCE_MS, PID_START_TOLERANCE_MS);
      assert LiveWriterProbed(payload, facts, w.procs[writer].birth, BOOT_TIME_TOLERANCE_MS, PID_START_TOLERANCE_MS);
    }
  }

  lemma ReclaimedOwnersAreGone(w: World, found: map<GuardName, OwnerRead>, facts: RecoveryGuardFacts)
    requires forall n | n in found :: SoundRead(w, n, found[n])
    requires FactsFromReads(found, facts) && JudgeRecoveryGuard(facts).Reclaim?
    ensures forall n | n in found :: Gone(w, n.proc)
  {
    forall n | n in found ensures Gone(w, n.proc) {
      if found[n].Parsed? {
        assert found[n] in found.Values;
        if facts.owner.Some? {
          SingletonValue(found, n, Parsed(facts.owner.value));
        }
        forall one | one in facts.owners ensures HasBootGeneration(one.lock) {
          assert Parsed(one) in found.Values;
        }
        OwnedGuardReclaimedExactlyWhenAllStale(facts);
      }
    }
  }

  lemma SingletonValue<K, V>(m: map<K, V>, k: K, v: V)
    requires |m| == 1 && k in m && v in m.Values
    ensures m[k] == v
  {
    var k' :| k' in m && m[k'] == v;
    assert |m.Keys - {k}| == 0;
    assert k' !in m.Keys - {k};
  }

  // ---------------------------------------------------------------- the guard: one step

  lemma MakingKeepsGuard(w: World, p: ProcId, me': Proc, fs': Fs)
    requires Alive(w, p) && IdentityOk(w, p) && GuardOk(w, p) && WaitForGuard(w, p, w.procs[p], me', fs')
    requires w.procs[p].pc.MakeGuard? || w.procs[p].pc.ListGuard?
    ensures SameLife(w.procs[p], me') && OthersKeepNames(w, fs', p) && Promise(w, fs'.guard, p, me') && !InGuard(me'.pc)
  {
  }

  lemma RemovingKeepsGuard(w: World, p: ProcId, me': Proc, fs': Fs)
    requires Alive(w, p) && IdentityOk(w, p) && GuardOk(w, p) && WaitForGuard(w, p, w.procs[p], me', fs')
    requires w.procs[p].pc.RemoveLeftovers?
    ensures SameLife(w.procs[p], me') && OthersKeepNames(w, fs', p) && Promise(w, fs'.guard, p, me') && !InGuard(me'.pc)
  {
  }

  lemma ReclaimingKeepsGuard(w: World, p: ProcId, me': Proc, fs': Fs)
    requires Alive(w, p) && IdentityOk(w, p) && GuardOk(w, p) && WaitForGuard(w, p, w.procs[p], me', fs')
    requires w.procs[p].pc.DeleteOwners? || w.procs[p].pc.RemoveReclaimed?
    ensures SameLife(w.procs[p], me') && OthersKeepNames(w, fs', p) && Promise(w, fs'.guard, p, me') && !InGuard(me'.pc)
  {
  }

  lemma WaitingKeepsGuard(w: World, p: ProcId, me': Proc, fs': Fs)
    requires Alive(w, p) && IdentityOk(w, p) && GuardOk(w, p) && WaitForGuard(w, p, w.procs[p], me', fs')
    ensures SameLife(w.procs[p], me') && OthersKeepNames(w, fs', p) && Promise(w, fs'.guard, p, me') && !InGuard(me'.pc)
  {
    if w.procs[p].pc.DeleteOwners? || w.procs[p].pc.RemoveReclaimed? {
      ReclaimingKeepsGuard(w, p, me', fs');
    } else if w.procs[p].pc.RemoveLeftovers? {
      RemovingKeepsGuard(w, p, me', fs');
    } else {
      MakingKeepsGuard(w, p, me', fs');
    }
  }

  lemma ReadIsSound(w: World, n: GuardName, read: OwnerRead)
    requires ReadsOwner(w, n, read) && IdentityOk(w, n.proc)
    ensures SoundRead(w, n, read)
  {
    if read.Parsed? && OwnerIsStale(read.judged) {
      StaleWriterIsGone(w, n.proc, read.judged.lock, read.judged.facts);
    }
  }

  lemma JudgingKeepsGuard(w: World, p: ProcId, me': Proc, fs': Fs)
    requires Alive(w, p) && (forall q | q in w.procs :: IdentityOk(w, q)) && GuardOk(w, p)
    requires JudgeGuard(w, w.procs[p], me', fs')
    ensures SameLife(w.procs[p], me') && OthersKeepNames(w, fs', p) && Promise(w, fs'.guard, p, me') && !InGuard(me'.pc)
  {
    var me := w.procs[p];
    var todo, found := me.pc.todo, me.pc.found;
    if me'.pc.ProbeOwners? {
      var n, read :| n in todo && ReadsOwner(w, n, read) && me'.pc == ProbeOwners(todo - {n}, found[n := read]);
      ReadIsSound(w, n, read);
    } else if me'.pc.DeleteOwners? {
      var facts :| FactsFromReads(found, facts) && JudgeRecoveryGuard(facts).Reclaim?;
      ReclaimedOwnersAreGone(w, found, facts);
    }
  }

  lemma ClaimingKeepsGuard(w: World, p: ProcId, me': Proc, fs': Fs)
    requires Alive(w, p) && IdentityOk(w, p) && GuardOk(w, p) && ClaimGuard(w, p, w.procs[p], me', fs')
    ensures SameLife(w.procs[p], me') && OthersKeepNames(w, fs', p) && Promise(w, fs'.guard, p, me')
    ensures InGuard(me'.pc) ==> w.fs.guard == Some({OwnName(p, me')})
  {
  }

  lemma WorkingKeepsGuard(w: World, p: ProcId, me': Proc, fs': Fs)
    requires Alive(w, p) && IdentityOk(w, p) && GuardOk(w, p)
    requires Attempt(w, p, w.procs[p], me', fs') || CleanUp(w, p, w.procs[p], me', fs')
    ensures SameLife(w.procs[p], me') && OthersKeepNames(w, fs', p) && Promise(w, fs'.guard, p, me')
    ensures InGuard(me'.pc) ==> InGuard(w.procs[p].pc)
  {
  }

  lemma TakingOverKeepsGuard(w: World, p: ProcId, me': Proc, fs': Fs, killed: Option<Record>)
    requires Alive(w, p) && IdentityOk(w, p) && GuardOk(w, p) && TakeOver(w, p, w.procs[p], me', fs', killed)
    ensures SameLife(w.procs[p], me') && OthersKeepNames(w, fs', p) && Promise(w, fs'.guard, p, me')
    ensures InGuard(me'.pc) ==> InGuard(w.procs[p].pc)
  {
  }

  lemma LettingGoKeepsGuard(w: World, p: ProcId, me': Proc, fs': Fs)
    requires Alive(w, p) && IdentityOk(w, p) && GuardOk(w, p) && LetGo(w, p, w.procs[p], me', fs')
    ensures SameLife(w.procs[p], me') && OthersKeepNames(w, fs', p) && Promise(w, fs'.guard, p, me')
    ensures !InGuard(me'.pc)
  {
  }

  lemma OwnStepKeepsGuard(w: World, w': World, p: ProcId, me': Proc, killed: Option<Record>)
    requires GuardInv(w) && Acts(w, w', p, me', w'.fs, killed)
    ensures SameLife(w.procs[p], me') && OthersKeepNames(w, w'.fs, p) && Promise(w, w'.fs.guard, p, me')
    ensures InGuard(me'.pc) ==> InGuard(w.procs[p].pc) || w.fs.guard == Some({OwnName(p, me')})
  {
    assert IdentityOk(w, p) && GuardOk(w, p);
    var me := w.procs[p];
    if WaitForGuard(w, p, me, me', w'.fs) { WaitingKeepsGuard(w, p, me', w'.fs); }
    else if JudgeGuard(w, me, me', w'.fs) { JudgingKeepsGuard(w, p, me', w'.fs); }
    else if ClaimGuard(w, p, me, me', w'.fs) { ClaimingKeepsGuard(w, p, me', w'.fs); }
    else if LetGo(w, p, me, me', w'.fs) { LettingGoKeepsGuard(w, p, me', w'.fs); }
    else if TakeOver(w, p, me, me', w'.fs, killed) { TakingOverKeepsGuard(w, p, me', w'.fs, killed); }
    else { WorkingKeepsGuard(w, p, me', w'.fs); }
  }

  /** Promises only speak of who is gone, and no step of a running process changes that. */
  lemma PromiseCarriesOver(w: World, w': World, p: ProcId, me': Proc, guard: Option<set<GuardName>>, q: ProcId, you: Proc)
    requires p in w.procs && SameLife(w.procs[p], me') && w'.procs == w.procs[p := me'] && Promise(w, guard, q, you)
    ensures Promise(w', guard, q, you)
  {
  }

  /** What another process is promised survives a step of `p` that keeps the names of others. */
  lemma OthersKeepGuardOk(w: World, w': World, p: ProcId, me': Proc, q: ProcId)
    requires p in w.procs && q in w.procs && q != p && IdentityOk(w, q) && GuardOk(w, q)
    requires w'.procs == w.procs[p := me'] && w'.boot == w.boot
    requires SameLife(w.procs[p], me') && OthersKeepNames(w, w'.fs, p)
    ensures IdentityOk(w', q) && GuardOk(w', q)
  {
    assert Alive(w, q) ==> OwnName(q, w.procs[q]).proc == q;
    PromiseCarriesOver(w, w', p, me', w.fs.guard, q, w.procs[q]);
  }

  lemma OneHolder(w: World, w': World, p: ProcId, me': Proc)
    requires GuardInv(w) && p in w.procs && SameLife(w.procs[p], me') && w'.procs == w.procs[p := me']
    requires InGuard(me'.pc) ==> InGuard(w.procs[p].pc) || w.fs.guard == Some({OwnName(p, me')})
    ensures AtMostOne(w', pc => InGuard(pc)) && PidsDiffer(w')
  {
    forall q, r | Alive(w', q) && Alive(w', r)
      ensures InGuard(w'.procs[q].pc) && InGuard(w'.procs[r].pc) ==> q == r
      ensures w'.procs[q].birth.pid == w'.procs[r].birth.pid ==> q == r
    {
      assert Alive(w, q) && Alive(w, r);
      assert GuardOk(w, q) && GuardOk(w, r);
    }
  }

  lemma ActKeepsGuardInv(w: World, w': World, p: ProcId, me': Proc, killed: Option<Record>)
    requires GuardInv(w) && Acts(w, w', p, me', w'.fs, killed)
    ensures GuardInv(w')
  {
    OwnStepKeepsGuard(w, w', p, me', killed);
    PromiseCarriesOver(w, w', p, me', w'.fs.guard, p, me');
    OneHolder(w, w', p, me');
    forall q | q in w'.procs ensures IdentityOk(w', q) && GuardOk(w', q) {
      assert IdentityOk(w, q) && GuardOk(w, q);
      if q != p {
        OthersKeepGuardOk(w, w', p, me', q);
      }
    }
  }

  lemma DeathKeepsGuardOk(w: World, w': World, p: ProcId)
    requires p in w.procs && IdentityOk(w, p) && GuardOk(w, p) && w'.fs == w.fs && w'.procs.Keys == w.procs.Keys
    requires forall q | q in w.procs :: w'.procs[q] == w.procs[q] || w'.procs[q] == w.procs[q].(alive := false)
    requires w'.boot == w.boot || !w'.procs[p].alive
    ensures IdentityOk(w', p) && GuardOk(w', p)
  {
  }

  /** Whoever runs in `w'` but not in `w` is outside the guard and has a number of its own. */
  lemma StillOneHolder(w: World, w': World)
    requires AtMostOne(w, pc => InGuard(pc)) && PidsDiffer(w)
    requires forall p | Alive(w', p) && Alive(w, p) :: w'.procs[p] == w.procs[p]
    requires forall p | Alive(w', p) && !Alive(w, p) :: !InGuard(w'.procs[p].pc)
    requires forall p, q | Alive(w', p) && !Alive(w, p) && Alive(w', q) && q != p ::
               w'.procs[q].birth.pid != w'.procs[p].birth.pid
    ensures AtMostOne(w', pc => InGuard(pc)) && PidsDiffer(w')
  {
    forall p, q | Alive(w', p) && Alive(w', q)
      ensures InGuard(w'.procs[p].pc) && InGuard(w'.procs[q].pc) ==> p == q
      ensures w'.procs[p].birth.pid == w'.procs[q].birth.pid ==> p == q
    {
    }
  }

  lemma DeathKeepsGuardInv(w: World, w': World)
    requires GuardInv(w) && w'.fs == w.fs && w'.procs.Keys == w.procs.Keys
    requires forall q | q in w.procs :: w'.procs[q] == w.procs[q] || w'.procs[q] == w.procs[q].(alive := false)
    requires w'.boot == w.boot || forall p | p in w.procs :: !w'.procs[p].alive
    ensures GuardInv(w')
  {
    forall p | p in w'.procs ensures IdentityOk(w', p) && GuardOk(w', p) {
      DeathKeepsGuardOk(w, w', p);
    }
    StillOneHolder(w, w');
  }

  lemma StartKeepsGuardInv(w: World, w': World, p: ProcId, me: Proc)
    requires GuardInv(w) && p !in w.procs && Newborn(w, me) && w' == w.(procs := w.procs[p := me])
    ensures GuardInv(w')
  {
    forall q | q in w'.procs ensures IdentityOk(w', q) && GuardOk(w', q) {
      if q != p {
        assert IdentityOk(w, q) && GuardOk(w, q);
        assert Promise(w', w.fs.guard, q, w.procs[q]);
      }
    }
    StillOneHolder(w, w');
  }

  lemma StepKeepsGuardInv(w: World, w': World, action: Label)
    requires GuardInv(w) && Step(w, w', action)
    ensures GuardInv(w')
  {
    match action
    case Act(p) =>
      var me', fs', killed :| Acts(w, w', p, me', fs', killed);
      ActKeepsGuardInv(w, w', p, me', killed);
    case Crash(p) => DeathKeepsGuardInv(w, w');
    case Start(p) =>
      var me :| Newborn(w, me) && w' == w.(procs := w.procs[p := me]);
      StartKeepsGuardInv(w, w', p, me);
    case Reboot => DeathKeepsGuardInv(w, w');
  }

  lemma {:induction false} RunKeepsGuardInv(run: Run, i: nat)
    requires IsRun(run) && i < |run.worlds|
    ensures GuardInv(run.worlds[i])
  {
    if i > 0 {
      RunKeepsGuardInv(run, i - 1);
      StepKeepsGuardInv(run.worlds[i - 1], run.worlds[i], run.labels[i - 1]);
    }
  }

  /** In every run, in every state, at most one running process holds the recovery guard, and the owner file that any
      running claimant or holder recorded is in the directory now at the guard path. */
  lemma GuardIsExclusive(run: Run, i: nat)
    requires IsRun(run) && i < |run.worlds|
    ensures AtMostOne(run.worlds[i], pc => InGuard(pc))
    ensures forall p | Alive(run.worlds[i], p) && HasName(run.worlds[i].procs[p].pc) ::
              && run.worlds[i].fs.guard.Some?
              && OwnName(p, run.worlds[i].procs[p]) in run.worlds[i].fs.guard.value
  {
    RunKeepsGuardInv(run, i);
    forall p | Alive(run.worlds[i], p) && HasName(run.worlds[i].procs[p].pc)
      ensures run.worlds[i].fs.guard.Some? && OwnName(p, run.worlds[i].procs[p]) in run.worlds[i].fs.guard.value
    {
      assert GuardOk(run.worlds[i], p);
    }
  }

  /** However old the snapshot it acts on, a step of one process never removes an owner file of another running process,
      and so never removes a guard somebody holds: deletions name judged (gone) owners or take an empty directory. */
  lemma NobodyRemovesALiveOwner(run: Run, i: nat, n: GuardName)
    requires IsRun(run) && i < |run.labels| && run.labels[i].Act?
    requires run.worlds[i].fs.guard.Some? && n in run.worlds[i].fs.guard.value
    requires Alive(run.worlds[i], n.proc) && n.proc != run.labels[i].p
    ensures run.worlds[i + 1].fs.guard.Some? && n in run.worlds[i + 1].fs.guard.value
  {
    RunKeepsGuardInv(run, i);
    var w, w' := run.worlds[i], run.worlds[i + 1];
    assert Step(w, w', run.labels[i]);
    var me', fs', killed :| Acts(w, w', run.labels[i].p, me', fs', killed);
    OwnStepKeepsGuard(w, w', run.labels[i].p, me', killed);
  }

  // ---------------------------------------------------------------- attempts

  /** How often process `p` has gone through the first step of attemptAcquire in the first `i` steps of the run. */
  function Attempts(run: Run, i: nat, p: ProcId): nat
    requires i <= |run.labels| < |run.worlds|
  {
    if i == 0 then 0
    else
      var w := run.worlds[i - 1];
      Attempts(run, i - 1, p) + if run.labels[i - 1] == Act(p) && p in w.procs && w.procs[p].pc.Link? then 1 else 0
  }

  /** `tries` counts the attempts begun: it grows exactly when a step goes back to the beginning. */
  predicate Counted(me: Proc, me': Proc) { me'.tries - (if me'.pc.Link? then 1 else 0) == me.tries }

  lemma AttemptIsCounted(w: World, p: ProcId, me': Proc, fs': Fs)
    requires Alive(w, p) && (Attempt(w, p, w.procs[p], me', fs') || LetGo(w, p, w.procs[p], me', fs'))
    ensures Counted(w.procs[p], me')
  {
  }

  lemma WaitingIsCounted(w: World, p: ProcId, me': Proc, fs': Fs)
    requires Alive(w, p) && (WaitForGuard(w, p, w.procs[p], me', fs') || JudgeGuard(w, w.procs[p], me', fs'))
    ensures Counted(w.procs[p], me')
  {
  }

  lemma GuardedIsCounted(w: World, p: ProcId, me': Proc, fs': Fs)
    requires Alive(w, p) && (ClaimGuard(w, p, w.procs[p], me', fs') || CleanUp(w, p, w.procs[p], me', fs'))
    ensures Counted(w.procs[p], me')
  {
  }

  lemma TakingOverIsCounted(w: World, p: ProcId, me': Proc, fs': Fs, killed: Option<Record>)
    requires Alive(w, p) && TakeOver(w, p, w.procs[p], me', fs', killed)
    ensures Counted(w.procs[p], me')
  {
  }

  lemma OwnStepIsCounted(w: World, w': World, p: ProcId, me': Proc, killed: Option<Record>)
    requires Acts(w, w', p, me', w'.fs, killed)
    ensures Counted(w.procs[p], me') && w'.procs == w.procs[p := me']
  {
    var me := w.procs[p];
    if TakeOver(w, p, me, me', w'.fs, killed) { TakingOverIsCounted(w, p, me', w'.fs, killed); }
    else if WaitForGuard(w, p, me, me', w'.fs) { WaitingIsCounted(w, p, me', w'.fs); }
    else if JudgeGuard(w, me, me', w'.fs) { WaitingIsCounted(w, p, me', w'.fs); }
    else if Attempt(w, p, me, me', w'.fs) { AttemptIsCounted(w, p, me', w'.fs); }
    else if LetGo(w, p, me, me', w'.fs) { AttemptIsCounted(w, p, me', w'.fs); }
    else { GuardedIsCounted(w, p, me', w'.fs); }
  }

  ghost predicate TriesCount(w: World, p: ProcId, attempts: nat) {
    attempts == if p in w.procs then w.procs[p].tries - (if w.procs[p].pc.Link? then 1 else 0) else 0
  }

  lemma StepIsCounted(w: World, w': World, action: Label, p: ProcId, attempts: nat)
    requires Step(w, w', action) && TriesCount(w, p, attempts)
    ensures TriesCount(w', p, attempts + if action == Act(p) && p in w.procs && w.procs[p].pc.Link? then 1 else 0)
  {
    if action.Act? {
      var me', fs', killed :| Acts(w, w', action.p, me', fs', killed);
      OwnStepIsCounted(w, w', action.p, me', killed);
    }
  }

  lemma {:induction false} AttemptsAreCounted(run: Run, i: nat, p: ProcId)
    requires IsRun(run) && i < |run.worlds|
    ensures TriesCount(run.worlds[i], p, Attempts(run, i, p))
  {
    if i > 0 {
      AttemptsAreCounted(run, i - 1, p);
      StepIsCounted(run.worlds[i - 1], run.worlds[i], run.labels[i - 1], p, Attempts(run, i - 1, p));
    }
  }

  /** However often the others get in its way, a process goes through attemptAcquire at most five times. */
  lemma AttemptsAreBounded(run: Run, i: nat, p: ProcId)
    requires IsRun(run) && i < |run.worlds|
    ensures Attempts(run, i, p) <= 5
  {
    AttemptsAreCounted(run, i, p);
    RunKeepsGuardInv(run, i);
    assert p in run.worlds[i].procs ==> IdentityOk(run.worlds[i], p);
  }
}
