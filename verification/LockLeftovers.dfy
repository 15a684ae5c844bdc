/** Owner files a running process leaves in the guard: whoever backs off remembers the file it could not remove. */
module LockLeftovers {
  import opened Wrappers
  import opened LockJudge
  import opened LockProtocol
  import opened LockProofs

  /** Process `p` still means to remove its owner file `n`: it is that of its present claim, or it is to be retried. */
  predicate Remembers(p: ProcId, me: Proc, n: GuardName) {
    n in me.abandoned || (n == OwnName(p, me) && (HasName(me.pc) || me.pc.DiscardOwner?))
  }

  predicate RemembersAll(p: ProcId, me: Proc, guard: Option<set<GuardName>>) {
    guard.Some? ==> forall n | n in guard.value && n.proc == p :: Remembers(p, me, n)
  }

  /** Every owner file in the guard is remembered by its process, if that is running. */
  ghost predicate Accounted(w: World) {
    && (w.fs.guard.Some? ==> forall n | n in w.fs.guard.value :: n.proc in w.procs)
    && (forall p | Alive(w, p) :: RemembersAll(p, w.procs[p], w.fs.guard))
  }

  /** A holder lets go of the guard without having removed its owner file. */
  ghost predicate FailsToRelease(w: World, w': World, action: Label) {
    && action.Act? && Alive(w, action.p) && w.procs[action.p].pc.LeaveOwner?
    && w'.fs.guard.Some? && OwnName(action.p, w.procs[action.p]) in w'.fs.guard.value
  }

  /** What a step does to the guard and to the memory of its process. */
  ghost predicate Handles(p: ProcId, me: Proc, me': Proc, guard: Option<set<GuardName>>, guard': Option<set<GuardName>>) {
    && (guard'.Some? ==> forall n | n in guard'.value :: n == OwnName(p, me) || (guard.Some? && n in guard.value))
    && (!me.pc.LeaveOwner? && RemembersAll(p, me, guard) ==> RemembersAll(p, me', guard'))
    && (me.pc.LeaveOwner? && RemembersAll(p, me, guard) ==>
          (RemembersAll(p, me', guard') <==> !(guard'.Some? && OwnName(p, me) in guard'.value)))
  }

  lemma WaitingHandles(w: World, p: ProcId, me': Proc, fs': Fs)
    requires Alive(w, p) && (WaitForGuard(w, p, w.procs[p], me', fs') || JudgeGuard(w, w.procs[p], me', fs'))
    ensures Handles(p, w.procs[p], me', w.fs.guard, fs'.guard)
  {
  }

  lemma ClaimingHandles(w: World, p: ProcId, me': Proc, fs': Fs)
    requires Alive(w, p) && ClaimGuard(w, p, w.procs[p], me', fs')
    ensures Handles(p, w.procs[p], me', w.fs.guard, fs'.guard)
  {
  }

  lemma WorkingHandles(w: World, p: ProcId, me': Proc, fs': Fs)
    requires Alive(w, p) && (Attempt(w, p, w.procs[p], me', fs') || CleanUp(w, p, w.procs[p], me', fs'))
    ensures Handles(p, w.procs[p], me', w.fs.guard, fs'.guard)
  {
  }

  lemma TakingOverHandles(w: World, p: ProcId, me': Proc, fs': Fs, killed: Option<Record>)
    requires Alive(w, p) && TakeOver(w, p, w.procs[p], me', fs', killed)
    ensures Handles(p, w.procs[p], me', w.fs.guard, fs'.guard)
  {
  }

  lemma LettingGoHandles(w: World, p: ProcId, me': Proc, fs': Fs)
    requires Alive(w, p) && GuardOk(w, p) && LetGo(w, p, w.procs[p], me', fs')
    ensures Handles(p, w.procs[p], me', w.fs.guard, fs'.guard)
  {
    var me := w.procs[p];
    if me.pc.LeaveOwner? { assert OwnName(p, me) !in me'.abandoned; }
  }

  lemma OwnStepHandles(w: World, w': World, p: ProcId, me': Proc, killed: Option<Record>)
    requires GuardInv(w) && Acts(w, w', p, me', w'.fs, killed)
    ensures Handles(p, w.procs[p], me', w.fs.guard, w'.fs.guard)
    ensures me'.alive && w'.procs == w.procs[p := me']
  {
    var me := w.procs[p];
    assert GuardOk(w, p);
    OwnStepKeepsGuard(w, w', p, me', killed);
    if TakeOver(w, p, me, me', w'.fs, killed) { TakingOverHandles(w, p, me', w'.fs, killed); }
    else if LetGo(w, p, me, me', w'.fs) { LettingGoHandles(w, p, me', w'.fs); }
    else if ClaimGuard(w, p, me, me', w'.fs) { ClaimingHandles(w, p, me', w'.fs); }
    else if WaitForGuard(w, p, me, me', w'.fs) || JudgeGuard(w, me, me', w'.fs) { WaitingHandles(w, p, me', w'.fs); }
    else { WorkingHandles(w, p, me', w'.fs); }
  }

  lemma ActAccounts(w: World, w': World, p: ProcId, me': Proc, killed: Option<Record>)
    requires GuardInv(w) && Accounted(w) && Acts(w, w', p, me', w'.fs, killed)
    ensures Accounted(w') <==> !FailsToRelease(w, w', Act(p))
  {
    OwnStepHandles(w, w', p, me', killed);
    assert RemembersAll(p, w.procs[p], w.fs.guard);
    forall q | Alive(w', q) && q != p ensures RemembersAll(q, w'.procs[q], w'.fs.guard) {
      assert Alive(w, q) && RemembersAll(q, w.procs[q], w.fs.guard);
    }
    assert Alive(w', p) && w'.procs[p] == me';
  }

  /** A step leaves an owner file that its running process does not mean to remove if and only if it is a release whose
      removal failed: a claimant that backs off never does. */
  lemma ForgetsExactlyInAFailedRelease(w: World, w': World, action: Label)
    requires GuardInv(w) && Accounted(w) && Step(w, w', action)
    ensures Accounted(w') <==> !FailsToRelease(w, w', action)
  {
    if action.Act? {
      var me', fs', killed :| Acts(w, w', action.p, me', fs', killed);
      ActAccounts(w, w', action.p, me', killed);
    } else {
      forall p | Alive(w', p) ensures RemembersAll(p, w'.procs[p], w'.fs.guard) {
        if Alive(w, p) { assert RemembersAll(p, w.procs[p], w.fs.guard); }
      }
    }
  }

  /** In every run without a failed release, all owner files of running processes in the guard are remembered. */
  lemma {:induction false} NothingIsForgotten(run: Run, i: nat)
    requires IsRun(run) && i < |run.worlds|
    requires forall j | 0 <= j < i :: !FailsToRelease(run.worlds[j], run.worlds[j + 1], run.labels[j])
    ensures Accounted(run.worlds[i])
  {
    if i > 0 {
      NothingIsForgotten(run, i - 1);
      RunKeepsGuardInv(run, i - 1);
      ForgetsExactlyInAFailedRelease(run.worlds[i - 1], run.worlds[i], run.labels[i - 1]);
    }
  }
}
