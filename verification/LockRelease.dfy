/** The release of the main lock reads before it removes. */
module LockRelease {
  import opened Wrappers
  import opened LockJudge
  import opened LockProtocol
  import opened LockProofs
  import opened LockOwnership
  import opened LockTakeover

  /** The step in which an owner reads its own record and goes on to remove it. */
  ghost predicate ReadsItsOwn(w: World, p: ProcId) {
    && Alive(w, p) && w.procs[p].pc.ReleaseRead?
    && w.fs.lock.Some? && w.fs.lock.value.writer == p
  }

  /** A process comes to the removal only by reading its own number on the path. */
  ghost predicate ComesToRemove(w: World, p: ProcId, me': Proc)
    requires p in w.procs
  {
    me'.pc.ReleaseUnlink? ==>
      w.procs[p].pc.ReleaseRead? && w.fs.lock.Some? && w.fs.lock.value.payload.pid == w.procs[p].payload.pid
  }

  lemma TakingOverComesToRemove(w: World, p: ProcId, me': Proc, fs': Fs, killed: Option<Record>)
    requires Alive(w, p) && TakeOver(w, p, w.procs[p], me', fs', killed)
    ensures ComesToRemove(w, p, me')
  {
  }

  lemma WaitingComesToRemove(w: World, p: ProcId, me': Proc, fs': Fs)
    requires Alive(w, p) && (WaitForGuard(w, p, w.procs[p], me', fs') || JudgeGuard(w, w.procs[p], me', fs'))
    ensures ComesToRemove(w, p, me')
  {
  }

  lemma OtherwiseComesToRemove(w: World, p: ProcId, me': Proc, fs': Fs)
    requires Alive(w, p)
    requires || Attempt(w, p, w.procs[p], me', fs') || ClaimGuard(w, p, w.procs[p], me', fs')
             || CleanUp(w, p, w.procs[p], me', fs') || LetGo(w, p, w.procs[p], me', fs')
    ensures ComesToRemove(w, p, me')
  {
  }

  lemma StepComesToRemove(w: World, w': World, p: ProcId)
    requires GuardInv(w) && RecordInv(w) && PidsNeverReused(w) && Step(w, w', Act(p))
    ensures p in w'.procs && w'.procs[p].pc.ReleaseUnlink? ==> ReadsItsOwn(w, p)
  {
    var me', fs', killed :| Acts(w, w', p, me', fs', killed);
    var me := w.procs[p];
    if TakeOver(w, p, me, me', fs', killed) { TakingOverComesToRemove(w, p, me', fs', killed); }
    else if WaitForGuard(w, p, me, me', fs') || JudgeGuard(w, me, me', fs') { WaitingComesToRemove(w, p, me', fs'); }
    else { OtherwiseComesToRemove(w, p, me', fs'); }
    if me'.pc.ReleaseUnlink? {
      OneWriterPerNumber(w, w.fs.lock.value, Record(p, me.payload));
    }
  }

  lemma OthersLeaveItThere(w: World, w': World, action: Label, p: ProcId)
    requires Step(w, w', action) && action != Act(p) && p in w'.procs && w'.procs[p].pc.ReleaseUnlink?
    ensures p in w.procs && w.procs[p].pc.ReleaseUnlink?
  {
    match action
    case Act(q) => var me', fs', killed :| Acts(w, w', q, me', fs', killed);
    case Crash(q) =>
    case Start(q) =>
    case Reboot =>
  }

  /** How `p` came to be where it is after the step. */
  lemma CameFrom(w: World, w': World, action: Label, p: ProcId)
    requires GuardInv(w) && RecordInv(w) && PidsNeverReused(w) && Step(w, w', action)
    requires p in w'.procs && w'.procs[p].pc.ReleaseUnlink?
    ensures if action == Act(p) then ReadsItsOwn(w, p) else p in w.procs && w.procs[p].pc.ReleaseUnlink?
  {
    if action == Act(p) { StepComesToRemove(w, w', p); } else { OthersLeaveItThere(w, w', action, p); }
  }

  ghost predicate AboutToRemove(run: Run, j: nat, p: ProcId) {
    j < |run.worlds| && p in run.worlds[j].procs && run.worlds[j].procs[p].pc.ReleaseUnlink?
  }

  /** It came there by the step before, or was there already. */
  ghost predicate HasCome(run: Run, j: nat, p: ProcId) {
    && 0 < j <= |run.labels| < |run.worlds|
    && if run.labels[j - 1] == Act(p) then ReadsItsOwn(run.worlds[j - 1], p) else AboutToRemove(run, j - 1, p)
  }

  lemma OneStepBack(run: Run, j: nat, p: ProcId)
    requires IsRun(run) && NumbersNotReused(run) && AboutToRemove(run, j, p)
    ensures HasCome(run, j, p)
  {
    if j > 0 {
      RunKeepsGuardInv(run, j - 1);
      RunKeepsRecordInv(run, j - 1);
      CameFrom(run.worlds[j - 1], run.worlds[j], run.labels[j - 1], p);
    }
  }

  /** At step `i` process `p` read its own record on the path, and it has taken no step between then and world `j`. */
  ghost predicate ReadAt(run: Run, i: nat, j: nat, p: ProcId) {
    && i < j <= |run.labels| < |run.worlds| && run.labels[i] == Act(p) && ReadsItsOwn(run.worlds[i], p)
    && forall k | i < k < j :: run.labels[k] != Act(p)
  }

  lemma JustRead(run: Run, j: nat, p: ProcId)
    requires 0 < j <= |run.labels| < |run.worlds| && run.labels[j - 1] == Act(p) && ReadsItsOwn(run.worlds[j - 1], p)
    ensures ReadAt(run, j - 1, j, p)
  {
  }

  lemma ReadBefore(run: Run, i: nat, j: nat, p: ProcId)
    requires 0 < j <= |run.labels| && ReadAt(run, i, j - 1, p) && run.labels[j - 1] != Act(p)
    ensures ReadAt(run, i, j, p)
  {
  }

  lemma {:induction false} TracedBack(run: Run, j: nat, p: ProcId) returns (i: nat)
    requires forall k: nat {:trigger HasCome(run, k, p)} :: AboutToRemove(run, k, p) ==> HasCome(run, k, p)
    requires AboutToRemove(run, j, p)
    ensures ReadAt(run, i, j, p)
    decreases j
  {
    assert HasCome(run, j, p);
    if run.labels[j - 1] == Act(p) {
      i := j - 1;
      JustRead(run, j, p);
    } else {
      i := TracedBack(run, j - 1, p);
      ReadBefore(run, i, j, p);
    }
  }

  /** Over all runs, disturbed ones included: whoever is about to remove the lock read its own record on the path and has
      taken no step since. A release that finds another owner's record leaves it alone. */
  lemma ReleaseHasReadItsOwn(run: Run, j: nat, p: ProcId) returns (i: nat)
    requires IsRun(run) && NumbersNotReused(run) && AboutToRemove(run, j, p)
    ensures ReadAt(run, i, j, p)
  {
    forall k: nat | AboutToRemove(run, k, p) ensures HasCome(run, k, p) { OneStepBack(run, k, p); }
    i := TracedBack(run, j, p);
  }
}
