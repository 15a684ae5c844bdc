/** A takeover that has signalled an owner finishes with that owner or not at all. */
module LockSignals {
  import opened Wrappers
  import opened LockJudge
  import opened LockProtocol
  import opened LockProofs
  import opened LockOwnership
  import opened LockTakeover

  /** The records a takeover is waiting for, probing, or about to remove. */
  function Handled(pc: Pc): seq<Record> {
    match pc
    case TakeWait(victim) => [victim]
    case TakeReread(victim) => [victim]
    case TakeRecheck(current) => [current]
    case TakeLatest(expected) => if expected.Some? then [expected.value] else []
    case TakeJudge(known, latest) => [known, latest]
    case TakeUnlink(known, latest) => [known, latest]
    case _ => []
  }

  /** Where a process can be once it has sent a signal. */
  predicate AfterSignal(pc: Pc) {
    || pc.TakeWait? || pc.TakeReread? || pc.TakeRecheck? || pc.TakeLatest? || pc.TakeJudge? || pc.TakeUnlink? || pc.TakeLink?
    || (pc.LeaveOwner? && !pc.after.Restart?) || (pc.LeaveGuard? && !pc.after.Restart?)
    || pc.Owner? || pc.ReleaseRead? || pc.ReleaseUnlink? || pc.Done?
  }

  predicate StaysWith(me: Proc) {
    && AfterSignal(me.pc) && me.goal.Takeover?
    && forall i | 0 <= i < |Handled(me.pc)| :: Handled(me.pc)[i].payload.pid == me.goal.observed.payload.pid
  }

  ghost predicate SignalsKept(w: World) {
    forall s | s in w.signals ::
      s.sender in w.procs && StaysWith(w.procs[s.sender]) && w.procs[s.sender].goal == Takeover(s.observed)
  }

  /** A step keeps the signalled owner, and a signal begins to. */
  ghost predicate Keeps(me: Proc, me': Proc, killed: Option<Record>) {
    StaysWith(me) || (killed.Some? && me.goal.Takeover?) ==> StaysWith(me') && me'.goal == me.goal
  }

  lemma TakingOverKeeps(w: World, p: ProcId, me': Proc, fs': Fs, killed: Option<Record>)
    requires Alive(w, p) && TakeOver(w, p, w.procs[p], me', fs', killed) && KnowsRecords(w, w.procs[p])
    ensures Keeps(w.procs[p], me', killed)
  {
    var me := w.procs[p];
    var handled := Handled(me.pc);
    if StaysWith(me) {
      assert |handled| > 0 ==> handled[0].payload.pid == me.goal.observed.payload.pid;
      assert |handled| > 1 ==> handled[1].payload.pid == me.goal.observed.payload.pid;
    }
  }

  lemma LettingGoKeeps(w: World, p: ProcId, me': Proc, fs': Fs)
    requires Alive(w, p) && LetGo(w, p, w.procs[p], me', fs')
    ensures Keeps(w.procs[p], me', None)
  {
  }

  lemma OthersKeep(w: World, p: ProcId, me': Proc, fs': Fs)
    requires Alive(w, p)
    requires || Attempt(w, p, w.procs[p], me', fs') || WaitForGuard(w, p, w.procs[p], me', fs')
             || JudgeGuard(w, w.procs[p], me', fs') || ClaimGuard(w, p, w.procs[p], me', fs')
             || CleanUp(w, p, w.procs[p], me', fs')
    ensures Keeps(w.procs[p], me', None)
  {
  }

  lemma OwnStepKeeps(w: World, w': World, p: ProcId, me': Proc, killed: Option<Record>)
    requires RecordInv(w) && Acts(w, w', p, me', w'.fs, killed)
    ensures Keeps(w.procs[p], me', killed) && w'.procs == w.procs[p := me']
    ensures forall s | s in w'.signals :: s in w.signals || (w.procs[p].goal == Takeover(s.observed) && s.sender == p && killed.Some?)
  {
    var me := w.procs[p];
    assert KnowsRecords(w, me);
    if TakeOver(w, p, me, me', w'.fs, killed) { TakingOverKeeps(w, p, me', w'.fs, killed); }
    else if LetGo(w, p, me, me', w'.fs) { LettingGoKeeps(w, p, me', w'.fs); }
    else { OthersKeep(w, p, me', w'.fs); }
  }

  lemma ActKeepsSignals(w: World, w': World, p: ProcId, me': Proc, killed: Option<Record>)
    requires RecordInv(w) && SignalsKept(w) && Acts(w, w', p, me', w'.fs, killed)
    ensures SignalsKept(w')
  {
    OwnStepKeeps(w, w', p, me', killed);
  }

  lemma StepKeepsSignals(w: World, w': World, action: Label)
    requires RecordInv(w) && SignalsKept(w) && Step(w, w', action)
    ensures SignalsKept(w')
  {
    if action.Act? {
      var me', fs', killed :| Acts(w, w', action.p, me', fs', killed);
      ActKeepsSignals(w, w', action.p, me', killed);
    }
  }

  lemma {:induction false} RunKeepsSignals(run: Run, i: nat)
    requires IsRun(run) && i < |run.worlds|
    ensures SignalsKept(run.worlds[i])
  {
    if i > 0 {
      RunKeepsSignals(run, i - 1);
      RunKeepsRecordInv(run, i - 1);
      StepKeepsSignals(run.worlds[i - 1], run.worlds[i], run.labels[i - 1]);
    }
  }

  /** In every run, whatever has happened to the path meanwhile: a process that has sent a signal waits for, probes and
      removes only records with the number it signalled; where numbers are not reused, only those of that very owner. */
  lemma TakeoverFinishesWithItsVictim(run: Run, i: nat, s: Signal, r: Record)
    requires IsRun(run) && i < |run.worlds| && s in run.worlds[i].signals
    ensures s.sender in run.worlds[i].procs && AfterSignal(run.worlds[i].procs[s.sender].pc)
    ensures r in Handled(run.worlds[i].procs[s.sender].pc) ==> r.payload.pid == s.observed.payload.pid
    ensures r in Handled(run.worlds[i].procs[s.sender].pc) && PidsNeverReused(run.worlds[i]) ==> r.writer == s.observed.writer
  {
    RunKeepsSignals(run, i);
    RunKeepsRecordInv(run, i);
    RunKeepsGuardInv(run, i);
    var w := run.worlds[i];
    assert KnowsRecords(w, w.procs[s.sender]);
    if r in Handled(w.procs[s.sender].pc) && PidsNeverReused(w) { OneWriterPerNumber(w, r, s.observed); }
  }
}
