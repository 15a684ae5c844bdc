/** Who reclaims a guard: whoever goes on to remove the directory has itself removed every owner file it judged. */
module LockReclaim {
  import opened Wrappers
  import opened LockJudge
  import opened LockProtocol

  predicate InGuardNow(w: World, n: GuardName) { w.fs.guard.Some? && n in w.fs.guard.value }

  ghost predicate IsAt(run: Run, j: nat, p: ProcId, pc: Pc) {
    j < |run.worlds| && p in run.worlds[j].procs && run.worlds[j].procs[p].pc == pc
  }

  /** Step `k` of process `p` takes owner file `n` out of the guard. */
  ghost predicate Removes(run: Run, k: nat, p: ProcId, n: GuardName) {
    && k < |run.labels| && |run.worlds| == |run.labels| + 1 && run.labels[k] == Act(p)
    && InGuardNow(run.worlds[k], n) && !InGuardNow(run.worlds[k + 1], n)
  }

  /** In step `i` process `p` comes to the verdict that the guard with the owner files `judged`, all of them read, can go. */
  ghost predicate Condemns(run: Run, i: nat, p: ProcId, judged: set<GuardName>) {
    && i < |run.labels| && |run.worlds| == |run.labels| + 1 && run.labels[i] == Act(p) && p in run.worlds[i].procs
    && run.worlds[i].procs[p].pc.ProbeOwners? && run.worlds[i].procs[p].pc.todo == {}
    && run.worlds[i].procs[p].pc.found.Keys == judged
  }

  // ---------------------------------------------------------------- one step

  /** How a process comes to have `rest` left to remove. */
  ghost predicate Remains(w: World, w': World, p: ProcId, rest: set<GuardName>)
    requires p in w.procs
  {
    var pc := w.procs[p].pc;
    || (pc.ProbeOwners? && pc.todo == {} && pc.found.Keys == rest)
    || (exists n :: n !in rest && pc == DeleteOwners(rest + {n}) && InGuardNow(w, n) && !InGuardNow(w', n))
  }

  /** What a step of `p` has to do with deleting owner files and the directory. */
  ghost predicate Deletes(w: World, w': World, p: ProcId, me': Proc)
    requires p in w.procs
  {
    && (me'.pc.DeleteOwners? ==> Remains(w, w', p, me'.pc.judged))
    && (me'.pc.RemoveReclaimed? ==> w.procs[p].pc == DeleteOwners({}))
  }

  lemma WaitingDeletes(w: World, w': World, p: ProcId, me': Proc)
    requires Alive(w, p) && WaitForGuard(w, p, w.procs[p], me', w'.fs)
    ensures Deletes(w, w', p, me')
  {
    if me'.pc.DeleteOwners? {
      var judged := w.procs[p].pc.judged;
      var n :| n in judged && InGuardNow(w, n) && me'.pc.judged == judged - {n} && w'.fs.guard == Without(w.fs.guard, n);
      assert judged == me'.pc.judged + {n};
    }
  }

  lemma JudgingDeletes(w: World, w': World, p: ProcId, me': Proc)
    requires Alive(w, p) && JudgeGuard(w, w.procs[p], me', w'.fs)
    ensures Deletes(w, w', p, me')
  {
  }

  lemma TakingOverDeletes(w: World, w': World, p: ProcId, me': Proc, killed: Option<Record>)
    requires Alive(w, p) && TakeOver(w, p, w.procs[p], me', w'.fs, killed)
    ensures Deletes(w, w', p, me')
  {
  }

  lemma OthersDelete(w: World, w': World, p: ProcId, me': Proc)
    requires Alive(w, p)
    requires || Attempt(w, p, w.procs[p], me', w'.fs) || ClaimGuard(w, p, w.procs[p], me', w'.fs)
             || CleanUp(w, p, w.procs[p], me', w'.fs) || LetGo(w, p, w.procs[p], me', w'.fs)
    ensures Deletes(w, w', p, me')
  {
  }

  lemma StepDeletes(w: World, w': World, p: ProcId)
    requires Step(w, w', Act(p))
    ensures p in w.procs && p in w'.procs && Deletes(w, w', p, w'.procs[p])
  {
    var me', fs', killed :| Acts(w, w', p, me', fs', killed);
    var me := w.procs[p];
    if TakeOver(w, p, me, me', fs', killed) { TakingOverDeletes(w, w', p, me', killed); }
    else if WaitForGuard(w, p, me, me', fs') { WaitingDeletes(w, w', p, me'); }
    else if JudgeGuard(w, me, me', fs') { JudgingDeletes(w, w', p, me'); }
    else { OthersDelete(w, w', p, me'); }
  }

  lemma OthersLeaveItThere(w: World, w': World, action: Label, p: ProcId)
    requires Step(w, w', action) && action != Act(p) && p in w'.procs && w'.procs[p].pc != Link
    ensures p in w.procs && w.procs[p].pc == w'.procs[p].pc
  {
    match action
    case Act(q) => var me', fs', killed :| Acts(w, w', q, me', fs', killed);
    case Crash(q) =>
    case Start(q) =>
    case Reboot =>
  }

  // ---------------------------------------------------------------- over a run

  /** The step before world `j`, in which `p` has `rest` left to remove. */
  ghost predicate Before(run: Run, j: nat, p: ProcId, rest: set<GuardName>) {
    && 0 < j <= |run.labels| && |run.worlds| == |run.labels| + 1
    && if run.labels[j - 1] == Act(p) then
         || Condemns(run, j - 1, p, rest)
         || (exists n :: n !in rest && IsAt(run, j - 1, p, DeleteOwners(rest + {n})) && Removes(run, j - 1, p, n))
       else IsAt(run, j - 1, p, DeleteOwners(rest))
  }

  lemma StepBefore(run: Run, j: nat, p: ProcId, rest: set<GuardName>)
    requires IsRun(run) && IsAt(run, j, p, DeleteOwners(rest))
    ensures Before(run, j, p, rest)
  {
    if j > 0 {
      var w, w' := run.worlds[j - 1], run.worlds[j];
      assert Step(w, w', run.labels[j - 1]);
      if run.labels[j - 1] == Act(p) {
        StepDeletes(w, w', p);
        if !Condemns(run, j - 1, p, rest) {
          var n :| n !in rest && w.procs[p].pc == DeleteOwners(rest + {n}) && InGuardNow(w, n) && !InGuardNow(w', n);
          assert IsAt(run, j - 1, p, DeleteOwners(rest + {n})) && Removes(run, j - 1, p, n);
        }
      } else {
        OthersLeaveItThere(w, w', run.labels[j - 1], p);
      }
    }
  }

  /** Between the verdict in step `i` and world `j` process `p` has removed `judged`, but for `rest`. */
  ghost predicate HasRemoved(run: Run, i: nat, j: nat, p: ProcId, judged: set<GuardName>, rest: set<GuardName>) {
    && i < j && Condemns(run, i, p, judged) && rest <= judged
    && forall n | n in judged && n !in rest :: exists k: nat :: i < k < j && Removes(run, k, p, n)
  }

  lemma OneMore(run: Run, i: nat, j: nat, p: ProcId, judged: set<GuardName>, rest: set<GuardName>, n: GuardName)
    requires n !in rest && HasRemoved(run, i, j, p, judged, rest + {n}) && Removes(run, j, p, n)
    ensures HasRemoved(run, i, j + 1, p, judged, rest)
  {
    forall m | m in judged && m !in rest ensures exists k: nat :: i < k < j + 1 && Removes(run, k, p, m) {
      if m != n { var k: nat :| i < k < j && Removes(run, k, p, m); }
    }
  }

  lemma Meanwhile(run: Run, i: nat, j: nat, p: ProcId, judged: set<GuardName>, rest: set<GuardName>)
    requires HasRemoved(run, i, j, p, judged, rest)
    ensures HasRemoved(run, i, j + 1, p, judged, rest)
  {
    forall m | m in judged && m !in rest ensures exists k: nat :: i < k < j + 1 && Removes(run, k, p, m) {
      var k: nat :| i < k < j && Removes(run, k, p, m);
    }
  }

  lemma {:induction false} TracedBack(run: Run, j: nat, p: ProcId, rest: set<GuardName>) returns (i: nat, judged: set<GuardName>)
    requires forall k: nat, left {:trigger Before(run, k, p, left)} ::
               IsAt(run, k, p, DeleteOwners(left)) ==> Before(run, k, p, left)
    requires IsAt(run, j, p, DeleteOwners(rest))
    ensures HasRemoved(run, i, j, p, judged, rest)
    decreases j
  {
    assert Before(run, j, p, rest);
    if run.labels[j - 1] != Act(p) {
      i, judged := TracedBack(run, j - 1, p, rest);
      Meanwhile(run, i, j - 1, p, judged, rest);
    } else if Condemns(run, j - 1, p, rest) {
      i, judged := j - 1, rest;
    } else {
      var n :| n !in rest && IsAt(run, j - 1, p, DeleteOwners(rest + {n})) && Removes(run, j - 1, p, n);
      i, judged := TracedBack(run, j - 1, p, rest + {n});
      OneMore(run, i, j - 1, p, judged, rest, n);
    }
  }

  lemma StepToDirectoryBefore(run: Run, j: nat, p: ProcId)
    requires IsRun(run) && IsAt(run, j, p, RemoveReclaimed)
    ensures j > 0 && IsAt(run, j - 1, p, if run.labels[j - 1] == Act(p) then DeleteOwners({}) else RemoveReclaimed)
  {
    if j > 0 {
      var w, w' := run.worlds[j - 1], run.worlds[j];
      assert Step(w, w', run.labels[j - 1]);
      if run.labels[j - 1] == Act(p) { StepDeletes(w, w', p); } else { OthersLeaveItThere(w, w', run.labels[j - 1], p); }
    }
  }

  /** In every run, whoever is about to remove the guard directory as stale has itself removed from the guard, since its
      verdict, every owner file that the verdict was about. One that finds such a file gone (another process has reclaimed
      or released that guard, and a new one may stand there) never gets so far. */
  lemma {:induction false} ReclaimerRemovedAllItJudged(run: Run, j: nat, p: ProcId) returns (i: nat, judged: set<GuardName>)
    requires IsRun(run) && IsAt(run, j, p, RemoveReclaimed)
    ensures HasRemoved(run, i, j, p, judged, {})
    decreases j
  {
    StepToDirectoryBefore(run, j, p);
    if run.labels[j - 1] == Act(p) {
      forall k: nat, left | IsAt(run, k, p, DeleteOwners(left)) ensures Before(run, k, p, left) { StepBefore(run, k, p, left); }
      i, judged := TracedBack(run, j - 1, p, {});
    } else {
      i, judged := ReclaimerRemovedAllItJudged(run, j - 1, p);
    }
    Meanwhile(run, i, j - 1, p, judged, {});
  }
}
