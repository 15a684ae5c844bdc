/** Self-healing: whatever dead processes left on the lock path and at the guard path, one contender gets through. */
module LockRecovery {
  import opened Wrappers
  import opened LockJudge
  import opened LockProtocol
  import opened LockOwnership

  /** Only `p` runs, in state `me`, and its number was not used before. */
  ghost predicate Alone(w: World, p: ProcId, me: Proc) {
    && p in w.procs && w.procs[p] == me && me.alive
    && forall q | q in w.procs && q != p :: !w.procs[q].alive && w.procs[q].birth.pid != me.birth.pid
  }

  /** The guard path is free, or holds a directory with owner files of other processes. */
  ghost predicate OthersLeft(w: World, p: ProcId, guard: Option<set<GuardName>>) {
    guard.Some? ==> forall n | n in guard.value :: n.proc in w.procs && n.proc != p
  }

  ghost predicate Takes(w: World, p: ProcId, me': Proc, fs': Fs)
    requires p in w.procs
  {
    var me := w.procs[p];
    || Attempt(w, p, me, me', fs') || WaitForGuard(w, p, me, me', fs') || JudgeGuard(w, me, me', fs')
    || ClaimGuard(w, p, me, me', fs') || CleanUp(w, p, me, me', fs') || LetGo(w, p, me, me', fs')
  }

  ghost predicate SameSelf(me: Proc, me': Proc) {
    me'.alive == me.alive && me'.birth == me.birth && me'.payload == me.payload
  }

  /** `longer` goes on from `path` and ends with `p` alone in state `me` over `fs`. */
  ghost predicate Reaches(path: Run, longer: Run, p: ProcId, me: Proc, fs: Fs) {
    && QuietPath(path) && QuietPath(longer) && longer.worlds[0] == path.worlds[0]
    && Last(longer).procs.Keys == Last(path).procs.Keys
    && Alone(Last(longer), p, me) && Last(longer).fs == fs
  }

  lemma Goes(path: Run, p: ProcId, me: Proc, me': Proc, fs': Fs) returns (longer: Run)
    requires QuietPath(path) && Alone(Last(path), p, me) && !me.pc.ReleaseUnlink?
    requires Takes(Last(path), p, me', fs') && SameSelf(me, me')
    ensures Reaches(path, longer, p, me', fs')
  {
    var w' := Moved(Last(path), p, me', fs');
    assert Acts(Last(path), w', p, me', fs', None);
    longer := Extended(path, w', Act(p));
  }

  // One lemma per kind of step, so that a caller proves that kind and not the disjunction `Takes`.

  lemma Attempts(path: Run, p: ProcId, me: Proc, me': Proc, fs': Fs) returns (longer: Run)
    requires QuietPath(path) && Alone(Last(path), p, me) && !me.pc.ReleaseUnlink?
    requires Attempt(Last(path), p, me, me', fs') && SameSelf(me, me')
    ensures Reaches(path, longer, p, me', fs')
  {
    longer := Goes(path, p, me, me', fs');
  }

  lemma Waits(path: Run, p: ProcId, me: Proc, me': Proc, fs': Fs) returns (longer: Run)
    requires QuietPath(path) && Alone(Last(path), p, me) && !me.pc.ReleaseUnlink?
    requires WaitForGuard(Last(path), p, me, me', fs') && SameSelf(me, me')
    ensures Reaches(path, longer, p, me', fs')
  {
    longer := Goes(path, p, me, me', fs');
  }

  lemma Judges(path: Run, p: ProcId, me: Proc, me': Proc, fs': Fs) returns (longer: Run)
    requires QuietPath(path) && Alone(Last(path), p, me) && !me.pc.ReleaseUnlink?
    requires JudgeGuard(Last(path), me, me', fs') && SameSelf(me, me')
    ensures Reaches(path, longer, p, me', fs')
  {
    longer := Goes(path, p, me, me', fs');
  }

  lemma Claims(path: Run, p: ProcId, me: Proc, me': Proc, fs': Fs) returns (longer: Run)
    requires QuietPath(path) && Alone(Last(path), p, me) && !me.pc.ReleaseUnlink?
    requires ClaimGuard(Last(path), p, me, me', fs') && SameSelf(me, me')
    ensures Reaches(path, longer, p, me', fs')
  {
    longer := Goes(path, p, me, me', fs');
  }

  lemma CleansUp(path: Run, p: ProcId, me: Proc, me': Proc, fs': Fs) returns (longer: Run)
    requires QuietPath(path) && Alone(Last(path), p, me) && !me.pc.ReleaseUnlink?
    requires CleanUp(Last(path), p, me, me', fs') && SameSelf(me, me')
    ensures Reaches(path, longer, p, me', fs')
  {
    longer := Goes(path, p, me, me', fs');
  }

  lemma LetsGo(path: Run, p: ProcId, me: Proc, me': Proc, fs': Fs) returns (longer: Run)
    requires QuietPath(path) && Alone(Last(path), p, me) && !me.pc.ReleaseUnlink?
    requires LetGo(Last(path), p, me, me', fs') && SameSelf(me, me')
    ensures Reaches(path, longer, p, me', fs')
  {
    longer := Goes(path, p, me, me', fs');
  }

  /** The lock of a process that is gone is judged stale. */
  lemma FindsStaleLock(path: Run, p: ProcId, me: Proc) returns (longer: Run)
    requires QuietPath(path) && Alone(Last(path), p, me) && me.pc == Link
    requires Last(path).fs.lock.Some? && Last(path).fs.lock.value.payload.pid != me.birth.pid
    ensures Reaches(path, longer, p, me.(pc := MakeGuard, goal := Cleanup), Last(path).fs)
  {
    var fs := Last(path).fs;
    var reading, judging := me.(pc := ReadExisting), me.(pc := JudgeExisting(fs.lock.value));
    longer := Attempts(path, p, me, reading, fs);
    longer := Attempts(longer, p, reading, judging, fs);
    var facts := DeadPidIsStale(Last(longer), fs.lock.value.payload);
    longer := Attempts(longer, p, judging, me.(pc := MakeGuard, goal := Cleanup), fs);
  }

  /** An owner file its writer truthfully recorded, judged with the writer's number gone. */
  function DeadRead(boot: Boot, writer: Birth): OwnerRead {
    Parsed(JudgedOwner(ParsedLock(writer.pid, None, Some(writer.bootUuid), Some(writer.bootAt), None),
                       LockOwnerFacts(None, boot.at, Dead, None, None)))
  }

  predicate Stale(one: JudgedOwner) { HasBootGeneration(one.lock) && OwnerIsStale(one) }

  ghost predicate AllStale(found: map<GuardName, OwnerRead>) {
    forall n | n in found :: found[n].Parsed? && Stale(found[n].judged)
  }

  lemma ProbesOne(path: Run, p: ProcId, me: Proc, n: GuardName) returns (longer: Run, me': Proc)
    requires QuietPath(path) && Alone(Last(path), p, me) && me.pc.ProbeOwners? && n in me.pc.todo
    requires n.proc in Last(path).procs && n.proc != p
    ensures me'.pc.ProbeOwners? && me' == me.(pc := me'.pc) && me'.pc.todo == me.pc.todo - {n}
    ensures me'.pc.found.Keys == me.pc.found.Keys + {n} && (AllStale(me.pc.found) ==> AllStale(me'.pc.found))
    ensures Reaches(path, longer, p, me', Last(path).fs)
  {
    var read := DeadRead(Last(path).boot, Last(path).procs[n.proc].birth);
    assert ReadsOwner(Last(path), n, read);
    me' := me.(pc := ProbeOwners(me.pc.todo - {n}, me.pc.found[n := read]));
    longer := Judges(path, p, me, me', Last(path).fs);
  }

  /** Every owner file is read. */
  lemma {:induction false} ProbesAll(path: Run, p: ProcId, me: Proc, names: set<GuardName>)
    returns (longer: Run, found: map<GuardName, OwnerRead>)
    requires QuietPath(path) && Alone(Last(path), p, me) && me.pc.ProbeOwners?
    requires me.pc.todo + me.pc.found.Keys == names && AllStale(me.pc.found)
    requires OthersLeft(Last(path), p, Some(names))
    ensures found.Keys == names && AllStale(found)
    ensures Reaches(path, longer, p, me.(pc := ProbeOwners({}, found)), Last(path).fs)
    decreases |me.pc.todo|
  {
    if me.pc.todo == {} {
      longer, found := path, me.pc.found;
    } else {
      var n :| n in me.pc.todo;
      var me';
      longer, me' := ProbesOne(path, p, me, n);
      assert me'.pc.todo + me'.pc.found.Keys == names;
      longer, found := ProbesAll(longer, p, me', names);
    }
  }

  lemma {:induction false} Listed(owners: set<JudgedOwner>) returns (list: seq<JudgedOwner>)
    ensures forall one :: one in list <==> one in owners
  {
    if owners == {} {
      list := [];
    } else {
      var one :| one in owners;
      var rest := Listed(owners - {one});
      list := [one] + rest;
    }
  }

  /** With every owner stale, the guard is judged reclaimable, and so is an empty one that has aged. */
  lemma StaleGuardIsReclaimed(found: map<GuardName, OwnerRead>) returns (facts: RecoveryGuardFacts)
    requires AllStale(found)
    ensures FactsFromReads(found, facts) && JudgeRecoveryGuard(facts).Reclaim?
  {
    facts := RecoveryGuardFacts(None, [], false, Some(0), false, 0, RECOVERY_LOCK_STALE_MS);
    var judged := set n | n in found :: found[n].judged;
    forall one ensures one in judged <==> Parsed(one) in found.Values {
      if Parsed(one) in found.Values {
        var n :| n in found && found[n] == Parsed(one);
      }
    }
    if |found| == 1 {
      var n :| n in found.Keys;
      facts := facts.(owner := Some(found[n].judged));
    } else {
      var owners := Listed(judged);
      facts := facts.(owners := owners);
      if owners != [] { OwnedGuardReclaimedExactlyWhenAllStale(facts); }
    }
  }

  lemma {:induction false} DeletesAll(path: Run, p: ProcId, me: Proc) returns (longer: Run)
    requires QuietPath(path) && Alone(Last(path), p, me) && me.pc.DeleteOwners?
    requires Last(path).fs.guard == Some(me.pc.judged)
    ensures Reaches(path, longer, p, me.(pc := DeleteOwners({})), Last(path).fs.(guard := Some({})))
    decreases |me.pc.judged|
  {
    var judged, fs := me.pc.judged, Last(path).fs;
    if judged == {} {
      longer := path;
    } else {
      var n :| n in judged;
      var me' := me.(pc := DeleteOwners(judged - {n}));
      longer := Waits(path, p, me, me', fs.(guard := Without(fs.guard, n)));
      longer := DeletesAll(longer, p, me');
    }
  }

  lemma ListsGuard(path: Run, p: ProcId, me: Proc) returns (longer: Run)
    requires QuietPath(path) && Alone(Last(path), p, me) && me.pc == MakeGuard && me.abandoned == {}
    requires Last(path).fs.guard.Some?
    ensures Reaches(path, longer, p, me.(pc := ProbeOwners(Last(path).fs.guard.value, map[])), Last(path).fs)
  {
    var fs := Last(path).fs;
    longer := Waits(path, p, me, me.(pc := RemoveLeftovers), fs);
    longer := Waits(longer, p, me.(pc := RemoveLeftovers), me.(pc := ListGuard), fs);
    longer := Waits(longer, p, me.(pc := ListGuard), me.(pc := ProbeOwners(fs.guard.value, map[])), fs);
  }

  /** A guard that dead processes left is reclaimed. */
  lemma ReclaimsGuard(path: Run, p: ProcId, me: Proc) returns (longer: Run)
    requires QuietPath(path) && Alone(Last(path), p, me) && me.pc == MakeGuard && me.abandoned == {}
    requires OthersLeft(Last(path), p, Last(path).fs.guard)
    ensures Reaches(path, longer, p, me, Last(path).fs.(guard := None))
  {
    var fs := Last(path).fs;
    if fs.guard.None? {
      longer := path;
    } else {
      longer := ListsGuard(path, p, me);
      var found;
      longer, found := ProbesAll(longer, p, me.(pc := ProbeOwners(fs.guard.value, map[])), fs.guard.value);
      var facts := StaleGuardIsReclaimed(found);
      var deleting := me.(pc := DeleteOwners(fs.guard.value));
      longer := Judges(longer, p, me.(pc := ProbeOwners({}, found)), deleting, fs);
      longer := DeletesAll(longer, p, deleting);
      longer := Waits(longer, p, me.(pc := DeleteOwners({})), me.(pc := RemoveReclaimed), fs.(guard := Some({})));
      longer := Waits(longer, p, me.(pc := RemoveReclaimed), me, fs.(guard := None));
    }
  }

  lemma ClaimsGuard(path: Run, p: ProcId, me: Proc) returns (longer: Run)
    requires QuietPath(path) && Alone(Last(path), p, me) && me.pc == MakeGuard && me.goal.Cleanup?
    requires Last(path).fs.guard.None?
    ensures var mine := me.(pc := CleanRead, claims := me.claims + 1);
            Reaches(path, longer, p, mine, Last(path).fs.(guard := Some({OwnName(p, mine)})))
  {
    var fs := Last(path).fs;
    var mine := me.(claims := me.claims + 1);
    longer := Waits(path, p, me, mine.(pc := WriteOwner), fs.(guard := Some({})));
    assert {} + {OwnName(p, mine)} == {OwnName(p, mine)};
    longer := Claims(longer, p, mine.(pc := WriteOwner), mine.(pc := ListClaim), fs.(guard := Some({OwnName(p, mine)})));
    longer := Claims(longer, p, mine.(pc := ListClaim), mine.(pc := CleanRead), fs.(guard := Some({OwnName(p, mine)})));
  }

  /** Inside the guard the stale lock is replaced. */
  lemma ReplacesLock(path: Run, p: ProcId, me: Proc) returns (longer: Run)
    requires QuietPath(path) && Alone(Last(path), p, me) && me.pc == CleanRead
    requires Last(path).fs.lock.Some? && Last(path).fs.lock.value.payload.pid != me.birth.pid
    ensures Reaches(path, longer, p, me.(pc := LeaveOwner(BecomeOwner)),
                    Last(path).fs.(lock := Some(Record(p, me.payload))))
  {
    var fs := Last(path).fs;
    var current := fs.lock.value;
    longer := CleansUp(path, p, me, me.(pc := CleanJudge(current)), fs);
    var facts := DeadPidIsStale(Last(longer), current.payload);
    longer := CleansUp(longer, p, me.(pc := CleanJudge(current)), me.(pc := CleanUnlink(current)), fs);
    longer := CleansUp(longer, p, me.(pc := CleanUnlink(current)), me.(pc := CleanLink), fs.(lock := None));
    longer := CleansUp(longer, p, me.(pc := CleanLink), me.(pc := LeaveOwner(BecomeOwner)),
                   fs.(lock := Some(Record(p, me.payload))));
  }

  lemma LeavesGuard(path: Run, p: ProcId, me: Proc) returns (longer: Run)
    requires QuietPath(path) && Alone(Last(path), p, me) && me.pc == LeaveOwner(BecomeOwner)
    requires Last(path).fs.guard == Some({OwnName(p, me)})
    ensures Reaches(path, longer, p, me.(pc := Owner), Last(path).fs.(guard := None))
  {
    var fs := Last(path).fs;
    assert {OwnName(p, me)} - {OwnName(p, me)} == {};
    longer := LetsGo(path, p, me, me.(pc := LeaveGuard(BecomeOwner)), fs.(guard := Some({})));
    longer := LetsGo(longer, p, me.(pc := LeaveGuard(BecomeOwner)), me.(pc := Owner), fs.(guard := None));
  }

  /** A lone contender becomes the owner whatever dead processes left: a stale lock, an abandoned guard with any number
      of owner files, an empty guard, or all of these; and it leaves the guard path free. */
  lemma LeftoversAreRecoverable(w: World, p: ProcId, me: Proc) returns (path: Run)
    requires Alone(w, p, me) && me.pc == Link && me.abandoned == {} && OthersLeft(w, p, w.fs.guard)
    requires w.fs.lock.Some? && w.fs.lock.value.payload.pid != me.birth.pid
    ensures QuietPath(path) && path.worlds[0] == w && Alive(Last(path), p) && Last(path).procs[p].pc == Owner
    ensures Last(path).fs == Fs(Some(Record(p, me.payload)), None)
  {
    path := FindsStaleLock(Run([w], []), p, me);
    var waiting := me.(pc := MakeGuard, goal := Cleanup);
    path := ReclaimsGuard(path, p, waiting);
    path := ClaimsGuard(path, p, waiting);
    var inside := waiting.(pc := CleanRead, claims := me.claims + 1);
    path := ReplacesLock(path, p, inside);
    path := LeavesGuard(path, p, inside.(pc := LeaveOwner(BecomeOwner)));
  }
}
