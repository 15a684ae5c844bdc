/** A run from the empty file system that ends with two owners of the main lock: process 0 owns it, process 1 finds it
    held, process 0 releases, process 1 goes for the guard to clean up, process 2 links its own lock, process 1 reads that
    lock inside the guard, and process 2 releases before process 1 judges it. */
module LockWitness {
  import opened Wrappers
  import opened LockJudge
  import opened LockProtocol
  import LockProofs
  import opened LockOwnership
  import opened LockTakeover

  const BOOT := Boot("boot", 0)

  function Payload(pid: nat): ParsedLock { ParsedLock(pid, None, Some("boot"), Some(0), None) }

  function At(pid: nat, pc: Pc, claims: nat): Proc {
    Proc(true, Birth(pid, "boot", 0, 0, 0), Payload(pid), false, pc, Cleanup, 1, claims, {})
  }

  /** The three processes and the two paths; only process 1 ever makes a guard. */
  function Scene(pc0: Pc, pc1: Pc, claims1: nat, pc2: Pc, fs: Fs): World {
    World(map[0 := At(1, pc0, 0), 1 := At(2, pc1, claims1), 2 := At(3, pc2, 0)], fs, BOOT, [])
  }

  const LOCK0 := Record(0, Payload(1))
  const LOCK2 := Record(2, Payload(3))
  const NAME1 := GuardName(1, 1)

  ghost predicate Telling(path: Run) { QuietPath(path) && NumbersNotReused(path) && Init(path.worlds[0]) }

  /** `w'` is `w` after a step of `p`. */
  ghost predicate Follows(w: World, w': World, p: ProcId) {
    && Alive(w, p) && p in w'.procs && w' == Moved(w, p, w'.procs[p], w'.fs)
    && (w.procs[p].pc.ReleaseUnlink? ==> forall q :: !Judging(w, q, p))
    && PidsNeverReused(w')
  }

  lemma Told(path: Run, w': World, action: Label) returns (longer: Run)
    requires Telling(path) && QuietStep(Last(path), w', action) && PidsNeverReused(w')
    ensures Telling(longer) && Last(longer) == w'
  {
    longer := Extended(path, w', action);
  }

  lemma Acted(path: Run, w': World, p: ProcId) returns (longer: Run)
    requires Telling(path) && Follows(Last(path), w', p)
    requires || Attempt(Last(path), p, Last(path).procs[p], w'.procs[p], w'.fs)
             || CleanUp(Last(path), p, Last(path).procs[p], w'.procs[p], w'.fs)
             || WaitForGuard(Last(path), p, Last(path).procs[p], w'.procs[p], w'.fs)
             || ClaimGuard(Last(path), p, Last(path).procs[p], w'.procs[p], w'.fs)
             || LetGo(Last(path), p, Last(path).procs[p], w'.procs[p], w'.fs)
    ensures Telling(longer) && Last(longer) == w'
  {
    assert Acts(Last(path), w', p, w'.procs[p], w'.fs, None);
    longer := Told(path, w', Act(p));
  }

  // One lemma per kind of step, so that a caller proves that kind and not the disjunction of `Acted`.

  lemma AttemptActed(path: Run, w': World, p: ProcId) returns (longer: Run)
    requires Telling(path) && Follows(Last(path), w', p) && Attempt(Last(path), p, Last(path).procs[p], w'.procs[p], w'.fs)
    ensures Telling(longer) && Last(longer) == w'
  {
    longer := Acted(path, w', p);
  }

  lemma LetGoActed(path: Run, w': World, p: ProcId) returns (longer: Run)
    requires Telling(path) && Follows(Last(path), w', p) && LetGo(Last(path), p, Last(path).procs[p], w'.procs[p], w'.fs)
    ensures Telling(longer) && Last(longer) == w'
  {
    longer := Acted(path, w', p);
  }

  lemma GuardActed(path: Run, w': World, p: ProcId) returns (longer: Run)
    requires Telling(path) && Follows(Last(path), w', p)
    requires || WaitForGuard(Last(path), p, Last(path).procs[p], w'.procs[p], w'.fs)
             || ClaimGuard(Last(path), p, Last(path).procs[p], w'.procs[p], w'.fs)
    ensures Telling(longer) && Last(longer) == w'
  {
    longer := Acted(path, w', p);
  }

  lemma CleanUpActed(path: Run, w': World, p: ProcId) returns (longer: Run)
    requires Telling(path) && Follows(Last(path), w', p) && CleanUp(Last(path), p, Last(path).procs[p], w'.procs[p], w'.fs)
    ensures Telling(longer) && Last(longer) == w'
  {
    longer := Acted(path, w', p);
  }

  /** Moving one of the three leaves the others. */
  lemma SceneMoves(pc0: Pc, pc1: Pc, claims1: nat, pc2: Pc, fs: Fs, pc': Pc, claims': nat, fs': Fs)
    ensures Moved(Scene(pc0, pc1, claims1, pc2, fs), 0, At(1, pc', 0), fs') == Scene(pc', pc1, claims1, pc2, fs')
    ensures Moved(Scene(pc0, pc1, claims1, pc2, fs), 1, At(2, pc', claims'), fs') == Scene(pc0, pc', claims', pc2, fs')
    ensures Moved(Scene(pc0, pc1, claims1, pc2, fs), 2, At(3, pc', 0), fs') == Scene(pc0, pc1, claims1, pc', fs')
  {
    var procs := Scene(pc0, pc1, claims1, pc2, fs).procs;
    assert procs[0 := At(1, pc', 0)] == Scene(pc', pc1, claims1, pc2, fs').procs;
    assert procs[1 := At(2, pc', claims')] == Scene(pc0, pc', claims', pc2, fs').procs;
    assert procs[2 := At(3, pc', 0)] == Scene(pc0, pc1, claims1, pc', fs').procs;
  }

  lemma Started(path: Run, w': World, p: ProcId, pid: nat) returns (longer: Run)
    requires Telling(path) && Last(path).boot == BOOT && p !in Last(path).procs
    requires forall q | q in Last(path).procs :: Last(path).procs[q].birth.pid != pid
    requires w' == Last(path).(procs := Last(path).procs[p := At(pid, Link, 0)])
    ensures Telling(longer) && Last(longer) == w'
  {
    assert PidsNeverReused(Last(path));
    assert Newborn(Last(path), At(pid, Link, 0));
    longer := Told(path, w', Start(p));
  }

  lemma AllStarted() returns (path: Run)
    ensures Telling(path) && Last(path) == Scene(Link, Link, 0, Link, Fs(None, None))
  {
    var w0 := World(map[], Fs(None, None), BOOT, []);
    var w1 := w0.(procs := map[0 := At(1, Link, 0)]);
    var w2 := w0.(procs := map[0 := At(1, Link, 0), 1 := At(2, Link, 0)]);
    var w3 := Scene(Link, Link, 0, Link, Fs(None, None));
    assert w1.procs == w0.procs[0 := At(1, Link, 0)] && w2.procs == w1.procs[1 := At(2, Link, 0)];
    assert w3.procs == w2.procs[2 := At(3, Link, 0)];
    path := Run([w0], []);
    path := Started(path, w1, 0, 1);
    path := Started(path, w2, 1, 2);
    path := Started(path, w3, 2, 3);
  }

  /** Process 0 owns the lock and process 1 is turned away. */
  lemma FirstOwner() returns (path: Run)
    ensures Telling(path) && Last(path) == Scene(Owner, ReadExisting, 0, Link, Fs(Some(LOCK0), None))
  {
    var free, held := Fs(None, None), Fs(Some(LOCK0), None);
    path := AllStarted();
    SceneMoves(Link, Link, 0, Link, free, Owner, 0, held);
    path := AttemptActed(path, Scene(Owner, Link, 0, Link, held), 0);
    SceneMoves(Owner, Link, 0, Link, held, ReadExisting, 0, held);
    path := AttemptActed(path, Scene(Owner, ReadExisting, 0, Link, held), 1);
  }

  /** Process 0 is about to release. */
  lemma FirstOwnerLeaves() returns (path: Run)
    ensures Telling(path) && Last(path) == Scene(ReleaseUnlink, ReadExisting, 0, Link, Fs(Some(LOCK0), None))
  {
    var held := Fs(Some(LOCK0), None);
    path := FirstOwner();
    SceneMoves(Owner, ReadExisting, 0, Link, held, ReleaseRead, 0, held);
    path := LetGoActed(path, Scene(ReleaseRead, ReadExisting, 0, Link, held), 0);
    SceneMoves(ReleaseRead, ReadExisting, 0, Link, held, ReleaseUnlink, 0, held);
    path := LetGoActed(path, Scene(ReleaseUnlink, ReadExisting, 0, Link, held), 0);
  }

  /** Process 0 has released. */
  lemma FirstOwnerGone() returns (path: Run)
    ensures Telling(path) && Last(path) == Scene(Done, ReadExisting, 0, Link, Fs(None, None))
  {
    var held, free := Fs(Some(LOCK0), None), Fs(None, None);
    path := FirstOwnerLeaves();
    SceneMoves(ReleaseUnlink, ReadExisting, 0, Link, held, Done, 0, free);
    assert LetGo(Last(path), 0, At(1, ReleaseUnlink, 0), At(1, Done, 0), free);
    path := LetGoActed(path, Scene(Done, ReadExisting, 0, Link, free), 0);
  }

  /** Process 1 found no lock and wants the guard, and process 2 owns the lock. */
  lemma SecondOwner() returns (path: Run)
    ensures Telling(path) && Last(path) == Scene(Done, MakeGuard, 0, Owner, Fs(Some(LOCK2), None))
  {
    var free, held := Fs(None, None), Fs(Some(LOCK2), None);
    path := FirstOwnerGone();
    SceneMoves(Done, ReadExisting, 0, Link, free, MakeGuard, 0, free);
    path := AttemptActed(path, Scene(Done, MakeGuard, 0, Link, free), 1);
    SceneMoves(Done, MakeGuard, 0, Link, free, Owner, 0, held);
    path := AttemptActed(path, Scene(Done, MakeGuard, 0, Owner, held), 2);
  }

  /** Process 1 has made the guard directory. */
  lemma CleanerMadeGuard() returns (path: Run)
    ensures Telling(path) && Last(path) == Scene(Done, WriteOwner, 1, Owner, Fs(Some(LOCK2), Some({})))
  {
    var open, made := Fs(Some(LOCK2), None), Fs(Some(LOCK2), Some({}));
    path := SecondOwner();
    SceneMoves(Done, MakeGuard, 0, Owner, open, WriteOwner, 1, made);
    path := GuardActed(path, Scene(Done, WriteOwner, 1, Owner, made), 1);
  }

  /** Process 1 holds the guard. */
  lemma CleanerInGuard() returns (path: Run)
    ensures Telling(path) && Last(path) == Scene(Done, CleanRead, 1, Owner, Fs(Some(LOCK2), Some({NAME1})))
  {
    var made, mine := Fs(Some(LOCK2), Some({})), Fs(Some(LOCK2), Some({NAME1}));
    path := CleanerMadeGuard();
    assert {} + {NAME1} == {NAME1};
    SceneMoves(Done, WriteOwner, 1, Owner, made, ListClaim, 1, mine);
    path := GuardActed(path, Scene(Done, ListClaim, 1, Owner, mine), 1);
    SceneMoves(Done, ListClaim, 1, Owner, mine, CleanRead, 1, mine);
    path := GuardActed(path, Scene(Done, CleanRead, 1, Owner, mine), 1);
  }

  /** Process 1 has read the lock of process 2, which is about to release it. */
  lemma LockUnderJudgement() returns (path: Run)
    ensures Telling(path)
    ensures Last(path) == Scene(Done, CleanJudge(LOCK2), 1, ReleaseUnlink, Fs(Some(LOCK2), Some({NAME1})))
  {
    var fs := Fs(Some(LOCK2), Some({NAME1}));
    path := CleanerInGuard();
    SceneMoves(Done, CleanRead, 1, Owner, fs, CleanJudge(LOCK2), 1, fs);
    path := CleanUpActed(path, Scene(Done, CleanJudge(LOCK2), 1, Owner, fs), 1);
    SceneMoves(Done, CleanJudge(LOCK2), 1, Owner, fs, ReleaseRead, 0, fs);
    path := LetGoActed(path, Scene(Done, CleanJudge(LOCK2), 1, ReleaseRead, fs), 2);
    SceneMoves(Done, CleanJudge(LOCK2), 1, ReleaseRead, fs, ReleaseUnlink, 0, fs);
    path := LetGoActed(path, Scene(Done, CleanJudge(LOCK2), 1, ReleaseUnlink, fs), 2);
  }

  /** A release under the judgement of a stale cleanup is reachable from the empty file system, by a run that had none
      before and in which no number is reused. */
  lemma ReleaseUnderCleanupHappens() returns (run: Run, w': World, action: Label)
    ensures IsRun(run) && Undisturbed(run) && NumbersNotReused(run)
    ensures Step(Last(run), w', action) && ReleasedUnderCleanup(Last(run), w', action)
  {
    run := LockUnderJudgement();
    var fs, fs' := Fs(Some(LOCK2), Some({NAME1})), Fs(None, Some({NAME1}));
    SceneMoves(Done, CleanJudge(LOCK2), 1, ReleaseUnlink, fs, Done, 0, fs');
    w', action := Scene(Done, CleanJudge(LOCK2), 1, Done, fs'), Act(2);
    assert LetGo(Last(run), 2, Last(run).procs[2], w'.procs[2], fs');
    assert Acts(Last(run), w', 2, w'.procs[2], fs', None);
    assert Judging(Last(run), 1, 2);
  }

  lemma Prolonged(first: Run, w': World, action: Label, second: Run) returns (run: Run)
    requires IsPath(first) && IsPath(second) && Step(Last(first), w', action) && second.worlds[0] == w'
    ensures IsPath(run) && run.worlds[0] == first.worlds[0] && Last(run) == Last(second)
  {
    run := Run(first.worlds + second.worlds, first.labels + [action] + second.labels);
    forall i | 0 <= i < |run.labels| ensures Step(run.worlds[i], run.worlds[i + 1], run.labels[i]) {
      if i < |first.labels| {
        assert run.worlds[i] == first.worlds[i] && run.worlds[i + 1] == first.worlds[i + 1];
        assert run.labels[i] == first.labels[i];
      } else if i > |first.labels| {
        var k := i - |first.labels| - 1;
        assert run.worlds[i] == second.worlds[k] && run.worlds[i + 1] == second.worlds[k + 1];
        assert run.labels[i] == second.labels[k];
      }
    }
  }

  /** The main lock is not exclusive in general: a run from the empty file system ends with two owners. */
  lemma TwoOwnersHappen() returns (run: Run)
    ensures IsRun(run) && !AtMostOne(Last(run), pc => HoldsLock(pc))
  {
    var first, w', action := ReleaseUnderCleanupHappens();
    PathKeepsOwnInv(first, |first.worlds| - 1);
    var second := DisturbedWorldBreaks(Last(first), w', action.p);
    run := Prolonged(first, w', action, second);
  }

  // ---------------------------------------------------------------- five attempts

  /** A lone contender, in its `n`-th attempt or after it. */
  function Trying(pc: Pc, n: nat): World { World(map[0 := At(1, pc, 0).(tries := n)], Fs(None, None), BOOT, []) }

  /** A race ends the attempt. */
  lemma Races(path: Run, n: nat, pc: Pc, n': nat) returns (longer: Run)
    requires Telling(path) && Last(path) == Trying(Link, n)
    requires At(1, pc, 0).(tries := n') == RetryOrFail(At(1, Link, 0).(tries := n))
    ensures Telling(longer) && Last(longer) == Trying(pc, n')
  {
    var w := Last(path);
    assert w.procs[0 := Trying(pc, n').procs[0]] == Trying(pc, n').procs;
    longer := AttemptActed(path, Trying(pc, n'), 0);
  }

  /** The bound on attempts is reached: a run in which races send a contender back four times, and the race that ends its
      fifth attempt ends it. */
  lemma FiveAttemptsHappen() returns (run: Run)
    ensures IsRun(run) && LockProofs.Attempts(run, |run.labels|, 0) == 5
    ensures Alive(Last(run), 0) && Last(run).procs[0].pc == Done
  {
    var w0 := World(map[], Fs(None, None), BOOT, []);
    assert Trying(Link, 1).procs == w0.procs[0 := At(1, Link, 0)];
    run := Started(Run([w0], []), Trying(Link, 1), 0, 1);
    run := Races(run, 1, Link, 2);
    run := Races(run, 2, Link, 3);
    run := Races(run, 3, Link, 4);
    run := Races(run, 4, Link, 5);
    run := Races(run, 5, Done, 5);
    LockProofs.AttemptsAreCounted(run, |run.labels|, 0);
  }
}
