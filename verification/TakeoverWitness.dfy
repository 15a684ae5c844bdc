/** A takeover that succeeds, from the empty file system: process 1, started with --force, finds the lock of the running
    process 0, signals it inside the guard, sees it go, and becomes the owner. */
module TakeoverWitness {
  import opened Wrappers
  import opened LockJudge
  import opened LockProtocol
  import opened LockOwnership
  import opened LockTakeover
  import opened LockWitness

  const LOCK1 := Record(1, Payload(2))
  const OPEN := Fs(Some(LOCK0), None)
  const MINE := Fs(Some(LOCK0), Some({NAME1}))
  const SIGTERM := [Signal(1, LOCK0, LOCK0)]

  function Forced(pc: Pc, goal: Goal, claims: nat): Proc { At(2, pc, claims).(force := true, goal := goal) }

  function Scene2(runs0: bool, pc0: Pc, me1: Proc, fs: Fs, signals: seq<Signal>): World {
    World(map[0 := At(1, pc0, 0).(alive := runs0), 1 := me1], fs, BOOT, signals)
  }

  /** The story goes on with world `w'`. */
  ghost predicate GoesOn(path: Run, longer: Run, w': World) {
    Telling(longer) && Last(longer) == w' && path.worlds <= longer.worlds
  }

  lemma Tell(path: Run, w': World, action: Label) returns (longer: Run)
    requires Telling(path) && QuietStep(Last(path), w', action) && PidsNeverReused(w')
    ensures GoesOn(path, longer, w')
  {
    longer := Extended(path, w', action);
  }

  lemma Scene2Moves(runs0: bool, pc0: Pc, me1: Proc, me1': Proc, fs: Fs, fs': Fs, signals: seq<Signal>, more: seq<Signal>)
    ensures var w := Scene2(runs0, pc0, me1, fs, signals);
            World(w.procs[1 := me1'], fs', BOOT, signals + more) == Scene2(runs0, pc0, me1', fs', signals + more)
    ensures me1.birth.pid != 1 ==> PidsNeverReused(Scene2(runs0, pc0, me1, fs, signals))
  {
    var w := Scene2(runs0, pc0, me1, fs, signals);
    assert w.procs[1 := me1'] == Scene2(runs0, pc0, me1', fs', signals + more).procs;
  }

  /** Process 1 takes a step of a takeover. */
  lemma TakesStep(path: Run, pc0: Pc, runs0: bool, me: Proc, pc': Pc, fs: Fs, fs': Fs, signals: seq<Signal>, killed: Option<Record>)
    returns (longer: Run)
    requires Telling(path) && Last(path) == Scene2(runs0, pc0, me, fs, signals)
    requires me == Forced(me.pc, me.goal, me.claims) && me.goal.Takeover? && !me.pc.ReleaseUnlink?
    requires TakeOver(Last(path), 1, me, me.(pc := pc'), fs', killed)
    ensures GoesOn(path, longer, Scene2(runs0, pc0, me.(pc := pc'), fs',
                     signals + if killed.Some? then [Signal(1, me.goal.observed, killed.value)] else []))
  {
    var more := if killed.Some? then [Signal(1, me.goal.observed, killed.value)] else [];
    var w' := Scene2(runs0, pc0, me.(pc := pc'), fs', signals + more);
    Scene2Moves(runs0, pc0, me, me.(pc := pc'), fs, fs', signals, more);
    Scene2Moves(runs0, pc0, me.(pc := pc'), me.(pc := pc'), fs', fs', signals + more, []);
    assert Acts(Last(path), w', 1, me.(pc := pc'), fs', killed);
    longer := Tell(path, w', Act(1));
  }

  /** Process 1 takes any other step. */
  lemma OtherStep(path: Run, pc0: Pc, me: Proc, me': Proc, fs: Fs, fs': Fs, signals: seq<Signal>, runs0: bool)
    returns (longer: Run)
    requires Telling(path) && Last(path) == Scene2(runs0, pc0, me, fs, signals)
    requires me.alive && me.birth.pid == 2 && me'.birth == me.birth && !me.pc.ReleaseUnlink?
    requires || Attempt(Last(path), 1, me, me', fs') || WaitForGuard(Last(path), 1, me, me', fs')
             || ClaimGuard(Last(path), 1, me, me', fs') || LetGo(Last(path), 1, me, me', fs')
    ensures GoesOn(path, longer, Scene2(runs0, pc0, me', fs', signals))
  {
    var w' := Scene2(runs0, pc0, me', fs', signals);
    Scene2Moves(runs0, pc0, me, me', fs, fs', signals, []);
    Scene2Moves(runs0, pc0, me', me', fs', fs', signals, []);
    assert signals + [] == signals;
    assert Acts(Last(path), w', 1, me', fs', None);
    longer := Tell(path, w', Act(1));
  }

  /** Process 0 owns the lock; process 1 is about to try. */
  lemma OwnerRuns() returns (path: Run)
    ensures Telling(path) && Last(path) == Scene2(true, Owner, Forced(Link, Cleanup, 0), OPEN, [])
  {
    var w0 := World(map[], Fs(None, None), BOOT, []);
    var w1 := w0.(procs := map[0 := At(1, Link, 0)]);
    var w2 := World(map[0 := At(1, Owner, 0)], OPEN, BOOT, []);
    var w3 := Scene2(true, Owner, Forced(Link, Cleanup, 0), OPEN, []);
    assert w1.procs == w0.procs[0 := At(1, Link, 0)] && w2.procs == w1.procs[0 := At(1, Owner, 0)];
    assert w3.procs == w2.procs[1 := Forced(Link, Cleanup, 0)];
    path := Run([w0], []);
    path := Started(path, w1, 0, 1);
    path := AttemptActed(path, w2, 0);
    assert Newborn(w2, Forced(Link, Cleanup, 0));
    path := Tell(path, w3, Start(1));
  }

  lemma OwnerIsKept(w: World)
    requires w == Scene2(true, Owner, Forced(JudgeExisting(LOCK0), Cleanup, 0), OPEN, [])
    ensures Attempt(w, 1, w.procs[1], Forced(MakeGuard, Takeover(LOCK0), 0), OPEN)
  {
    var facts := LockOwnerFacts(Some("boot"), 0, Present, None, None);
    assert Probed(w, LOCK0.payload.pid, facts) && JudgeLockOwner(LOCK0.payload, facts).Kept?;
  }

  /** Process 1 has found a running owner and wants to take over. */
  lemma WantsToTakeOver() returns (path: Run)
    ensures Telling(path) && Last(path) == Scene2(true, Owner, Forced(MakeGuard, Takeover(LOCK0), 0), OPEN, [])
  {
    var link, reading := Forced(Link, Cleanup, 0), Forced(ReadExisting, Cleanup, 0);
    var judging := Forced(JudgeExisting(LOCK0), Cleanup, 0);
    path := OwnerRuns();
    path := OtherStep(path, Owner, link, reading, OPEN, OPEN, [], true);
    path := OtherStep(path, Owner, reading, judging, OPEN, OPEN, [], true);
    OwnerIsKept(Last(path));
    path := OtherStep(path, Owner, judging, Forced(MakeGuard, Takeover(LOCK0), 0), OPEN, OPEN, [], true);
  }

  /** Process 1 holds the guard. */
  lemma GuardTaken() returns (path: Run)
    ensures Telling(path) && Last(path) == Scene2(true, Owner, Forced(TakeRead, Takeover(LOCK0), 1), MINE, [])
  {
    var goal, made := Takeover(LOCK0), Fs(Some(LOCK0), Some({}));
    path := WantsToTakeOver();
    path := OtherStep(path, Owner, Forced(MakeGuard, goal, 0), Forced(WriteOwner, goal, 1), OPEN, made, [], true);
    assert {} + {NAME1} == {NAME1};
    path := OtherStep(path, Owner, Forced(WriteOwner, goal, 1), Forced(ListClaim, goal, 1), made, MINE, [], true);
    path := OtherStep(path, Owner, Forced(ListClaim, goal, 1), Forced(TakeRead, goal, 1), MINE, MINE, [], true);
  }

  /** The running owner has been signalled. */
  lemma OwnerSignalled() returns (path: Run)
    ensures Telling(path) && Last(path) == Scene2(true, Owner, Forced(TakeWait(LOCK0), Takeover(LOCK0), 1), MINE, SIGTERM)
  {
    var goal := Takeover(LOCK0);
    path := GuardTaken();
    path := TakesStep(path, Owner, true, Forced(TakeRead, goal, 1), TakeCheck(Some(LOCK0)), MINE, MINE, [], None);
    path := TakesStep(path, Owner, true, Forced(TakeCheck(Some(LOCK0)), goal, 1), TakeWait(LOCK0), MINE, MINE, [], Some(LOCK0));
  }

  /** The owner is gone, and process 1 has seen so. */
  lemma OwnerGone() returns (path: Run, signalled: World)
    ensures Telling(path) && Last(path) == Scene2(false, Owner, Forced(TakeReread(LOCK0), Takeover(LOCK0), 1), MINE, SIGTERM)
    ensures signalled in path.worlds && Alive(signalled, 0) && signalled.procs[0].pc == Owner && signalled.signals == SIGTERM
  {
    var before := OwnerSignalled();
    signalled := Last(before);
    var me := Forced(TakeWait(LOCK0), Takeover(LOCK0), 1);
    var w' := Scene2(false, Owner, me, MINE, SIGTERM);
    assert signalled.procs[0 := signalled.procs[0].(alive := false)] == w'.procs;
    Scene2Moves(false, Owner, me, me, MINE, MINE, SIGTERM, []);
    path := Tell(before, w', Crash(0));
    assert signalled in path.worlds;
    var longer := TakesStep(path, Owner, false, me, TakeReread(LOCK0), MINE, MINE, SIGTERM, None);
    assert SIGTERM + [] == SIGTERM;
    path := longer;
  }

  /** `signalled` is a moment at which the owner was running and had been signalled. */
  ghost predicate SignalledIn(path: Run, signalled: World) {
    signalled in path.worlds && Alive(signalled, 0) && signalled.procs[0].pc == Owner && signalled.signals == SIGTERM
  }

  /** A step of the takeover after the signal. */
  lemma TakesOn(path: Run, pc: Pc, pc': Pc, fs: Fs, fs': Fs, signalled: World) returns (longer: Run)
    requires Telling(path) && SignalledIn(path, signalled) && !pc.ReleaseUnlink?
    requires Last(path) == Scene2(false, Owner, Forced(pc, Takeover(LOCK0), 1), fs, SIGTERM)
    requires TakeOver(Last(path), 1, Forced(pc, Takeover(LOCK0), 1), Forced(pc', Takeover(LOCK0), 1), fs', None)
    ensures Telling(longer) && SignalledIn(longer, signalled)
    ensures Last(longer) == Scene2(false, Owner, Forced(pc', Takeover(LOCK0), 1), fs', SIGTERM)
  {
    longer := TakesStep(path, Owner, false, Forced(pc, Takeover(LOCK0), 1), pc', fs, fs', SIGTERM, None);
    assert SIGTERM + [] == SIGTERM;
  }

  /** Process 1 lets go of the guard. */
  lemma LetsGoOn(path: Run, pc: Pc, pc': Pc, fs: Fs, fs': Fs, signalled: World) returns (longer: Run)
    requires Telling(path) && SignalledIn(path, signalled) && !pc.ReleaseUnlink?
    requires Last(path) == Scene2(false, Owner, Forced(pc, Takeover(LOCK0), 1), fs, SIGTERM)
    requires LetGo(Last(path), 1, Forced(pc, Takeover(LOCK0), 1), Forced(pc', Takeover(LOCK0), 1), fs')
    ensures Telling(longer) && SignalledIn(longer, signalled)
    ensures Last(longer) == Scene2(false, Owner, Forced(pc', Takeover(LOCK0), 1), fs', SIGTERM)
  {
    var me, me' := Forced(pc, Takeover(LOCK0), 1), Forced(pc', Takeover(LOCK0), 1);
    longer := OtherStep(path, Owner, me, me', fs, fs', SIGTERM, false);
  }

  /** The lock is still that of the dead owner. */
  lemma DeadLockFound() returns (path: Run, signalled: World)
    ensures Telling(path) && SignalledIn(path, signalled)
    ensures Last(path) == Scene2(false, Owner, Forced(TakeLatest(Some(LOCK0)), Takeover(LOCK0), 1), MINE, SIGTERM)
  {
    path, signalled := OwnerGone();
    path := TakesOn(path, TakeReread(LOCK0), TakeRecheck(LOCK0), MINE, MINE, signalled);
    path := TakesOn(path, TakeRecheck(LOCK0), TakeLatest(Some(LOCK0)), MINE, MINE, signalled);
  }

  /** Process 1 has removed it. */
  lemma DeadLockRemoved() returns (path: Run, signalled: World)
    ensures Telling(path) && SignalledIn(path, signalled)
    ensures Last(path) == Scene2(false, Owner, Forced(TakeLink, Takeover(LOCK0), 1), Fs(None, Some({NAME1})), SIGTERM)
  {
    path, signalled := DeadLockFound();
    path := TakesOn(path, TakeLatest(Some(LOCK0)), TakeJudge(LOCK0, LOCK0), MINE, MINE, signalled);
    path := TakesOn(path, TakeJudge(LOCK0, LOCK0), TakeUnlink(LOCK0, LOCK0), MINE, MINE, signalled);
    path := TakesOn(path, TakeUnlink(LOCK0, LOCK0), TakeLink, MINE, Fs(None, Some({NAME1})), signalled);
  }

  /** Process 1 has published its own lock, still inside the guard. */
  lemma LockTaken() returns (path: Run, signalled: World)
    ensures Telling(path) && SignalledIn(path, signalled)
    ensures Last(path) == Scene2(false, Owner, Forced(LeaveOwner(BecomeOwner), Takeover(LOCK0), 1),
                                 Fs(Some(LOCK1), Some({NAME1})), SIGTERM)
  {
    path, signalled := DeadLockRemoved();
    path := TakesOn(path, TakeLink, LeaveOwner(BecomeOwner), Fs(None, Some({NAME1})), Fs(Some(LOCK1), Some({NAME1})),
                    signalled);
  }

  /** A takeover can succeed: from the empty file system, a contender with --force signals a running owner, the owner goes,
      and the contender ends as the owner, with its record on the path and the guard path free. */
  lemma TakeoverHappens() returns (run: Run, signalled: World)
    ensures IsRun(run) && Undisturbed(run) && NumbersNotReused(run) && SignalledIn(run, signalled)
    ensures !Alive(Last(run), 0) && Alive(Last(run), 1) && Last(run).procs[1].pc == Owner
    ensures Last(run).fs == Fs(Some(LOCK1), None) && Last(run).signals == SIGTERM
  {
    var after := BecomeOwner;
    run, signalled := LockTaken();
    assert {NAME1} - {NAME1} == {};
    run := LetsGoOn(run, LeaveOwner(after), LeaveGuard(after), Fs(Some(LOCK1), Some({NAME1})), Fs(Some(LOCK1), Some({})),
                    signalled);
    run := LetsGoOn(run, LeaveGuard(after), Owner, Fs(Some(LOCK1), Some({})), Fs(Some(LOCK1), None), signalled);
  }
}
