/** The lockfile protocol of agent-lockfile.ts as interleaved processes over two paths: the lock (absent or one
    record) and the recovery guard (absent or a directory of uniquely named owner files). One step is one system
    call of one process, a process start or death, or a reboot. */
module LockProtocol {
  import opened Wrappers
  import opened LockJudge

  const MAX_ACQUIRE_ATTEMPTS: nat := 5

  type ProcId = nat

  /** `owner-<pid>-<uuid>.json`: never shared by two claims. */
  datatype GuardName = GuardName(proc: ProcId, claim: nat)

  /** A published lock: the payload, and (for the proofs) which process run wrote it. */
  datatype Record = Record(writer: ProcId, payload: ParsedLock)

  datatype Fs = Fs(lock: Option<Record>, guard: Option<set<GuardName>>)

  /** What reading and judging one guard owner file gave; `TornDead` is an unfinished file whose pid is gone. */
  datatype OwnerRead = Parsed(judged: JudgedOwner) | TornDead

  /** Why a process waits for the guard; a takeover remembers the owner it observed before waiting. */
  datatype Goal = Cleanup | Takeover(observed: Record)

  /** What follows once the guard is let go. */
  datatype After = BecomeOwner | Restart | GiveUp

  /** Program counters, each named after the system call (or probe) to be made next. */
  datatype Pc =
    // attemptAcquire
    | Link
    | ReadExisting
    | JudgeExisting(seen: Record)
    // acquireRecoveryLock, reclaimStaleRecoveryLock
    | MakeGuard
    | RemoveLeftovers
    | ListGuard
    | ProbeOwners(todo: set<GuardName>, found: map<GuardName, OwnerRead>)
    | DeleteOwners(judged: set<GuardName>)
    | RemoveReclaimed
    // claimRecoveryGuard, discardRecoveryGuardClaim
    | WriteOwner
    | ListClaim
    | DiscardOwner(failing: bool)
    | DiscardGuard(failing: bool)
    // reclaimAndCreate, createAfterCleanup: inside the guard
    | CleanRead
    | CleanJudge(current: Record)
    | CleanUnlink(current: Record)
    | CleanLink
    // the --force takeover: inside the guard
    | TakeRead
    | TakeCheck(owner: Option<Record>)
    | TakeWait(victim: Record)
    | TakeReread(victim: Record)
    | TakeRecheck(current: Record)
    | TakeLatest(expected: Option<Record>)
    | TakeJudge(known: Record, latest: Record)
    | TakeUnlink(known: Record, latest: Record)
    | TakeLink
    // releaseRecoveryGuard
    | LeaveOwner(after: After)
    | LeaveGuard(after: After)
    // the release handle, safeUnlinkOwn
    | Owner
    | ReleaseRead
    | ReleaseUnlink
    | Done

  datatype Proc = Proc(
    alive: bool, birth: Birth, payload: ParsedLock, force: bool,
    pc: Pc, goal: Goal, tries: nat, claims: nat, abandoned: set<GuardName>)

  datatype Boot = Boot(uuid: string, at: int)

  /** SIGTERM or SIGKILL sent by a takeover: the record it observed before waiting, and the record it acts on. */
  datatype Signal = Signal(sender: ProcId, observed: Record, target: Record)

  datatype World = World(procs: map<ProcId, Proc>, fs: Fs, boot: Boot, signals: seq<Signal>)

  // ---------------------------------------------------------------- observations

  ghost predicate Alive(w: World, p: ProcId) { p in w.procs && w.procs[p].alive }

  /** No running process of this program uses the number; `isPidAlive` can answer "no" only then. */
  ghost predicate PidFree(w: World, pid: nat) {
    forall p | p in w.procs :: w.procs[p].alive ==> w.procs[p].birth.pid != pid
  }

  /** Facts probed about `pid` in this world. Another program may hold a number that no process here uses. */
  ghost predicate Probed(w: World, pid: nat, facts: LockOwnerFacts) {
    && ProbedFrom(facts, w.boot.uuid, w.boot.at, None, BOOT_TIME_TOLERANCE_MS, PID_START_TOLERANCE_MS)
    && forall p | p in w.procs :: w.procs[p].alive && w.procs[p].birth.pid == pid ==>
         ProbedFrom(facts, w.boot.uuid, w.boot.at, Some(w.procs[p].birth), BOOT_TIME_TOLERANCE_MS, PID_START_TOLERANCE_MS)
  }

  ghost predicate WritesTruth(me: Proc, payload: ParsedLock) { WrittenBy(payload, me.birth, BOOT_TIME_TOLERANCE_MS) }

  /** Reading owner file `n` and probing its pid can give `read`: a payload its writer recorded, with facts about that
      pid, or an unfinished file whose pid nobody uses. (An unreadable file ends the attempt: see ProbeOwners.) */
  ghost predicate ReadsOwner(w: World, n: GuardName, read: OwnerRead) {
    && n.proc in w.procs
    && match read
       case Parsed(judged) =>
         && WritesTruth(w.procs[n.proc], judged.lock) && HasBootGeneration(judged.lock)
         && Probed(w, judged.lock.pid, judged.facts)
       case TornDead => PidFree(w, w.procs[n.proc].birth.pid)
  }

  /** How the judged owner reads become the facts of judgeRecoveryGuard. */
  ghost predicate FactsFromReads(found: map<GuardName, OwnerRead>, facts: RecoveryGuardFacts) {
    && !facts.ownerUnreadable
    && (facts.guardEmpty ==> found == map[])
    && (if facts.owner.Some? then
          |found| == 1 && facts.owners == [] && Parsed(facts.owner.value) in found.Values
        else
          && (|found| == 1 ==> facts.owners == [])
          && (forall one :: one in facts.owners <==> Parsed(one) in found.Values))
  }

  // ---------------------------------------------------------------- one step of a running process

  function OwnName(p: ProcId, me: Proc): GuardName { GuardName(p, me.claims) }

  function Without(guard: Option<set<GuardName>>, name: GuardName): Option<set<GuardName>> {
    if guard.Some? then Some(guard.value - {name}) else None
  }

  function RemoveIfEmpty(guard: Option<set<GuardName>>): Option<set<GuardName>> {
    if guard == Some({}) then None else guard
  }

  /** ELOCKRACE: attemptAcquire starts over, up to MAX_ACQUIRE_ATTEMPTS times in all. */
  function RetryOrFail(me: Proc): Proc {
    if me.tries >= MAX_ACQUIRE_ATTEMPTS then me.(pc := Done) else me.(pc := Link, tries := me.tries + 1)
  }

  function Depart(me: Proc, after: After): Proc {
    match after
    case BecomeOwner => me.(pc := Owner)
    case Restart => RetryOrFail(me)
    case GiveUp => me.(pc := Done)
  }

  ghost predicate Attempt(w: World, p: ProcId, me: Proc, me': Proc, fs': Fs) {
    match me.pc
    case Link =>
      || (w.fs.lock.None? && me' == me.(pc := Owner) && fs' == w.fs.(lock := Some(Record(p, me.payload))))
      || (w.fs.lock.Some? && me' == me.(pc := ReadExisting) && fs' == w.fs)
      || ((me' == RetryOrFail(me) || me' == me.(pc := Done)) && fs' == w.fs)
    case ReadExisting =>
      && fs' == w.fs
      && (|| (w.fs.lock.None? && me' == me.(pc := MakeGuard, goal := Cleanup))
          || (w.fs.lock.Some? && me' == me.(pc := JudgeExisting(w.fs.lock.value)))
          || me' == me.(pc := Done))
    case JudgeExisting(seen) =>
      && fs' == w.fs
      && (exists facts | Probed(w, seen.payload.pid, facts) ::
            if JudgeLockOwner(seen.payload, facts).Stale? then me' == me.(pc := MakeGuard, goal := Cleanup)
            else me' == me.(pc := Done) || (me.force && me' == me.(pc := MakeGuard, goal := Takeover(seen))))
    case _ => false
  }

  ghost predicate WaitForGuard(w: World, p: ProcId, me: Proc, me': Proc, fs': Fs) {
    match me.pc
    case MakeGuard =>
      || (w.fs.guard.None? && me' == me.(pc := WriteOwner, claims := me.claims + 1) && fs' == w.fs.(guard := Some({})))
      || (w.fs.guard.Some? && me' == me.(pc := RemoveLeftovers) && fs' == w.fs)
      || ((me' == me || me' == me.(pc := Done)) && fs' == w.fs)
    case RemoveLeftovers =>
      || (exists n | n in me.abandoned ::
            me' == me.(abandoned := me.abandoned - {n}) && fs' == w.fs.(guard := Without(w.fs.guard, n)))
      || (me.abandoned == {} && me' == me.(pc := ListGuard) && fs' == w.fs)
      || ((me' == me.(pc := MakeGuard) || me' == me.(pc := Done)) && fs' == w.fs)
    case ListGuard =>
      && fs' == w.fs
      && (|| (w.fs.guard.Some? && me' == me.(pc := ProbeOwners(w.fs.guard.value, map[])))
          || me' == me.(pc := ProbeOwners({}, map[])))
    case DeleteOwners(judged) =>
      || (exists n | n in judged && w.fs.guard.Some? && n in w.fs.guard.value ::
            me' == me.(pc := DeleteOwners(judged - {n})) && fs' == w.fs.(guard := Without(w.fs.guard, n)))
      || (judged == {} && me' == me.(pc := RemoveReclaimed) && fs' == w.fs)
      || ((me' == me.(pc := MakeGuard) || me' == me.(pc := Done)) && fs' == w.fs)
    case RemoveReclaimed =>
      || (me' == me.(pc := MakeGuard) && fs' == w.fs.(guard := RemoveIfEmpty(w.fs.guard)))
      || ((me' == me.(pc := MakeGuard) || me' == me.(pc := Done)) && fs' == w.fs)
    case _ => false
  }

  /** probeRecoveryGuard and judgeRecoveryGuard, one owner file at a time. */
  ghost predicate JudgeGuard(w: World, me: Proc, me': Proc, fs': Fs) {
    && me.pc.ProbeOwners?
    && fs' == w.fs
    && (|| (exists n, read | n in me.pc.todo && ReadsOwner(w, n, read) ::
              me' == me.(pc := ProbeOwners(me.pc.todo - {n}, me.pc.found[n := read])))
        || (me.pc.todo == {} && exists facts | FactsFromReads(me.pc.found, facts) ::
              JudgeRecoveryGuard(facts).Reclaim? && me' == me.(pc := DeleteOwners(me.pc.found.Keys)))
        || me' == me.(pc := MakeGuard)
        || me' == me.(pc := Done))
  }

  ghost predicate ClaimGuard(w: World, p: ProcId, me: Proc, me': Proc, fs': Fs) {
    match me.pc
    case WriteOwner =>
      || (w.fs.guard.None? && me' == me.(pc := MakeGuard) && fs' == w.fs)
      || (w.fs.guard.Some? && me' == me.(pc := ListClaim)
          && fs' == w.fs.(guard := Some(w.fs.guard.value + {OwnName(p, me)})))
      || (me' == me.(pc := DiscardOwner(true))   // the write failed, before or after the file was created
          && (fs' == w.fs
              || (w.fs.guard.Some? && fs' == w.fs.(guard := Some(w.fs.guard.value + {OwnName(p, me)})))))
    case ListClaim =>
      && fs' == w.fs
      && (if w.fs.guard.None? then me' == me.(pc := MakeGuard)
          else if w.fs.guard.value == {OwnName(p, me)} then
            me' == me.(pc := if me.goal.Cleanup? then CleanRead else TakeRead) || me' == me.(pc := DiscardOwner(true))
          else (me' == me.(pc := DiscardOwner(false)) || me' == me.(pc := DiscardOwner(true))))
    case DiscardOwner(failing) =>
      || (me' == me.(pc := DiscardGuard(failing)) && fs' == w.fs.(guard := Without(w.fs.guard, OwnName(p, me))))
      || (me' == me.(pc := DiscardGuard(failing), abandoned := me.abandoned + {OwnName(p, me)}) && fs' == w.fs)
    case DiscardGuard(failing) =>
      && me' == me.(pc := if failing then Done else MakeGuard)
      && (fs' == w.fs || fs' == w.fs.(guard := RemoveIfEmpty(w.fs.guard)))
    case _ => false
  }

  ghost predicate CleanUp(w: World, p: ProcId, me: Proc, me': Proc, fs': Fs) {
    match me.pc
    case CleanRead =>
      && fs' == w.fs
      && (|| (w.fs.lock.None? && me' == me.(pc := CleanLink))
          || (w.fs.lock.Some? && me' == me.(pc := CleanJudge(w.fs.lock.value)))
          || me' == me.(pc := LeaveOwner(GiveUp)))
    case CleanJudge(current) =>
      && fs' == w.fs
      && (exists facts | Probed(w, current.payload.pid, facts) ::
            if JudgeLockOwner(current.payload, facts).Stale? then me' == me.(pc := CleanUnlink(current))
            else me' == me.(pc := LeaveOwner(GiveUp)))
    case CleanUnlink(current) =>
      || (me' == me.(pc := CleanLink) && fs' == w.fs.(lock := None))
      || ((me' == me.(pc := LeaveOwner(Restart)) || me' == me.(pc := LeaveOwner(GiveUp))) && fs' == w.fs)
    case CleanLink =>
      || (w.fs.lock.None? && me' == me.(pc := LeaveOwner(BecomeOwner))
          && fs' == w.fs.(lock := Some(Record(p, me.payload))))
      || ((me' == me.(pc := LeaveOwner(Restart)) || me' == me.(pc := LeaveOwner(GiveUp))) && fs' == w.fs)
    case _ => false
  }

  /** The steps of a takeover. `killed` is the record whose pid is signalled, if this step signals. */
  ghost predicate TakeOver(w: World, p: ProcId, me: Proc, me': Proc, fs': Fs, killed: Option<Record>) {
    var giveUp := me' == me.(pc := LeaveOwner(GiveUp)) && fs' == w.fs && killed.None?;
    match me.pc
    case TakeRead => giveUp || (me' == me.(pc := TakeCheck(w.fs.lock)) && fs' == w.fs && killed.None?)
    case TakeCheck(owner) =>
      if owner.None? then me' == me.(pc := TakeLatest(None)) && fs' == w.fs && killed.None?
      else
        || (PidFree(w, owner.value.payload.pid) && me' == me.(pc := TakeLatest(owner)) && fs' == w.fs && killed.None?)
        || (if me.goal.Takeover? && owner.value.payload.pid == me.goal.observed.payload.pid
            then me' == me.(pc := TakeWait(owner.value)) && fs' == w.fs && killed == owner
            else giveUp)
    case TakeWait(victim) =>
      || (me' == me && fs' == w.fs && killed == Some(victim))
      || (PidFree(w, victim.payload.pid) && me' == me.(pc := TakeReread(victim)) && fs' == w.fs && killed.None?)
      || giveUp
    case TakeReread(victim) =>
      if w.fs.lock.None? then giveUp || (me' == me.(pc := TakeLatest(None)) && fs' == w.fs && killed.None?)
      else if w.fs.lock.value.payload.pid != victim.payload.pid then giveUp
      else giveUp || (me' == me.(pc := TakeRecheck(w.fs.lock.value)) && fs' == w.fs && killed.None?)
    case TakeRecheck(current) =>
      || giveUp
      || (PidFree(w, current.payload.pid) && me' == me.(pc := TakeLatest(Some(current))) && fs' == w.fs && killed.None?)
    case TakeLatest(expected) =>
      if w.fs.lock.None? then giveUp || (me' == me.(pc := TakeLink) && fs' == w.fs && killed.None?)
      else if expected.None? || w.fs.lock.value.payload.pid != expected.value.payload.pid then giveUp
      else giveUp || (me' == me.(pc := TakeJudge(expected.value, w.fs.lock.value)) && fs' == w.fs && killed.None?)
    case TakeJudge(known, latest) =>
      || giveUp
      || (PidFree(w, latest.payload.pid) && me' == me.(pc := TakeUnlink(known, latest)) && fs' == w.fs && killed.None?)
    case TakeUnlink(known, latest) =>
      || giveUp
      || (me' == me.(pc := TakeLink) && fs' == w.fs.(lock := None) && killed.None?)
      || (me' == me.(pc := TakeLatest(Some(known))) && fs' == w.fs && killed.None?)
    case TakeLink =>
      || giveUp
      || (me' == me && fs' == w.fs && killed.None?)
      || (w.fs.lock.None? && me' == me.(pc := LeaveOwner(BecomeOwner))
          && fs' == w.fs.(lock := Some(Record(p, me.payload))) && killed.None?)
    case _ => false
  }

  ghost predicate LetGo(w: World, p: ProcId, me: Proc, me': Proc, fs': Fs) {
    match me.pc
    case LeaveOwner(after) =>
      || (me' == me.(pc := LeaveGuard(after)) && fs' == w.fs.(guard := Without(w.fs.guard, OwnName(p, me))))
      || (me' == Depart(me, after) && fs' == w.fs)
    case LeaveGuard(after) =>
      && me' == Depart(me, after)
      && (fs' == w.fs || fs' == w.fs.(guard := RemoveIfEmpty(w.fs.guard)))
    case Owner => me' == me.(pc := ReleaseRead) && fs' == w.fs
    case ReleaseRead =>
      && fs' == w.fs
      && (|| (w.fs.lock.Some? && w.fs.lock.value.payload.pid == me.payload.pid && me' == me.(pc := ReleaseUnlink))
          || me' == me.(pc := Done))
    case ReleaseUnlink =>
      me' == me.(pc := Done) && (fs' == w.fs || fs' == w.fs.(lock := None))
    case _ => false
  }

  // ---------------------------------------------------------------- steps and runs of the whole system

  datatype Label = Act(p: ProcId) | Crash(p: ProcId) | Start(p: ProcId) | Reboot

  ghost predicate Acts(w: World, w': World, p: ProcId, me': Proc, fs': Fs, killed: Option<Record>) {
    && Alive(w, p)
    && var me := w.procs[p];
    && (|| (killed.None? && Attempt(w, p, me, me', fs'))
        || (killed.None? && WaitForGuard(w, p, me, me', fs'))
        || (killed.None? && JudgeGuard(w, me, me', fs'))
        || (killed.None? && ClaimGuard(w, p, me, me', fs'))
        || (killed.None? && CleanUp(w, p, me, me', fs'))
        || (killed.None? && LetGo(w, p, me, me', fs'))
        || TakeOver(w, p, me, me', fs', killed))
    && w' == World(w.procs[p := me'], fs', w.boot,
                   w.signals + if killed.Some? && me.goal.Takeover?
                               then [Signal(p, me.goal.observed, killed.value)] else [])
  }

  ghost predicate Newborn(w: World, me: Proc) {
    && me.alive && me.pc == Link && me.tries == 1 && me.claims == 0 && me.abandoned == {}
    && me.goal == Cleanup
    && me.birth.bootUuid == w.boot.uuid && me.birth.bootAt == w.boot.at
    && PidFree(w, me.birth.pid)
    && WritesTruth(me, me.payload) && HasBootGeneration(me.payload)
  }

  function Killed(procs: map<ProcId, Proc>): map<ProcId, Proc> {
    map p | p in procs :: procs[p].(alive := false)
  }

  ghost predicate Step(w: World, w': World, action: Label) {
    match action
    case Act(p) => exists me', fs', killed :: Acts(w, w', p, me', fs', killed)
    case Crash(p) => Alive(w, p) && w' == w.(procs := w.procs[p := w.procs[p].(alive := false)])
    case Start(p) =>
      p !in w.procs && exists me | Newborn(w, me) :: w' == w.(procs := w.procs[p := me])
    case Reboot => exists boot :: w' == w.(procs := Killed(w.procs), boot := boot)
  }

  /** Nothing runs yet and neither path exists; leftovers arise from crashes and reboots. */
  ghost predicate Init(w: World) { w.procs == map[] && w.fs == Fs(None, None) && w.signals == [] }

  datatype Run = Run(worlds: seq<World>, labels: seq<Label>)

  ghost predicate IsPath(run: Run) {
    && |run.worlds| == |run.labels| + 1
    && forall i | 0 <= i < |run.labels| :: Step(run.worlds[i], run.worlds[i + 1], run.labels[i])
  }

  ghost predicate IsRun(run: Run) { IsPath(run) && Init(run.worlds[0]) }

  // ---------------------------------------------------------------- what a program counter means

  /** The process has recorded its owner file in the guard and not yet removed it. */
  predicate HasName(pc: Pc) { pc.ListClaim? || InGuard(pc) }

  /** The process believes it holds the recovery guard. */
  predicate InGuard(pc: Pc) {
    || pc.CleanRead? || pc.CleanJudge? || pc.CleanUnlink? || pc.CleanLink?
    || pc.TakeRead? || pc.TakeCheck? || pc.TakeWait? || pc.TakeReread? || pc.TakeRecheck? || pc.TakeLatest?
    || pc.TakeJudge? || pc.TakeUnlink? || pc.TakeLink?
    || pc.LeaveOwner?
  }

  /** The process published its lock and has not released it. */
  predicate HoldsLock(pc: Pc) {
    || pc == LeaveOwner(BecomeOwner) || pc == LeaveGuard(BecomeOwner)
    || pc.Owner? || pc.ReleaseRead? || pc.ReleaseUnlink?
  }

  ghost predicate AtMostOne(w: World, holds: Pc -> bool) {
    forall p, q | Alive(w, p) && Alive(w, q) && holds(w.procs[p].pc) && holds(w.procs[q].pc) :: p == q
  }

  /** A guard holder has read `writer`'s record and is about to ask whether its process still runs. */
  ghost predicate Judging(w: World, p: ProcId, writer: ProcId) {
    && Alive(w, p)
    && var pc := w.procs[p].pc;
    || (pc.CleanJudge? && pc.current.writer == writer)
    || (pc.TakeJudge? && pc.latest.writer == writer)
  }

  /** The step removes the releasing owner's lock while a guard holder is between reading that lock and judging it. */
  ghost predicate ReleasedUnderJudgement(w: World, w': World, action: Label) {
    && action.Act? && Alive(w, action.p) && w.procs[action.p].pc.ReleaseUnlink?
    && w.fs.lock.Some? && w'.fs.lock.None?
    && exists q :: Judging(w, q, action.p)
  }

  ghost predicate Undisturbed(run: Run)
    requires IsPath(run)
  {
    forall i | 0 <= i < |run.labels| :: !ReleasedUnderJudgement(run.worlds[i], run.worlds[i + 1], run.labels[i])
  }
}
