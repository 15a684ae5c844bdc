/** Flushing the sql.js database to its file (flushSqljs, doSqljsExport, exportSqljsWhenIdle of db.ts), on top of the
    write queue. One event is one synchronous stretch; a file write takes time and may fail. */
module SqljsFlush {
  import opened Wrappers
  import opened SqljsQueue

  /** Where one call of flushSqljs has got to. */
  datatype Phase =
    | AwaitInFlight(on: nat)    // a forced flush waits out flush `on`
    | Queued                    // its own turn has not started
    | Looping                   // inside a turn, waiting for a file write or a transaction to end
    | Writing(restored: bool)   // snapshot taken; whether foreign_keys could be restored
    | Landed(ok: bool)          // outcome known, continuation still to run
    | Returned(ok: bool)

  /** `own`: the caller held no turn, so the export queues for one. `called`: how many turns were queued at the call.
      `waiter`: the work that awaits the flush, if it was called inside a turn. */
  datatype Flush = Flush(
    force: bool, own: bool, called: nat, waiter: Option<nat>, turn: nat, work: Option<nat>, snap: Option<nat>, phase: Phase)

  /** The file write of the latest export: which flush it belongs to, and whether it has settled. */
  datatype FileWrite = FileWrite(flush: nat, done: bool)

  /** `taken` lists every snapshot in the order taken (the first is the file the process started from), `landed` those
      completely written, and `file` what the file holds now (`None` while a write is under way or after one failed).
      `unmarked` counts modifying statements whose subscriber has not run yet. `restoreFailed` and `offBy` say why
      foreign keys may be off: a restore failed, or a turn switched them off and not on again. */
  datatype Sys = Sys(
    db: Db, dirty: bool, unmarked: nat, inFlight: Option<nat>, flushes: seq<Flush>,
    taken: seq<seq<Entry>>, landed: seq<nat>, file: Option<nat>, fileWrite: Option<FileWrite>, restoreFailed: bool, offBy: Option<nat>)

  /** Why an export fails before its snapshot: a transaction outlasted the deadline, or something threw, before the dirty
      flag was cleared or after. */
  datatype Cause = Deadline | BeforeClean | AfterClean

  datatype Action =
    | Plain(e: Event)
    | MarkDirty
    | CallFlush(force: bool, from: Option<nat>, waiter: Option<nat>)
    | Resume(f: nat)
    | StartExport(f: nat)
    | Snapshot(f: nat, restored: bool)
    | Abort(f: nat, why: Cause)
    | EndWrite(f: nat, ok: bool)
    | Return(f: nat)

  predicate NobodyWrites(s: Sys) { forall f | 0 <= f < |s.flushes| :: !s.flushes[f].phase.Writing? }

  /** What an export checks: the write of the latest export, and no other. */
  predicate NoWriteInProgress(s: Sys) { s.fileWrite.None? || s.fileWrite.value.done }

  /** The work of an export makes no calls: nobody calls from the turn an export queued for, and it awaits nobody. */
  predicate MayCall(s: Sys, from: Option<nat>, waiter: Option<nat>) {
    && IsContext(s.db.queue, from) && CanAwait(s.db.queue, from, waiter)
    && (from.Some? ==> forall f | 0 <= f < |s.flushes| :: !IsOwnTurn(s.flushes[f], from.value))
    && (waiter.Some? ==> forall f | 0 <= f < |s.flushes| :: s.flushes[f].work != waiter)
  }

  predicate IsOwnTurn(flush: Flush, t: nat) { flush.own && !flush.phase.AwaitInFlight? && flush.turn == t }

  predicate Is(s: Sys, f: nat, phase: Phase) { f < |s.flushes| && s.flushes[f].phase == phase }

  /** The statement takes effect; the subscriber sees successful statements only, and ignores PRAGMA. */
  predicate Modifies(db: Db, stmt: Stmt) {
    match stmt
    case Begin => db.open.None?
    case Commit => db.open.Some?
    case Rollback => db.open.Some?
    case Write(_) => true
    case ForeignKeys(_) => false
  }

  predicate Possible(s: Sys, a: Action) {
    match a
    case Plain(e) =>
      && Enabled(s.db, e)
      && (e.Call? ==> MayCall(s, e.from, e.waiter))
      && (e.Start? ==> forall f | 0 <= f < |s.flushes| :: s.flushes[f].phase.Queued? ==> s.flushes[f].turn != e.t)
      && (e.Finish? ==> forall f | 0 <= f < |s.flushes| :: s.flushes[f].phase.Looping? ==> s.flushes[f].work != Some(e.w))
      && (e.Finish? ==> forall f | 0 <= f < |s.flushes| :: s.flushes[f].waiter == Some(e.w) ==> s.flushes[f].phase.Returned?)
      && (e.Exec? ==> forall f | 0 <= f < |s.flushes| :: s.flushes[f].work != Some(e.w))
    case MarkDirty => s.unmarked > 0
    case CallFlush(_, from, waiter) => MayCall(s, from, waiter)
    case Resume(f) =>
      f < |s.flushes| && s.flushes[f].phase.AwaitInFlight? && s.flushes[f].phase.on < |s.flushes|
      && s.flushes[s.flushes[f].phase.on].phase.Returned?
    case StartExport(f) => Is(s, f, Queued) && Ready(s.db.queue, s.flushes[f].turn)
    case Snapshot(f, _) => Is(s, f, Looping) && NoWriteInProgress(s) && s.db.open.None?
    case Abort(f, why) =>
      && Is(s, f, Looping) && NoWriteInProgress(s)
      && (why.Deadline? ==> s.db.open.Some?) && (why.AfterClean? ==> s.db.open.None?)
    case EndWrite(f, _) => f < |s.flushes| && s.flushes[f].phase.Writing?
    case Return(f) =>
      f < |s.flushes| && s.flushes[f].phase.Landed?
      && (s.flushes[f].work.Some? ==> !IsRunning(s.db.queue, s.flushes[f].work.value))
  }

  /** doSqljsExport begins: inside the caller's turn at once, or in a turn of its own at the tail. */
  function BeginExport(s: Sys, f: nat, flush: Flush, from: Option<nat>): Sys
    requires f <= |s.flushes|
  {
    var q := s.db.queue;
    var held := HeldTurn(q, from);
    var started :=
      if held.Some? then flush.(own := false, turn := held.value, work := Some(|q.works|), phase := Looping)
      else flush.(own := true, turn := |q.turns|, phase := Queued);
    s.(db := s.db.(queue := Enqueue(q, from)),
       flushes := s.flushes[..f] + [started] + (if f < |s.flushes| then s.flushes[f + 1..] else []),
       inFlight := Some(f))
  }

  function CalledFlush(s: Sys, force: bool, from: Option<nat>, waiter: Option<nat>): Flush {
    Flush(force, HeldTurn(s.db.queue, from).None?, |s.db.queue.turns|, waiter, 0, None, None, Queued)
  }

  function CallEffect(s: Sys, force: bool, from: Option<nat>, waiter: Option<nat>): Sys {
    var flush := CalledFlush(s, force, from, waiter);
    if s.inFlight.Some? && !force then s
    else if s.inFlight.Some? && flush.own then
      s.(flushes := s.flushes + [flush.(phase := AwaitInFlight(s.inFlight.value))])
    else if !force && !s.dirty then s
    else BeginExport(s, |s.flushes|, flush, from)
  }

  function PlainEffect(s: Sys, e: Event): Sys
    requires Enabled(s.db, e)
  {
    var s' := s.(db := Apply(s.db, e));
    if !e.Exec? then s'
    else
      var s' := s'.(unmarked := s.unmarked + if Modifies(s.db, e.stmt) then 1 else 0);
      if !e.stmt.ForeignKeys? || s.db.open.Some? then s'
      else if e.stmt.on then s'.(restoreFailed := false, offBy := None)
      else s'.(offBy := Some(s.db.queue.works[e.w].turn))
  }

  /** The last check, markClean, the export and the foreign_keys restore, all in one synchronous step. Reopening rolls back
      whatever transaction is open and puts foreign_keys off; an export in its own turn sets it on, one in its caller's
      turn puts back what it found. */
  function SnapshotEffect(s: Sys, f: nat, restored: bool): Sys
    requires Is(s, f, Looping)
  {
    var flush := s.flushes[f];
    s.(dirty := false,
       flushes := s.flushes[f := flush.(phase := Writing(restored), snap := Some(|s.taken|))],
       taken := s.taken + [s.db.committed],
       file := None,
       fileWrite := Some(FileWrite(f, false)),
       db := s.db.(open := None, uncommitted := [], foreignKeys := restored && (flush.own || s.db.foreignKeys)),
       restoreFailed := !restored || (!flush.own && s.restoreFailed),
       offBy := if restored && flush.own then None else s.offBy)
  }

  function Effect(s: Sys, a: Action): Sys
    requires Possible(s, a)
  {
    match a
    case Plain(e) => PlainEffect(s, e)
    case MarkDirty => s.(dirty := true, unmarked := s.unmarked - 1)
    case CallFlush(force, from, waiter) => CallEffect(s, force, from, waiter)
    case Resume(f) => BeginExport(s, f, s.flushes[f], None)
    case StartExport(f) =>
      s.(db := s.db.(queue := StartTurn(s.db.queue, s.flushes[f].turn)),
         flushes := s.flushes[f := s.flushes[f].(phase := Looping, work := Some(|s.db.queue.works|))])
    case Snapshot(f, restored) => SnapshotEffect(s, f, restored)
    case Abort(f, why) =>
      s.(dirty := s.dirty && !why.AfterClean?, flushes := s.flushes[f := s.flushes[f].(phase := Landed(false))])
    case EndWrite(f, ok) =>
      var flush := s.flushes[f];
      s.(flushes := s.flushes[f := flush.(phase := Landed(ok && flush.phase.restored))],
         file := if ok then flush.snap else None,
         fileWrite := if s.fileWrite == Some(FileWrite(f, false)) then Some(FileWrite(f, true)) else s.fileWrite,
         landed := if ok && flush.snap.Some? then s.landed + [flush.snap.value] else s.landed)
    case Return(f) =>
      var ok := s.flushes[f].phase.ok;
      s.(dirty := s.dirty || !ok,
         inFlight := if s.inFlight == Some(f) then None else s.inFlight,
         flushes := s.flushes[f := s.flushes[f].(phase := Returned(ok))])
  }

  const BOOT := Sys(FRESH, false, 0, None, [], [[]], [0], Some(0), None, false, None)

  // ---------------------------------------------------------------- invariant

  /** The turns queued before the flush was called are over, and whatever of them was committed is in its snapshot. */
  ghost predicate Covers(s: Sys, flush: Flush)
    requires flush.snap.Some? && flush.snap.value < |s.taken|
  {
    var snap := s.taken[flush.snap.value];
    && (forall t | 0 <= t < flush.called :: Released(s.db.queue, t))
    && (forall i | |snap| <= i < |s.db.committed| :: s.db.committed[i].turn >= flush.called)
    && (forall e | e in s.db.uncommitted :: e.turn >= flush.called)
  }

  ghost predicate FlushOk(s: Sys, f: nat)
    requires f < |s.flushes|
  {
    var flush, q := s.flushes[f], s.db.queue;
    && flush.called <= |q.turns|
    && (flush.phase.AwaitInFlight? ==> flush.own && flush.snap.None? && flush.work.None? && flush.phase.on < f)
    && (flush.phase.Queued? ==>
          && flush.own && flush.snap.None? && flush.work.None?
          && flush.called <= flush.turn < |q.turns| && !q.turns[flush.turn].started)
    && (flush.phase.Looping? ==>
          && flush.snap.None? && flush.work.Some? && IsRunning(q, flush.work.value)
          && q.works[flush.work.value].turn == flush.turn && (flush.own ==> flush.called <= flush.turn))
    && (flush.phase.Writing? ==> flush.snap == Some(|s.taken| - 1))
    && (flush.phase == Landed(true) || flush.phase == Returned(true) ==>
          flush.snap.Some? && flush.snap.value in s.landed)
    && (flush.snap.Some? ==> flush.snap.value < |s.taken| && (flush.own ==> Covers(s, flush)))
  }

  ghost predicate SnapshotsOk(s: Sys) {
    && |s.taken| > 0 && |s.landed| > 0
    && (forall i | 0 <= i < |s.taken| :: s.taken[i] <= s.db.committed)
    && (forall i, j | 0 <= i < j < |s.taken| :: s.taken[i] <= s.taken[j])
    && (forall i | 0 <= i < |s.landed| :: s.landed[i] < |s.taken| && (!NobodyWrites(s) ==> s.landed[i] < |s.taken| - 1))
    && (forall i, j | 0 <= i < j < |s.landed| :: s.landed[i] < s.landed[j])
    && (s.file.Some? ==> s.file.value == s.landed[|s.landed| - 1] && NobodyWrites(s))
  }

  /** The one slot is enough: whichever flush is still writing is the one in it. */
  ghost predicate SlotOk(s: Sys) {
    && (forall f | 0 <= f < |s.flushes| && s.flushes[f].phase.Writing? :: s.fileWrite == Some(FileWrite(f, false)))
    && (!NoWriteInProgress(s) ==>
          s.fileWrite.value.flush < |s.flushes| && s.flushes[s.fileWrite.value.flush].phase.Writing?)
  }

  /** An export failed and its catch has not yet marked the database dirty again. */
  ghost predicate FailurePending(s: Sys) { exists f | 0 <= f < |s.flushes| :: s.flushes[f].phase == Landed(false) }

  /** Nothing to write: the file holds all that is committed, or the write under way will. */
  ghost predicate CleanMeansSaved(s: Sys)
    requires SnapshotsOk(s)
  {
    !s.dirty && s.unmarked == 0 && !FailurePending(s) ==>
      if NobodyWrites(s) then s.file.Some? && s.taken[s.file.value] == s.db.committed
      else s.taken[|s.taken| - 1] == s.db.committed
  }

  ghost predicate OneExportPerTurn(s: Sys) {
    forall f, g | 0 <= f < |s.flushes| && 0 <= g < |s.flushes| && s.flushes[f].phase.Queued? && s.flushes[g].phase.Queued? ::
      s.flushes[f].turn == s.flushes[g].turn ==> f == g
  }

  ghost predicate SysInv(s: Sys) {
    && DbInv(s.db)
    && (forall f | 0 <= f < |s.flushes| :: FlushOk(s, f))
    && OneExportPerTurn(s)
    && SnapshotsOk(s) && CleanMeansSaved(s) && SlotOk(s)
    && (s.inFlight.Some? ==> s.inFlight.value < |s.flushes|)
    && (s.db.foreignKeys <==> !s.restoreFailed && s.offBy.None?)
  }

  ghost predicate CanAct(s: Sys, a: Action) { SysInv(s) && Possible(s, a) }
}
