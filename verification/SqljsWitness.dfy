/** Runs from the start of the process in which a turn leaves something behind for the next one: an open transaction, or
    foreign keys switched off. */
module SqljsWitness {
  import opened Wrappers
  import opened SqljsQueue
  import opened SqljsFlush
  import D = SqljsDurability
  import Serial = SqljsSerial

  const LEAVER := Turn(false, true, 0)
  const WAITING := Turn(true, false, 0)
  const HOLDER := Turn(true, true, 1)

  /** The first turn queues, starts, executes `stmt` and ends; another turn queues. */
  function Leaving(stmt: Stmt): seq<Event> { [Call(None, None), Start(0), Exec(0, stmt), Finish(0), Call(None, None)] }

  const CALLED := FRESH.(queue := Queue([WAITING], []))
  const STARTED := FRESH.(queue := Queue([HOLDER], [Work(0, true)]))

  function Left(db: Db): Db { db.(queue := Queue([LEAVER, WAITING], [Work(0, false)])) }

  lemma Then(db: Db, e: Event, db': Db, rest: seq<Event>)
    requires Enabled(db, e) && Apply(db, e) == db' && Serial.IsPath(db', rest)
    ensures Serial.IsPath(db, [e] + rest) && Serial.After(db, [e] + rest) == Serial.After(db', rest)
    ensures !Serial.StartsInsideTransaction(db, e) && Serial.Quiet(db', rest) ==> Serial.Quiet(db, [e] + rest)
  {
    assert ([e] + rest)[1..] == rest;
  }

  /** The first turn has executed `stmt`. */
  lemma LeavingEnds(stmt: Stmt)
    ensures var db := Execute(STARTED, Entry(0, stmt));
            && Serial.IsPath(db, [Finish(0), Call(None, None)]) && Serial.Quiet(db, [Finish(0), Call(None, None)])
            && Serial.After(db, [Finish(0), Call(None, None)]) == Left(db)
  {
    var db := Execute(STARTED, Entry(0, stmt));
    assert db.queue == STARTED.queue && db.awaits == [];
    var ended := db.(queue := Queue([LEAVER], [Work(0, false)]));
    assert Apply(db, Finish(0)) == ended;
    assert Apply(ended, Call(None, None)) == Left(db);
    Then(ended, Call(None, None), Left(db), []);
    Then(db, Finish(0), ended, [Call(None, None)] + []);
    assert [Finish(0)] + ([Call(None, None)] + []) == [Finish(0), Call(None, None)];
  }

  lemma LeavingHappens(stmt: Stmt)
    ensures Serial.IsRun(Leaving(stmt)) && Serial.After(FRESH, Leaving(stmt)) == Left(Execute(STARTED, Entry(0, stmt)))
    ensures Serial.Quiet(FRESH, Leaving(stmt))
  {
    var rest := [Finish(0), Call(None, None)];
    LeavingEnds(stmt);
    Then(STARTED, Exec(0, stmt), Execute(STARTED, Entry(0, stmt)), rest);
    rest := [Exec(0, stmt)] + rest;
    assert Apply(CALLED, Start(0)) == STARTED;
    Then(CALLED, Start(0), STARTED, rest);
    rest := [Start(0)] + rest;
    assert Apply(FRESH, Call(None, None)) == CALLED;
    Then(FRESH, Call(None, None), CALLED, rest);
    assert [Call(None, None)] + rest == Leaving(stmt);
  }

  /** Isolation fails on a real run: the first turn leaves a raw BEGIN open, the second starts inside it and writes. */
  lemma TransactionLeaks()
    ensures var es, e := Leaving(Begin), Start(1);
            && Serial.QuietRun(es) && Enabled(Serial.After(FRESH, es), e)
            && Serial.StartsInsideTransaction(Serial.After(FRESH, es), e)
            && var s := Apply(Serial.After(FRESH, es), e);
            && Enabled(s, Exec(1, Write(7))) && !Serial.Isolated(Apply(s, Exec(1, Write(7))))
  {
    LeavingHappens(Begin);
    var s := Apply(Serial.After(FRESH, Leaving(Begin)), Start(1));
    assert s.queue.works[1] == Work(1, true);
    assert Entry(1, Write(7)) in Apply(s, Exec(1, Write(7))).uncommitted;
  }

  // ---------------------------------------------------------------- foreign keys

  const OFF := Execute(STARTED, Entry(0, ForeignKeys(false)))

  /** The whole process, with no flush called yet. */
  function Process(db: Db, offBy: Option<nat>): Sys { BOOT.(db := db, offBy := offBy) }

  lemma Once(s: Sys, a: Action, s': Sys, rest: seq<Action>)
    requires Possible(s, a) && Effect(s, a) == s' && D.IsPath(s', rest)
    ensures D.IsPath(s, [a] + rest) && D.After(s, [a] + rest) == D.After(s', rest)
    ensures !D.AbandonsForeignKeys(s, a) && D.Orderly(s', rest) ==> D.Orderly(s, [a] + rest)
  {
    assert ([a] + rest)[1..] == rest;
  }

  /** The first turn queues, starts and switches foreign keys off. */
  lemma SwitchingOffHappens() returns (actions: seq<Action>)
    ensures D.IsRun(actions) && D.Orderly(BOOT, actions) && D.After(BOOT, actions) == Process(OFF, Some(0))
  {
    var off := Process(OFF, Some(0));
    assert Effect(Process(STARTED, None), Plain(Exec(0, ForeignKeys(false)))) == off;
    Once(Process(STARTED, None), Plain(Exec(0, ForeignKeys(false))), off, []);
    actions := [Plain(Exec(0, ForeignKeys(false)))] + [];
    assert Effect(Process(CALLED, None), Plain(Start(0))) == Process(STARTED, None);
    Once(Process(CALLED, None), Plain(Start(0)), Process(STARTED, None), actions);
    actions := [Plain(Start(0))] + actions;
    assert Effect(BOOT, Plain(Call(None, None))) == Process(CALLED, None);
    Once(BOOT, Plain(Call(None, None)), Process(CALLED, None), actions);
    actions := [Plain(Call(None, None))] + actions;
  }

  /** Foreign keys do fail others on a real run: the turn that switched them off ends, and from there the next turn runs
      with them off, although it did nothing and no restore failed. */
  lemma ForeignKeysLeak() returns (actions: seq<Action>, a: Action)
    ensures D.IsRun(actions) && D.Orderly(BOOT, actions)
    ensures Possible(D.After(BOOT, actions), a) && D.AbandonsForeignKeys(D.After(BOOT, actions), a)
    ensures !D.SpareOthersFrom(Effect(D.After(BOOT, actions), a))
  {
    actions := SwitchingOffHappens();
    a := Plain(Finish(0));
    assert Apply(OFF, Finish(0)).queue.turns == [LEAVER];
    D.ForeignKeysSpareOthersExactly(actions, a);
  }
}
