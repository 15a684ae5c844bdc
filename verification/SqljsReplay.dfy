/** What becomes of a write, read off the log of statements alone: SQLite's rules for BEGIN, COMMIT and ROLLBACK, without
    the state of the connection. */
module SqljsReplay {
  import opened Wrappers
  import opened SqljsQueue
  import Serial = SqljsSerial

  predicate Ends(e: Entry) { e.stmt.Commit? || e.stmt.Rollback? }

  /** No COMMIT and no ROLLBACK at positions `from` .. `to`-1. */
  predicate NoEnd(log: seq<Entry>, from: int, to: int) { forall c | 0 <= c < |log| && from <= c < to :: !Ends(log[c]) }

  /** Position `i` lies in a transaction: a BEGIN before it has neither been committed nor rolled back. */
  predicate Inside(log: seq<Entry>, i: int) {
    exists b | 0 <= b < |log| && b < i :: log[b].stmt.Begin? && NoEnd(log, b + 1, i)
  }

  /** A write that lasts: outside any transaction, or in one that the next end commits. */
  predicate Lasts(log: seq<Entry>, i: int)
    requires 0 <= i < |log|
  {
    && log[i].stmt.Write?
    && (!Inside(log, i) || exists c | i < c < |log| :: log[c].stmt.Commit? && NoEnd(log, i, c))
  }

  /** A write whose transaction is still open. */
  predicate Hangs(log: seq<Entry>, i: int)
    requires 0 <= i < |log|
  {
    log[i].stmt.Write? && Inside(log, i) && NoEnd(log, i, |log|)
  }

  ghost function Lasting(log: seq<Entry>, n: nat): seq<Entry>
    requires n <= |log|
  {
    if n == 0 then [] else Lasting(log, n - 1) + if Lasts(log, n - 1) then [log[n - 1]] else []
  }

  ghost function Hanging(log: seq<Entry>, n: nat): seq<Entry>
    requires n <= |log|
  {
    if n == 0 then [] else Hanging(log, n - 1) + if Hangs(log, n - 1) then [log[n - 1]] else []
  }

  /** The connection holds what the log says: what lasts is committed, what hangs is pending, and a transaction is open
      exactly if the next statement would lie in one. */
  ghost predicate Replays(s: Db) {
    && s.committed == Lasting(s.log, |s.log|)
    && s.uncommitted == Hanging(s.log, |s.log|)
    && (s.open.Some? <==> Inside(s.log, |s.log|))
  }

  // ---------------------------------------------------------------- one more statement

  lemma NoEndGrows(log: seq<Entry>, e: Entry, from: int, to: int)
    requires to <= |log|
    ensures NoEnd(log + [e], from, to) <==> NoEnd(log, from, to)
  {
    forall c | 0 <= c < |log| ensures (log + [e])[c] == log[c] {}
    if NoEnd(log + [e], from, to) {
      forall c | 0 <= c < |log| && from <= c < to ensures !Ends(log[c]) { assert !Ends((log + [e])[c]); }
    }
  }

  lemma InsideGrows(log: seq<Entry>, e: Entry, i: nat)
    requires i <= |log|
    ensures Inside(log + [e], i) <==> Inside(log, i)
  {
    var log' := log + [e];
    if Inside(log, i) {
      var b :| 0 <= b < |log| && b < i && log[b].stmt.Begin? && NoEnd(log, b + 1, i);
      NoEndGrows(log, e, b + 1, i);
      assert log'[b] == log[b];
    }
    if Inside(log', i) {
      var b :| 0 <= b < |log'| && b < i && log'[b].stmt.Begin? && NoEnd(log', b + 1, i);
      NoEndGrows(log, e, b + 1, i);
      assert log[b] == log'[b];
    }
  }

  /** Behind the new statement one is inside a transaction if it begins one, or ends none and lay in one. */
  lemma InsideNext(log: seq<Entry>, e: Entry)
    ensures Inside(log + [e], |log| + 1) <==> e.stmt.Begin? || (!Ends(e) && Inside(log, |log|))
  {
    var log', n := log + [e], |log|;
    assert log'[n] == e;
    if e.stmt.Begin? {
      assert NoEnd(log', n + 1, n + 1);
    } else if !Ends(e) && Inside(log, n) {
      var b :| 0 <= b < |log| && b < n && log[b].stmt.Begin? && NoEnd(log, b + 1, n);
      NoEndGrows(log, e, b + 1, n);
      assert log'[b] == log[b] && NoEnd(log', b + 1, n + 1);
    }
    if Inside(log', n + 1) && !e.stmt.Begin? {
      var b :| 0 <= b < |log'| && b < n + 1 && log'[b].stmt.Begin? && NoEnd(log', b + 1, n + 1);
      assert b != n && log[b] == log'[b];
      assert NoEnd(log', b + 1, n);
      NoEndGrows(log, e, b + 1, n);
    }
  }

  /** What the new statement makes of an earlier write. */
  lemma FateOfEarlier(log: seq<Entry>, e: Entry, i: nat)
    requires i < |log|
    ensures Lasts(log + [e], i) <==> Lasts(log, i) || (e.stmt.Commit? && Hangs(log, i))
    ensures Hangs(log + [e], i) <==> Hangs(log, i) && !Ends(e)
  {
    var log', n := log + [e], |log|;
    assert log'[i] == log[i] && log'[n] == e;
    InsideGrows(log, e, i);
    NoEndGrows(log, e, i, n);
    assert NoEnd(log', i, n + 1) <==> NoEnd(log', i, n) && !Ends(e);
    forall c | i < c < n ensures log'[c].stmt.Commit? && NoEnd(log', i, c) <==> log[c].stmt.Commit? && NoEnd(log, i, c) {
      NoEndGrows(log, e, i, c);
    }
    CommitGrows(log, e, i);
  }

  ghost predicate Committed(log: seq<Entry>, i: int) {
    exists c | i < c < |log| && 0 <= c :: log[c].stmt.Commit? && NoEnd(log, i, c)
  }

  lemma CommitGrows(log: seq<Entry>, e: Entry, i: nat)
    requires i < |log|
    ensures Committed(log + [e], i) <==> Committed(log, i) || (e.stmt.Commit? && NoEnd(log, i, |log|))
  {
    var log', n := log + [e], |log|;
    assert log'[n] == e;
    NoEndGrows(log, e, i, n);
    if Committed(log, i) {
      var c :| i < c < |log| && log[c].stmt.Commit? && NoEnd(log, i, c);
      NoEndGrows(log, e, i, c);
      assert log'[c] == log[c];
    }
    if Committed(log', i) {
      var c :| i < c < |log'| && log'[c].stmt.Commit? && NoEnd(log', i, c);
      NoEndGrows(log, e, i, c);
      assert c < n ==> log[c] == log'[c];
    }
  }

  /** Whatever comes after a hanging write hangs or is no write: nothing lasting. */
  lemma NothingLastsBehind(log: seq<Entry>, i: nat, j: nat)
    requires i < j < |log| && Hangs(log, i)
    ensures !Lasts(log, j)
  {
    var b :| 0 <= b < |log| && b < i && log[b].stmt.Begin? && NoEnd(log, b + 1, i);
    assert NoEnd(log, b + 1, j);
  }

  lemma {:induction false} NoneHangs(log: seq<Entry>, n: nat, j: nat)
    requires n <= j < |log| && Lasts(log, j)
    ensures Hanging(log, n) == []
  {
    if n > 0 {
      var i: nat := n - 1;
      NoneHangs(log, i, j);
      if Hangs(log, i) { NothingLastsBehind(log, i, j); }
    }
  }

  /** What the new statement adds to the lasting writes among the first `n`, and what it leaves hanging. */
  ghost predicate Grown(log: seq<Entry>, e: Entry, n: nat)
    requires n <= |log|
  {
    && Lasting(log + [e], n) == Lasting(log, n) + (if e.stmt.Commit? then Hanging(log, n) else [])
    && Hanging(log + [e], n) == if Ends(e) then [] else Hanging(log, n)
  }

  lemma LastsOrHangs(log: seq<Entry>, i: nat)
    requires i < |log| && Lasts(log, i)
    ensures !Hangs(log, i) && Hanging(log, i) == []
  {
    NoneHangs(log, i, i);
  }

  /** Sequences and truth values only: what lasts and hangs with one more write `x`. */
  lemma Merged<T>(l: seq<T>, h: seq<T>, x: seq<T>, lasts: bool, hangs: bool, commit: bool, ends: bool)
    requires lasts ==> h == [] && !hangs
    requires commit ==> ends
    ensures (l + if commit then h else []) + (if lasts || (commit && hangs) then x else []) ==
            (l + if lasts then x else []) + (if commit then h + if hangs then x else [] else [])
    ensures (if ends then [] else h) + (if hangs && !ends then x else []) == if ends then [] else h + if hangs then x else []
  {
    assert (l + h) + x == l + (h + x);
  }

  /** The fate of write `i`, before and after the new statement. */
  lemma FateOf(log: seq<Entry>, e: Entry, i: nat, lasts: bool, hangs: bool)
    requires i < |log| && lasts == Lasts(log, i) && hangs == Hangs(log, i)
    ensures lasts ==> Hanging(log, i) == [] && !hangs
    ensures Lasting(log, i + 1) == Lasting(log, i) + if lasts then [log[i]] else []
    ensures Hanging(log, i + 1) == Hanging(log, i) + if hangs then [log[i]] else []
    ensures Lasting(log + [e], i + 1) == Lasting(log + [e], i) + if lasts || (e.stmt.Commit? && hangs) then [log[i]] else []
    ensures Hanging(log + [e], i + 1) == Hanging(log + [e], i) + if hangs && !Ends(e) then [log[i]] else []
  {
    assert (log + [e])[i] == log[i];
    FateOfEarlier(log, e, i);
    if lasts { LastsOrHangs(log, i); }
  }

  lemma GrownByOne(log: seq<Entry>, e: Entry, i: nat, lasts: bool, hangs: bool)
    requires i < |log| && Grown(log, e, i) && lasts == Lasts(log, i) && hangs == Hangs(log, i)
    ensures Grown(log, e, i + 1)
  {
    FateOf(log, e, i, lasts, hangs);
    Merged(Lasting(log, i), Hanging(log, i), [log[i]], lasts, hangs, e.stmt.Commit?, Ends(e));
  }

  lemma {:induction false} LastingGrows(log: seq<Entry>, e: Entry, n: nat)
    requires n <= |log|
    ensures Grown(log, e, n)
  {
    if n > 0 {
      LastingGrows(log, e, n - 1);
      GrownByOne(log, e, n - 1, Lasts(log, n - 1), Hangs(log, n - 1));
    }
  }

  lemma FateOfNew(log: seq<Entry>, e: Entry)
    ensures Lasts(log + [e], |log|) <==> e.stmt.Write? && !Inside(log, |log|)
    ensures Hangs(log + [e], |log|) <==> e.stmt.Write? && Inside(log, |log|)
  {
    InsideGrows(log, e, |log|);
    assert (log + [e])[|log|] == e;
  }

  /** What lasts and what hangs after one more statement. */
  lemma LogGrows(log: seq<Entry>, e: Entry, n: nat)
    requires n == |log|
    ensures Lasting(log + [e], n + 1) ==
            Lasting(log, n) + (if e.stmt.Commit? then Hanging(log, n) else []) + if e.stmt.Write? && !Inside(log, n) then [e] else []
    ensures Hanging(log + [e], n + 1) ==
            (if Ends(e) then [] else Hanging(log, n)) + if e.stmt.Write? && Inside(log, n) then [e] else []
  {
    LastingGrows(log, e, n);
    FateOfNew(log, e);
    assert (log + [e])[n] == e;
  }

  /** What a statement does to the connection, in the same terms. */
  lemma Executed(s: Db, e: Entry, inside: bool)
    requires (s.open.Some? <==> inside) && (!inside ==> s.uncommitted == [])
    ensures var s' := Execute(s, e);
            && s'.log == s.log + [e]
            && s'.committed ==
               s.committed + (if e.stmt.Commit? then s.uncommitted else []) + (if e.stmt.Write? && !inside then [e] else [])
            && s'.uncommitted == (if Ends(e) then [] else s.uncommitted) + (if e.stmt.Write? && inside then [e] else [])
            && (s'.open.Some? <==> e.stmt.Begin? || (!Ends(e) && inside))
  {
  }

  lemma ExecuteReplays(s: Db, e: Entry)
    requires Replays(s) && (s.open.None? ==> s.uncommitted == [])
    ensures Replays(Execute(s, e))
  {
    var n, inside := |s.log|, Inside(s.log, |s.log|);
    Executed(s, e, inside);
    LogGrows(s.log, e, n);
    InsideNext(s.log, e);
    NowReplays(Execute(s, e), s.log + [e], n + 1);
  }

  lemma NowReplays(s: Db, log: seq<Entry>, n: nat)
    requires s.log == log && |log| == n
    requires s.committed == Lasting(log, n) && s.uncommitted == Hanging(log, n) && (s.open.Some? <==> Inside(log, n))
    ensures Replays(s)
  {
  }

  lemma {:induction false} PathReplays(s: Db, es: seq<Event>)
    requires DbInv(s) && Replays(s) && Serial.IsPath(s, es)
    ensures Replays(Serial.After(s, es))
    decreases |es|
  {
    if es != [] {
      StepKeepsDbInv(s, es[0]);
      if es[0].Exec? { ExecuteReplays(s, Entry(s.queue.works[es[0].w].turn, es[0].stmt)); }
      PathReplays(Apply(s, es[0]), es[1..]);
    }
  }

  /** In every run, read off the log alone: committed are, in order, exactly the writes outside transactions and those in
      transactions that were committed; pending are exactly those in the transaction that is open. A write that a
      rollback ended is neither. */
  lemma CommittedIsWhatLasts(es: seq<Event>)
    requires Serial.IsRun(es)
    ensures Replays(Serial.After(FRESH, es))
  {
    PathReplays(FRESH, es);
  }
}
