/** The queue as db.ts keeps it: mutable turn objects, a tail, and the four closures that change them. The methods are
    proved against the transition functions of SqljsQueue. */
module SqljsTurns {
  import opened Wrappers
  import Q = SqljsQueue

  class SqljsTurn {
    var active: bool
    var started: bool
    var pending: int

    constructor ()
      ensures active && !started && pending == 0
    {
      active := true;
      started := false;
      pending := 0;
    }

    ghost function View(): Q.Turn reads this { Q.Turn(active, started, pending) }
  }

  class SqljsWorkQueue {
    /** The most recently queued turn; the next one starts when it has been handed on. */
    var tail: SqljsTurn?
    ghost var turns: seq<SqljsTurn>
    ghost var works: seq<Q.Work>

    ghost function Views(): seq<Q.Turn>
      reads this, turns
    {
      seq(|turns|, i reads this, turns requires 0 <= i < |turns| => turns[i].View())
    }

    ghost function Model(): Q.Queue
      reads this, turns
    {
      Q.Queue(Views(), works)
    }

    ghost predicate Valid()
      reads this, turns
    {
      && (forall i, j | 0 <= i < j < |turns| :: turns[i] != turns[j])
      && tail == (if turns == [] then null else turns[|turns| - 1])
      && Q.QueueInv(Model())
    }

    constructor ()
      ensures Valid() && Model() == Q.Queue([], [])
    {
      tail := null;
      turns := [];
      works := [];
    }

    /** `heldTurn`: the turn of the calling context, unless it has been handed on. */
    method HeldTurn(store: SqljsTurn?, ghost from: Option<nat>) returns (held: SqljsTurn?)
      requires Valid() && IsStore(store, from)
      ensures held == if Q.HeldTurn(Model(), from).Some? then store else null
    {
      held := if store != null && store.active then store else null;
    }

    /** The asynchronous store holds a started turn of this queue, or nothing. */
    ghost predicate IsStore(store: SqljsTurn?, from: Option<nat>)
      reads this, turns
    {
      if from.None? then store == null
      else from.value < |turns| && store == turns[from.value] && turns[from.value].started
    }

    /** A work begins inside `turn`. */
    method Begin(turn: SqljsTurn, ghost t: nat)
      requires Valid() && t < |turns| && turns[t] == turn && Q.Holds(Model(), t)
      modifies this`works, turn
      ensures Valid() && turns == old(turns) && tail == old(tail)
      ensures Model() == old(Q.Within(Model(), t))
    {
      Q.EnqueueKeepsInv(Model(), Some(t));
      turn.pending := turn.pending + 1;
      works := works + [Q.Work(t, true)];
      assert Model() == old(Q.Within(Model(), t));
    }

    /** A work of `turn` has settled, whatever its outcome; the last one hands the turn on. */
    method Settled(turn: SqljsTurn, ghost w: nat) returns (handedOn: bool)
      requires Valid() && Q.IsRunning(Model(), w) && turns[works[w].turn] == turn
      modifies this`works, turn
      ensures Valid() && turns == old(turns) && tail == old(tail)
      ensures Model() == old(Q.Settle(Model(), w))
      ensures handedOn <==> Q.Released(Model(), old(works[w].turn))
    {
      Q.SettleKeepsInv(Model(), w);
      Q.RunningWorkIsHeld(Model(), w);
      turn.pending := turn.pending - 1;
      handedOn := turn.pending == 0;
      if handedOn {
        turn.active := false;
      }
      works := works[w := works[w].(running := false)];
      assert Model() == old(Q.Settle(Model(), w));
    }

    /** `startAfter`, once the turn ahead has been handed on: the turn starts with its first work. */
    method StartAfter(ahead: SqljsTurn?, turn: SqljsTurn, ghost t: nat)
      requires Valid() && t < |turns| && turns[t] == turn && !turn.started
      requires ahead == (if t == 0 then null else turns[t - 1])
      requires ahead != null ==> ahead.started && !ahead.active
      modifies this`works, turn
      ensures Valid() && turns == old(turns) && tail == old(tail)
      ensures old(Q.Ready(Model(), t)) && Model() == old(Q.StartTurn(Model(), t))
    {
      Q.StartKeepsInv(Model(), t);
      turn.started := true;
      turn.pending := turn.pending + 1;
      works := works + [Q.Work(t, true)];
      assert Model() == old(Q.StartTurn(Model(), t));
    }

    /** `enqueue`: inside a held turn the work begins at once; otherwise a new turn queues behind the tail. */
    method Enqueue(store: SqljsTurn?, ghost from: Option<nat>) returns (ahead: SqljsTurn?, turn: SqljsTurn)
      requires Valid() && IsStore(store, from)
      modifies this, store
      ensures Valid() && Model() == old(Q.Enqueue(Model(), from))
      ensures old(Q.HeldTurn(Model(), from)).Some? ==> turn == store && turns == old(turns)
      ensures old(Q.HeldTurn(Model(), from)).None? ==>
                fresh(turn) && turns == old(turns) + [turn] && ahead == old(tail) && tail == turn
    {
      ahead := tail;
      var held := HeldTurn(store, from);
      if held != null {
        Begin(held, from.value);
        turn := held;
      } else {
        Q.EnqueueKeepsInv(Model(), from);
        turn := new SqljsTurn();
        turns := turns + [turn];
        tail := turn;
        assert Model() == old(Q.Enqueue(Model(), from));
      }
    }
  }
}
