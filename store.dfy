/** The client-side transaction store: a reducer over an ordered list of
    records keyed by `id` (src/context/TransactionContext.tsx). */
module Store {
  import opened Schema
  import opened Seqs

  /** The four actions the store accepts. */
  datatype Action =
    | SetTransactions(list: seq<Tx>)
    | AddTransaction(tx: Tx)
    | DeleteTransaction(id: string)
    | EditTransaction(tx: Tx)

  /** The store before anything is dispatched. */
  const InitialState: seq<Tx> := []

  /** `t._id !== id`, the predicate DELETE filters with. */
  function KeepOtherIds(id: string): Tx -> bool
  {
    (t: Tx) => t.id != id
  }

  /** `transactions.map(t => t._id === p._id ? p : t)` */
  function ReplaceById(s: seq<Tx>, p: Tx): seq<Tx>
  {
    seq(|s|, i requires 0 <= i < |s| => if s[i].id == p.id then p else s[i])
  }

  /** The reducer: the next store for the current one and an action. */
  function Reduce(s: seq<Tx>, a: Action): seq<Tx>
  {
    match a
    case SetTransactions(list) => list
    case AddTransaction(t) => s + [t]
    case DeleteTransaction(id) => Filter(s, KeepOtherIds(id))
    case EditTransaction(p) => ReplaceById(s, p)
  }

  /** Dispatching actions one after another, in order. */
  function ReduceAll(s: seq<Tx>, actions: seq<Action>): seq<Tx>
    decreases |actions|
  {
    if actions == [] then s
    else ReduceAll(Reduce(s, actions[0]), actions[1..])
  }

  /** True when some record of `s` has identifier `id`. */
  predicate HasId(s: seq<Tx>, id: string)
  {
    exists i :: 0 <= i < |s| && s[i].id == id
  }

  lemma InitialStateIsEmpty()
    ensures |InitialState| == 0
    ensures forall id :: !HasId(InitialState, id)
  {
  }

  /** SET_TRANSACTIONS discards the old contents. */
  lemma SetReplaces(s: seq<Tx>, list: seq<Tx>)
    ensures Reduce(s, SetTransactions(list)) == list
  {
  }

  /** ADD_TRANSACTION appends at the end. */
  lemma AddAppends(s: seq<Tx>, t: Tx)
    ensures var r := Reduce(s, AddTransaction(t));
      |r| == |s| + 1 && r[..|s|] == s && r[|s|] == t
  {
  }

  /** DELETE_TRANSACTION removes every record with the id and keeps the
      others, in their original order and with every repetition. */
  lemma DeleteRemovesEveryMatch(s: seq<Tx>, id: string)
    ensures var r := Reduce(s, DeleteTransaction(id));
      && !HasId(r, id)
      && IsSubsequence(r, s)
      && (forall i :: 0 <= i < |s| && s[i].id != id ==> s[i] in r)
      && (forall x: Tx :: multiset(r)[x] == if x.id != id then multiset(s)[x] else 0)
  {
    var p := KeepOtherIds(id);
    var r := Filter(s, p);
    assert Reduce(s, DeleteTransaction(id)) == r;
    FilterIsSubsequence(s, p);
    forall i | 0 <= i < |s| && s[i].id != id ensures s[i] in r {
      FilterKeepsPassing(s, p, i);
    }
    forall x: Tx ensures multiset(r)[x] == if x.id != id then multiset(s)[x] else 0 {
      FilterCount(s, p, x);
    }
  }

  lemma DeleteAbsentIsNoop(s: seq<Tx>, id: string)
    requires !HasId(s, id)
    ensures Reduce(s, DeleteTransaction(id)) == s
  {
    FilterAllPass(s, KeepOtherIds(id));
  }

  lemma DeleteIdempotent(s: seq<Tx>, id: string)
    ensures var once := Reduce(s, DeleteTransaction(id));
      Reduce(once, DeleteTransaction(id)) == once
  {
    FilterIdempotent(s, KeepOtherIds(id));
  }

  /** EDIT_TRANSACTION keeps the length, puts the payload at every position
      whose id matches and leaves every other position as it was. */
  lemma EditReplacesMatches(s: seq<Tx>, p: Tx)
    ensures var r := Reduce(s, EditTransaction(p));
      && |r| == |s|
      && (forall i :: 0 <= i < |s| && s[i].id == p.id ==> r[i] == p)
      && (forall i :: 0 <= i < |s| && s[i].id != p.id ==> r[i] == s[i])
      && (forall i :: 0 <= i < |s| ==> (r[i].id == p.id <==> s[i].id == p.id))
  {
  }

  lemma EditAbsentIsNoop(s: seq<Tx>, p: Tx)
    requires !HasId(s, p.id)
    ensures Reduce(s, EditTransaction(p)) == s
  {
  }

  lemma EditIdempotent(s: seq<Tx>, p: Tx)
    ensures var once := Reduce(s, EditTransaction(p));
      Reduce(once, EditTransaction(p)) == once
  {
  }

  /** Deleting a record that was just added, under an id nobody else had,
      gives back the store as it was. */
  lemma AddThenDeleteRestores(s: seq<Tx>, t: Tx)
    requires !HasId(s, t.id)
    ensures ReduceAll(s, [AddTransaction(t), DeleteTransaction(t.id)]) == s
  {
    var keep := KeepOtherIds(t.id);
    FilterAppend(s, [t], keep);
    FilterAllPass(s, keep);
    assert Filter([t], keep) == [];
    var acts := [AddTransaction(t), DeleteTransaction(t.id)];
    assert acts[1..] == [DeleteTransaction(t.id)] && acts[1..][1..] == [];
    calc {
      ReduceAll(s, acts);
      ReduceAll(s + [t], [DeleteTransaction(t.id)]);
      ReduceAll(Filter(s + [t], keep), []);
      Filter(s, keep) + Filter([t], keep);
      s;
    }
  }

  /** Editing a record and then deleting its id is the same as deleting it. */
  lemma {:induction false} DeleteAfterEdit(s: seq<Tx>, p: Tx)
    ensures Reduce(Reduce(s, EditTransaction(p)), DeleteTransaction(p.id))
         == Reduce(s, DeleteTransaction(p.id))
  {
    var keep := KeepOtherIds(p.id);
    if s != [] {
      DeleteAfterEdit(s[1..], p);
      var e := ReplaceById(s, p);
      assert e == [e[0]] + ReplaceById(s[1..], p);
      assert keep(e[0]) == keep(s[0]);
      assert keep(e[0]) ==> e[0] == s[0];
    }
  }

  /** A run of ADD actions leaves exactly the added records, in order, after
      the old ones. */
  lemma {:induction false} AddsAppendInOrder(s: seq<Tx>, ts: seq<Tx>)
    ensures ReduceAll(s, seq(|ts|, i requires 0 <= i < |ts| => AddTransaction(ts[i]))) == s + ts
    decreases |ts|
  {
    var acts := seq(|ts|, i requires 0 <= i < |ts| => AddTransaction(ts[i]));
    if ts == [] {
      assert acts == [];
    } else {
      var rest := seq(|ts| - 1, i requires 0 <= i < |ts| - 1 => AddTransaction(ts[1..][i]));
      assert acts[1..] == rest;
      AddsAppendInOrder(s + [ts[0]], ts[1..]);
      assert s + [ts[0]] + ts[1..] == s + ts;
    }
  }
}
