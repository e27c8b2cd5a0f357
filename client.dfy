/** The page handlers that change the store: the query-result effect
    (src/pages/Home.tsx, src/pages/TransactionList.tsx), delete and edit
    (src/pages/TransactionList.tsx) and add (src/pages/AddTransaction.tsx).
    Every handler applies its local action first; a remote call follows only
    when the user guard holds, and is recorded in `outbox` in issue order.
    The login state, the confirmation dialog's answer, the generated id and
    the outcome of the remote update are parameters. */
module Client {
  import opened Schema
  import opened Store
  import opened Forms
  import opened Seqs

  /** The identity provider's user object; `email` may be missing. */
  datatype User = User(email: Option<string>)

  /** `isAuthenticated && user?.email`: the guard of the query, delete and
      edit. */
  predicate SignedInWithEmail(authenticated: bool, user: Option<User>)
  {
    authenticated && user.Some? && Truthy(user.value.email)
  }

  /** `isAuthenticated && user`: the add handler's guard, which does not
      look at the email. */
  predicate SignedIn(authenticated: bool, user: Option<User>)
  {
    authenticated && user.Some?
  }

  lemma EmailGuardIsStricter(authenticated: bool, user: Option<User>)
    ensures SignedInWithEmail(authenticated, user) ==> SignedIn(authenticated, user)
    ensures SignedIn(authenticated, Some(User(None))) == authenticated
    ensures !SignedInWithEmail(authenticated, Some(User(None)))
    ensures !SignedInWithEmail(authenticated, Some(User(Some(""))))
  {
  }

  class Session {
    /** The store's list of records. */
    var store: seq<Tx>
    /** Remote mutations issued so far, oldest first. */
    var outbox: seq<RemoteCall>
    /** Remote updates whose failure was caught and logged. */
    var caughtFailures: seq<RemoteCall>
    /** Whether the edit drawer is open. */
    var editorOpen: bool

    constructor ()
      ensures store == InitialState && outbox == [] && caughtFailures == [] && !editorOpen
    {
      store := InitialState;
      outbox := [];
      caughtFailures := [];
      editorOpen := false;
    }

    /** `dispatch(action)` */
    method Dispatch(a: Action)
      modifies this
      ensures store == Reduce(old(store), a)
      ensures outbox == old(outbox) && caughtFailures == old(caughtFailures) && editorOpen == old(editorOpen)
    {
      store := Reduce(store, a);
    }

    /** The `getTransactions` query and the effect that follows it. The query
        is skipped unless the guard holds, and then yields nothing; a
        `response` of `None` is a result still pending. Any list, the empty
        one included, replaces the store wholesale. */
    method ReceiveQuery(authenticated: bool, user: Option<User>, response: Option<seq<Tx>>)
      modifies this
      ensures store == if SignedInWithEmail(authenticated, user) && response.Some?
        then response.value else old(store)
      ensures outbox == old(outbox) && caughtFailures == old(caughtFailures) && editorOpen == old(editorOpen)
    {
      if SignedInWithEmail(authenticated, user) && response.Some? {
        Dispatch(SetTransactions(response.value));
      }
    }

    /** `handleDelete(id)` */
    method HandleDelete(id: string, confirmed: bool, authenticated: bool, user: Option<User>)
      modifies this
      ensures store == if confirmed then Reduce(old(store), DeleteTransaction(id)) else old(store)
      ensures outbox == if confirmed && SignedInWithEmail(authenticated, user)
        then old(outbox) + [DeleteRemote(id)] else old(outbox)
      ensures caughtFailures == old(caughtFailures) && editorOpen == old(editorOpen)
    {
      if confirmed {
        Dispatch(DeleteTransaction(id));
        if SignedInWithEmail(authenticated, user) {
          outbox := outbox + [DeleteRemote(id)];
        }
      }
    }

    /** The drawer trigger next to a record. */
    method OpenEditor()
      modifies this
      ensures editorOpen
      ensures store == old(store) && outbox == old(outbox) && caughtFailures == old(caughtFailures)
    {
      editorOpen := true;
    }

    /** `EditTransactionForm.handleSubmit` for record `t` and the form's
        state. A failed remote update is caught: the local edit stays and
        the drawer still closes. */
    method SubmitEdit(t: Tx, f: FormData, parse: string -> int,
                      authenticated: bool, user: Option<User>, remoteFails: bool)
      modifies this
      ensures store == Reduce(old(store), EditTransaction(Merge(t, f, parse)))
      ensures outbox == if SignedInWithEmail(authenticated, user)
        then old(outbox) + [UpdateCall(t.id, f, parse)] else old(outbox)
      ensures caughtFailures == if SignedInWithEmail(authenticated, user) && remoteFails
        then old(caughtFailures) + [UpdateCall(t.id, f, parse)] else old(caughtFailures)
      ensures !editorOpen
    {
      Dispatch(EditTransaction(Merge(t, f, parse)));
      if SignedInWithEmail(authenticated, user) {
        var call := UpdateCall(t.id, f, parse);
        outbox := outbox + [call];
        if remoteFails {
          caughtFailures := caughtFailures + [call];
        }
      }
      editorOpen := false;
    }

    /** `AddTransaction.handleSubmit`: both branches dispatch the same ADD;
        the signed-in branch then issues one remote add with the user's
        email, present or not. */
    method SubmitAdd(f: FormData, freshId: string, parse: string -> int,
                     authenticated: bool, user: Option<User>)
      modifies this
      ensures store == Reduce(old(store), AddTransaction(NewRecord(freshId, f, parse)))
      ensures outbox == if SignedIn(authenticated, user)
        then old(outbox) + [AddCall(user.value.email, f, parse)] else old(outbox)
      ensures caughtFailures == old(caughtFailures) && editorOpen == old(editorOpen)
    {
      if SignedIn(authenticated, user) {
        Dispatch(AddTransaction(NewRecord(freshId, f, parse)));
        outbox := outbox + [AddCall(user.value.email, f, parse)];
      } else {
        Dispatch(AddTransaction(NewRecord(freshId, f, parse)));
      }
    }
  }

  /** A short session: signed out, two adds and a confirmed delete. Nothing
      reaches the remote store, and the store holds the second record. */
  method SignedOutSession(f1: FormData, f2: FormData, parse: string -> int)
    returns (store: seq<Tx>, outbox: seq<RemoteCall>)
    ensures outbox == []
    ensures store == [NewRecord("b", f2, parse)]
  {
    var a, b := NewRecord("a", f1, parse), NewRecord("b", f2, parse);
    assert Filter([a, b], KeepOtherIds("a")) == [b] by {
      assert [a, b][1..] == [b] && [b][1..] == [];
    }
    var session := new Session();
    session.SubmitAdd(f1, "a", parse, false, None);
    session.SubmitAdd(f2, "b", parse, false, None);
    assert session.store == [a, b];
    session.HandleDelete("a", true, false, None);
    store, outbox := session.store, session.outbox;
  }
}
