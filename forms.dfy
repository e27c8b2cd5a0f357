/** What the add and edit forms turn into: the local record dispatched to
    the store and the arguments of the matching remote mutation
    (src/pages/AddTransaction.tsx, src/pages/TransactionList.tsx).
    Parsing the amount text (`parseFloat`) and printing an amount
    (`toString`) are parameters: `parse` and `numberText`. */
module Forms {
  import opened Schema

  /** The forms' `formData` state; `amount` is the text of the number input. */
  datatype FormData = FormData(
    name: string,
    amount: string,
    date: string,
    category: string,
    txType: TxType,
    notes: string)

  /** A call to the remote store, recorded in the order it is issued. The add
      call carries no record id: the remote store assigns its own. */
  datatype RemoteCall =
    | AddRemote(userId: Option<string>, name: string, amount: int, date: string,
                category: string, txType: TxType, notes: string)
    | DeleteRemote(id: string)
    | UpdateRemote(id: string, name: string, amount: int, date: string,
                   category: string, txType: TxType, notes: string)

  /** The add form before the user types; `today` is the current date as
      `YYYY-MM-DD`. */
  function DefaultForm(today: string): (f: FormData)
    ensures f.name == "" && f.amount == "" && f.notes == ""
    ensures f.category == "Other" && f.txType == Expense && f.date == today
  {
    FormData("", "", today, "Other", Expense, "")
  }

  /** `{ _id: id, ...formData, amount: parseFloat(formData.amount) }` */
  function NewRecord(id: string, f: FormData, parse: string -> int): Tx
  {
    Tx(id, None, f.name, parse(f.amount), f.date, f.category, f.txType, Some(f.notes))
  }

  /** `addTransactionMutation({ userId: user.email, ...fields })` */
  function AddCall(email: Option<string>, f: FormData, parse: string -> int): RemoteCall
  {
    AddRemote(email, f.name, parse(f.amount), f.date, f.category, f.txType, f.notes)
  }

  /** The edit form's initial state for record `t`. */
  function EditForm(t: Tx, numberText: int -> string): FormData
  {
    FormData(t.name, numberText(t.amount), t.date, t.category, t.txType, NotesText(t))
  }

  /** `{ ...transaction, ...formData, amount: parseFloat(formData.amount) }` */
  function Merge(t: Tx, f: FormData, parse: string -> int): Tx
  {
    t.(name := f.name, amount := parse(f.amount), date := f.date,
       category := f.category, txType := f.txType, notes := Some(f.notes))
  }

  /** `updateTransactionMutation({ id: transaction._id, ...fields })` */
  function UpdateCall(id: string, f: FormData, parse: string -> int): RemoteCall
  {
    UpdateRemote(id, f.name, parse(f.amount), f.date, f.category, f.txType, f.notes)
  }

  /** The local record of an add has the fresh id, no owner and the form's
      fields; the remote add carries the same field values, no id, and the
      user's email as owner. */
  lemma AddLocalAndRemoteAgree(id: string, email: Option<string>, f: FormData, parse: string -> int)
    ensures var t, c := NewRecord(id, f, parse), AddCall(email, f, parse);
      && t.id == id && t.userId == None
      && c.AddRemote? && c.userId == email
      && t.name == c.name == f.name && t.amount == c.amount == parse(f.amount)
      && t.date == c.date == f.date && t.category == c.category == f.category
      && t.txType == c.txType == f.txType && t.notes == Some(c.notes) && c.notes == f.notes
  {
  }

  /** The edit keeps the record's id and owner and takes the six form fields;
      the remote update is keyed by the record's id and carries the same
      values as the local edit. */
  lemma EditLocalAndRemoteAgree(t: Tx, f: FormData, parse: string -> int)
    ensures var m, c := Merge(t, f, parse), UpdateCall(t.id, f, parse);
      && m.id == t.id && m.userId == t.userId
      && c.UpdateRemote? && c.id == m.id
      && m.name == c.name == f.name && m.amount == c.amount == parse(f.amount)
      && m.date == c.date == f.date && m.category == c.category == f.category
      && m.txType == c.txType == f.txType && m.notes == Some(c.notes) && c.notes == f.notes
  {
  }

  /** Submitting the edit form untouched gives the record back, except that
      absent notes come back as the empty string (the form starts from
      `notes || ''`). */
  lemma UntouchedEditRoundTrip(t: Tx, numberText: int -> string, parse: string -> int)
    requires parse(numberText(t.amount)) == t.amount
    ensures Merge(t, EditForm(t, numberText), parse) == t.(notes := Some(NotesText(t)))
    ensures t.notes.Some? ==> Merge(t, EditForm(t, numberText), parse) == t
    ensures t.notes.None? ==> Merge(t, EditForm(t, numberText), parse).notes == Some("")
  {
  }
}
