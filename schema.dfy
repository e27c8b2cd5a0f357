/** The transaction record: the single entity of the expense tracker.
    Amounts are integers (hundredths of the currency unit) instead of
    JavaScript numbers. */
module Schema {

  datatype Option<+T> = None | Some(value: T)

  /** `type: v.union(v.literal("income"), v.literal("expense"))` */
  datatype TxType = Income | Expense

  /** One record of the local store. `userId` is absent on records that
      were created locally; `notes` is optional in the schema. */
  datatype Tx = Tx(
    id: string,
    userId: Option<string>,
    name: string,
    amount: int,
    date: string,
    category: string,
    txType: TxType,
    notes: Option<string>)

  /** The literal that the source stores in the `type` field. */
  function TypeText(t: TxType): (s: string)
    ensures s == "income" <==> t == Income
    ensures s == "expense" <==> t == Expense
  {
    match t
    case Income => "income"
    case Expense => "expense"
  }

  /** `t.notes || ''`: an absent note and an empty note both read as "". */
  function NotesText(t: Tx): (s: string)
    ensures Truthy(t.notes) ==> s == t.notes.value
    ensures !Truthy(t.notes) ==> s == ""
  {
    if t.notes.Some? then t.notes.value else ""
  }

  /** JavaScript truthiness of an optional string (`!!s`): present and non-empty. */
  predicate Truthy(s: Option<string>)
  {
    s.Some? && s.value != ""
  }
}
