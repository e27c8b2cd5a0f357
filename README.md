# Expense tracker core in Dafny

This project models the client-side core of a personal expense tracker, a
React application backed by a hosted document database. Users record
income and expense transactions, see totals and charts, filter the list
and export it. The model covers:

- **Store** (`store.dfy`). The reducer behind the transaction context:
  an ordered list of records and the four actions SET, ADD, DELETE and
  EDIT.
- **Home** (`home.dfy`). The dashboard's income total, expense total,
  balance and "recent" slice.
- **Reports** (`reports.dfy`, with `record.dfy` and `text.dfy`). The
  expenses-per-category fold, the income/expenses-per-month fold, the
  sorted month axis and the two bar series. A JavaScript
  `Record<string, number>` is an insertion-ordered list of unique keys
  (`Record.Dict`). Each fold is a recursive function, plus a method with
  a loop that is proved equal to it.
- **Transaction list** (`listview.dfy`, `forms.dfy`, `client.dfy`). The
  category/date filter, the query-result effect, delete with
  confirmation, and the edit drawer's submit handler.
- **Add page** (`forms.dfy`, `client.dfy`). The form defaults and the
  submit handler.
- **Exports** (`export.dfy`). The CSV text and the PDF table rows.

The handlers that change state are methods of the class
`Client.Session`. Its fields are:

- the local store;
- an outbox of remote calls, in the order they are issued;
- the remote updates whose failure was caught;
- whether the edit drawer is open.

Each handler states its whole new state in terms of the pure reducer
`Store.Reduce`. The lemmas about `Reduce` then carry over to the handlers.

Things the program gets from its environment are parameters:

- whether the user is authenticated, and the user object;
- the confirmation dialog's answer;
- the generated record id;
- whether the remote update fails;
- the query's response;
- the date-to-month-label function;
- the date formatters;
- amount parsing (`parseFloat`) and printing (`toString`, `toFixed(2)`).

Amounts are integers.

Two guards in the source differ, and the model keeps them apart:

- The query, delete and edit require `isAuthenticated && user?.email`
  (`Client.SignedInWithEmail`). In JavaScript an empty email is falsy.
- Add requires only `isAuthenticated && user` (`Client.SignedIn`). So a
  signed-in user without an email still issues a remote add, with an
  absent `userId`.

Identifiers are not assumed unique. DELETE filters out every record with
the identifier (src/context/TransactionContext.tsx:38), and EDIT replaces
every record with the payload's identifier
(src/context/TransactionContext.tsx:43-45).

The local record created by an add keeps its generated identifier. The
remote add carries no identifier at all (`Forms.RemoteCall.AddRemote`
has no id field), and the remote store assigns its own. A later delete
or edit of that record therefore sends the local identifier to the
remote store. The model records this as the calls in the outbox. It
does not model the remote store.

## Model

| member | source | states |
|---|---|---|
| Schema.TypeText | convex/schema.ts:11 | the stored type text is "income" exactly for income records and "expense" exactly for expense records |
| Schema.NotesText | src/utils/exportUtils.ts:20 | `notes \|\| ''`: truthy notes (present and non-empty) are read as they are, anything else as the empty string |
| Store.Reduce | src/context/TransactionContext.tsx:23-50 | the reducer; its properties are stated by Store.SetReplaces, Store.AddAppends, Store.DeleteRemovesEveryMatch, Store.DeleteAbsentIsNoop, Store.DeleteIdempotent, Store.EditReplacesMatches, Store.EditAbsentIsNoop, Store.EditIdempotent, Store.AddThenDeleteRestores, Store.DeleteAfterEdit and Store.AddsAppendInOrder |
| Store.InitialStateIsEmpty | src/context/TransactionContext.tsx:14-16 | the store starts empty, with no record under any id |
| Store.SetReplaces | src/context/TransactionContext.tsx:25-29 | SET makes the store exactly the payload, whatever it held before |
| Store.AddAppends | src/context/TransactionContext.tsx:30-34 | ADD grows the store by one; the old store is a prefix and the payload is last |
| Store.DeleteRemovesEveryMatch | src/context/TransactionContext.tsx:35-39 | after DELETE no record has the id; the result is an order-preserving subsequence of the store; every record with another id is kept, as many times as it occurs in the store |
| Store.DeleteAbsentIsNoop | src/context/TransactionContext.tsx:35-39 | DELETE of an id no record has leaves the store unchanged |
| Store.DeleteIdempotent | src/context/TransactionContext.tsx:35-39 | a second DELETE of the same id changes nothing |
| Store.EditReplacesMatches | src/context/TransactionContext.tsx:40-46 | EDIT keeps the length, puts the payload at every position with its id and leaves every other position unchanged |
| Store.EditAbsentIsNoop | src/context/TransactionContext.tsx:40-46 | EDIT with an id no record has leaves the store unchanged |
| Store.EditIdempotent | src/context/TransactionContext.tsx:40-46 | applying the same EDIT twice equals applying it once |
| Store.AddThenDeleteRestores | src/context/TransactionContext.tsx:30-39 | ADD of a record with an id no record had, then DELETE of that id, gives back the original store |
| Store.DeleteAfterEdit | src/context/TransactionContext.tsx:35-46 | EDIT then DELETE of the payload's id equals the DELETE alone |
| Store.AddsAppendInOrder | src/context/TransactionContext.tsx:30-34 | a run of ADDs leaves the old store followed by the added records in dispatch order |
| Home.TotalIncome | src/pages/Home.tsx:22-24 | `totalIncome`; Home.TotalsAreConditionalSums, Home.TotalsOfEmptyStore, Home.TotalsPartitionAllAmounts and Home.AddUpdatesTotals state its value |
| Home.TotalExpenses | src/pages/Home.tsx:26-28 | `totalExpenses`; stated by the same lemmas as Home.TotalIncome |
| Home.Balance | src/pages/Home.tsx:30 | `balance`; Home.BalanceIsSignedSum and Home.TotalsOfEmptyStore state its value |
| Home.Recent | src/pages/Home.tsx:72 | `slice(0, 5)`; Home.RecentIsFirstFive and Home.RecentIgnoresLaterAdds state what it holds |
| Home.TotalsAreConditionalSums | src/pages/Home.tsx:22-28 | the filter-then-reduce totals equal the sum of amounts over the records of each type |
| Home.TotalsOfEmptyStore | src/pages/Home.tsx:22-30 | an empty store has income, expenses and balance all 0 |
| Home.TotalsPartitionAllAmounts | src/pages/Home.tsx:22-28 | every record is income or expense, so the two totals add up to the sum of all amounts |
| Home.BalanceIsSignedSum | src/pages/Home.tsx:22-30 | the balance is the sum of amounts with income counted positive and expense negative |
| Home.AddUpdatesTotals | src/pages/Home.tsx:22-28 | after ADD the total of the record's type rises by its amount and the other total is unchanged |
| Home.RecentIsFirstFive | src/pages/Home.tsx:72 | the recent list is the first min(5, n) records in store order |
| Home.RecentIgnoresLaterAdds | src/pages/Home.tsx:72 | once the store holds five records, an added record does not change the recent list |
| Record.Get | src/pages/Reports.tsx:32 | `d[k] \|\| 0` is 0 for a key the map lacks |
| Record.Assign | src/pages/Reports.tsx:32 | assignment sets the key's value, leaves every other key's value alone, appends a new key after the old ones, keeps keys unique and changes the sum of the values by the difference |
| Record.AddTo | src/pages/Reports.tsx:41-43 | `acc[k] = (acc[k] \|\| 0) + amount` raises the key's value by the amount, leaves other keys alone and raises the sum of the values by the amount |
| Text.SortStrings | src/pages/Reports.tsx:73 | sorting is a permutation of its input |
| Text.SortStringsSorted | src/pages/Reports.tsx:73 | the sorted list is in string order, comparing code points (see Left out) |
| Text.SortStringsNoDuplicates | src/pages/Reports.tsx:70-73 | sorting a duplicate-free list gives a duplicate-free list |
| Text.Dedup | src/pages/Reports.tsx:70-72 | `[...new Set(xs)]` repeats no element and holds exactly the elements of `xs` |
| Text.SplitJoinRoundTrip | src/utils/exportUtils.ts:23-26 | text joined on a separator that no part holds splits back into the parts |
| Reports.CategoryExpenses | src/pages/Reports.tsx:29-34 | `categoryExpenses`; Reports.CategoryExpensesKeys, Reports.CategoryExpensesValue, Reports.CategoryExpensesSumToTotal and Reports.IncomeLeavesCategoriesAlone state its keys and values |
| Reports.TallyCategories | src/pages/Reports.tsx:31-34 | the accumulating loop ends with the category map the fold defines |
| Reports.ComputeCategoryExpenses | src/pages/Reports.tsx:29-34 | filtering the expense records and tallying them gives `categoryExpenses` |
| Reports.CategoryTotalsFacts | src/pages/Reports.tsx:31-34 | the fold's keys are unique and are exactly the categories present, and its values add up to the sum of the amounts |
| Reports.CategoryTotalsValue | src/pages/Reports.tsx:31-34 | each category's value is the sum of the amounts of the records in that category |
| Reports.CategoryExpensesKeys | src/pages/Reports.tsx:29-34 | `categoryExpenses` has a key exactly for each category with at least one expense record |
| Reports.CategoryExpensesValue | src/pages/Reports.tsx:29-34 | each category's value is the sum of that category's expense amounts |
| Reports.CategoryExpensesSumToTotal | src/pages/Reports.tsx:29-34 | the category values add up to the dashboard's expense total |
| Reports.IncomeLeavesCategoriesAlone | src/pages/Reports.tsx:29-30 | adding an income record does not change `categoryExpenses` |
| Reports.MonthlyData | src/pages/Reports.tsx:37-48 | `monthlyData`; Reports.MonthlySumsMatchTotals, Reports.MonthlyBucketValue and Reports.MonthlyDependsOnlyOnLabels state its buckets |
| Reports.ComputeMonthlyData | src/pages/Reports.tsx:37-48 | the loop over the records ends with the monthly totals the fold defines |
| Reports.MonthlySumsMatchTotals | src/pages/Reports.tsx:37-48 | both monthly maps keep keys unique; the income buckets add up to the income total and the expense buckets to the expense total, so each record is counted once |
| Reports.MonthlyStepBucket | src/pages/Reports.tsx:40-44 | one step adds the record's amount to the bucket of its type and month label, and to no other bucket |
| Reports.MonthlyBucketValue | src/pages/Reports.tsx:37-48 | a bucket's value is the sum of the amounts of the records of its type whose date has that month label |
| Reports.MonthlyDependsOnlyOnLabels | src/pages/Reports.tsx:39 | the monthly totals depend only on each record's type, amount and month label, so the same month of different years shares a bucket |
| Reports.Months | src/pages/Reports.tsx:70-73 | `months`; Reports.MonthsSortedUnion states its order and contents |
| Reports.Series | src/pages/Reports.tsx:80-87 | a bar series; Reports.BarSeriesShape, Reports.SeriesSumsValues and Reports.BarSeriesSumToTotals state its length, zeros and sum |
| Reports.MonthsSortedUnion | src/pages/Reports.tsx:70-73 | `months` is sorted in string order, repeats no label and holds exactly the keys of the two maps |
| Reports.BarSeriesShape | src/pages/Reports.tsx:80-87 | both series have one entry per month, and a month missing from a map reads 0 |
| Reports.SeriesSumsValues | src/pages/Reports.tsx:80-87 | a series over duplicate-free labels that cover a map's keys adds up to the sum of the map's values |
| Reports.BarSeriesSumToTotals | src/pages/Reports.tsx:70-87 | the income bars add up to the income total and the expense bars to the expense total |
| Forms.DefaultForm | src/pages/AddTransaction.tsx:15-22 | the add form starts with empty name, amount and notes, category "Other", type expense and today's date |
| Forms.NewRecord | src/pages/AddTransaction.tsx:42-49 | the local record of an add; Forms.AddLocalAndRemoteAgree states its fields |
| Forms.EditForm | src/pages/TransactionList.tsx:76-83 | the edit form's initial state; Forms.UntouchedEditRoundTrip states its relation to the record |
| Forms.Merge | src/pages/TransactionList.tsx:87-91 | the edited record; Forms.EditLocalAndRemoteAgree and Forms.UntouchedEditRoundTrip state its fields |
| Forms.AddLocalAndRemoteAgree | src/pages/AddTransaction.tsx:42-63 | the local record has the generated id and no owner; the remote add has no id and the user's email as owner; both carry the same name, amount, date, category, type and notes |
| Forms.EditLocalAndRemoteAgree | src/pages/TransactionList.tsx:87-108 | the merged record keeps the original id and owner and takes the six form fields; the remote update is keyed by the original id and carries the same values |
| Forms.UntouchedEditRoundTrip | src/pages/TransactionList.tsx:76-91 | submitting the edit form unchanged gives the record back, except that absent notes become the empty string |
| ListView.FilteredTransactions | src/pages/TransactionList.tsx:49-53 | `filteredTransactions`; ListView.FilteredKeepsExactlyMatches, ListView.NoFilterListsEverything and ListView.DateNarrowsCategory state what it keeps |
| ListView.FilteredKeepsExactlyMatches | src/pages/TransactionList.tsx:49-53 | the filtered list is an order-preserving subsequence of the store, and a record is in it exactly when its category and date pass the filters, as many times as it occurs in the store |
| ListView.NoFilterListsEverything | src/pages/TransactionList.tsx:50-51 | with category "all" and an empty date the whole store is listed |
| ListView.DateNarrowsCategory | src/pages/TransactionList.tsx:49-53 | filtering by category and date equals filtering by the category and then by the date |
| Client.EmailGuardIsStricter | src/pages/AddTransaction.tsx:40 | the delete/edit/query guard implies the add guard; the add guard holds for a signed-in user without an email, which the other guard rejects |
| Client.Session.constructor | src/context/TransactionContext.tsx:52-53 | a session starts with the empty store, no remote calls, no caught failures and the drawer closed |
| Client.Session.Dispatch | src/context/TransactionContext.tsx:23-50 | dispatching replaces the store by the reducer's result and changes nothing else |
| Client.Session.ReceiveQuery | src/pages/TransactionList.tsx:24-32 | a query result replaces the store wholesale, even when empty; a skipped query (no email) or a pending one leaves everything unchanged |
| Client.Session.HandleDelete | src/pages/TransactionList.tsx:55-68 | without confirmation nothing changes; with it the local DELETE happens, and one remote delete of the same id is issued only when signed in with an email |
| Client.Session.OpenEditor | src/pages/TransactionList.tsx:290-304 | opening the drawer changes nothing else |
| Client.Session.SubmitEdit | src/pages/TransactionList.tsx:85-115 | the local EDIT of the merged record always happens; the remote update is issued only when signed in with an email; a failed update is recorded as caught and the local edit stays; the drawer closes |
| Client.Session.SubmitAdd | src/pages/AddTransaction.tsx:38-76 | both branches dispatch exactly one ADD of the new record; exactly one remote add, with the user's email, is issued iff authenticated with a user object |
| Client.SignedOutSession | src/pages/AddTransaction.tsx:64-72 | signed out, two adds and a confirmed delete of the first leave only the second record and issue no remote call |
| Export.CsvText | src/utils/exportUtils.ts:13-26 | `csvContent`; Export.CsvTextEnds, Export.CsvTextLines and Export.SingleExpenseExport state its lines |
| Export.CsvLines | src/utils/exportUtils.ts:23-26 | n records give n + 1 lines |
| Export.HeaderLineIsJoinedHeaders | src/utils/exportUtils.ts:13-24 | the first line is exactly `Date,Name,Category,Type,Amount (DZD),Notes` |
| Export.QuoteRoundTrip | src/utils/exportUtils.ts:25 | stripping the surrounding quotes gives the cell back |
| Export.CsvRowOfRecord | src/utils/exportUtils.ts:14-25 | a record's line is its date, name, category, type, amount and notes, each in double quotes, separated by commas |
| Export.AbsentNotesGiveEmptyCell | src/utils/exportUtils.ts:20-25 | a record without notes ends its line with an empty quoted cell |
| Export.CsvRowRoundTrip | src/utils/exportUtils.ts:25 | when no cell holds a comma, splitting a line on commas and stripping the quotes gives the cells back |
| Export.CsvRowDoesNotEscape | src/utils/exportUtils.ts:25 | nothing is escaped: one cell holding `","` gives the same line as two cells |
| Export.CsvTextEnds | src/utils/exportUtils.ts:23-26 | the text starts with the header line, is only that line for no records, and never ends with a newline |
| Export.CsvTextLines | src/utils/exportUtils.ts:23-26 | when no cell holds a newline, the text splits into the header line followed by line i + 1 from record i |
| Export.PdfRow | src/utils/exportUtils.ts:45-52 | one row of `tableData`; Export.PdfAndCsvAgree states its cells |
| Export.AmountText | src/utils/exportUtils.ts:50 | the signed amount cell; Export.AmountTextReadsBack states its parts |
| Export.PdfBody | src/utils/exportUtils.ts:45-56 | one row per record, each as wide as the six-column head |
| Export.AmountTextReadsBack | src/utils/exportUtils.ts:50 | the amount text is the sign ("+" exactly for income, "-" exactly for expense), a space, the printed amount and " DZD" |
| Export.PdfAndCsvAgree | src/utils/exportUtils.ts:13-56 | the two exports have six columns, with the same titles except the amount's, and the same name, category, type and notes cells |
| Export.SingleExpenseExport | src/utils/exportUtils.ts:12-26 | one expense with empty notes exports as the header line and `"2024-03-01","Coffee","Other","expense","5",""` |

## Left out

- Authentication widgets, routing, layout and the export dropdown are user interface. The identity provider is represented only by the `authenticated` flag and the user object passed to each handler.
- The remote database functions are not part of this model. A remote call is an entry in `Client.Session.outbox`.
- The asynchrony of the live query is not modelled. Nor are its staleness (a late result overwriting newer local changes) and the order in which remote calls complete. Each call to `ReceiveQuery` is one delivered result.
- The same query effect also sits on the dashboard (src/pages/Home.tsx:11-19). `Client.Session.ReceiveQuery` models both copies.
- Client.Session.HandleDelete: the remote delete is not awaited inside its `try`, so a rejected call escapes the `catch`. The model records the issued call and nothing about its outcome.
- Client.Session.SubmitAdd: the remote add is neither awaited nor caught. Its outcome is not modelled.
- Floating point is not modelled. Amounts are integers, and `parseFloat`, `toString` and `toFixed(2)` are the parameters `parse`, `numberText` and `fixed2`. Rounding and `NaN` are therefore not captured.
- Dates are not modelled: `new Date(...)`, the locale month label and both date formats are parameters (`monthOf`, `isoDate`, `longDate`). So are today's date for the form default and the id generator.
- The confirmation dialog is not modelled; its answer is the `confirmed` parameter.
- File output is not modelled: the Blob and download link, the jsPDF title, styling and page layout, and file names built from the current date.
- Console logging is not modelled.
- Text.SortStringsSorted: `LexLe` compares Unicode code points, while JavaScript's `sort()` compares UTF-16 code units. The two orders differ for labels that mix characters above U+FFFF with characters from U+E000 to U+FFFF; locale month labels normally hold neither.
- Export.CsvText, Export.PdfBody: the date formatters are total functions here, while date-fns `format` throws on an invalid date (src/utils/exportUtils.ts:15,46), which aborts the whole export. An export that fails is not modelled.
- Text.SortStrings: it is an insertion sort, not the engine's sort algorithm. On the duplicate-free month labels every correct sort gives the same list.
- Export.CsvTextLines, Export.CsvRowRoundTrip: they require that no cell holds a newline or a comma. With such cells the line structure breaks, and Export.CsvRowDoesNotEscape shows how.
- The Transaction type declaration (src/types/transaction.ts) is not part of this model. The record follows convex/schema.ts, plus the local `_id`, which is `Schema.Tx.id`.
