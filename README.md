# Personal finance widgets — a Dafny model

This project models the bookkeeping rules inside three browser widgets of a
small personal-finance site, and proves properties of them:

- the **subscription tracker** (`assinaturas/app.js`): a list of recurring bills,
  each open or paid. A render pass recomputes each bill's overdue flag from its
  due date and today. When a bill turns overdue, the pass appends today's date
  to the bill's delay history, unless that date is already there. The page also
  has filter buttons, a list ordered by due date and three summary totals.
- the **debt ledger** (`dividas/script.js`): debts, each with an append-only list of
  payments. From these the page derives the amount paid, the remaining balance,
  a progress percentage, a paid / overdue / nearing-due mark, the paid and open
  filters, and the payment dialog's prefill.
- the **investment wallet** (`investimento/investimentos.js`): a fixed-percentage
  allocation (10/45/18/27, with the dollar part split 60/40). The wallet keeps
  two maps over five categories: `initial`, what was put in (saving adds to it),
  and `current`, what the user reports now. Profit and loss per category and in
  total come from the two maps.
- the **stand-alone calculator** (`investimento/script.js`): the same split, with
  input validation and a conversion of the dollar bucket into dollars.

Modules follow the source files: `Subscriptions`, `Debts`, `Wallet` and
`Calculator`. Two modules sit under them: `Lists` holds `findIndex`, `filter`,
`reduce` into a sum and `sort` by a numeric key, written once as functions
over sequences; `Wrappers` holds `Option` and `Result`. The page's in-memory
state becomes a class: `Subscriptions.Tracker` holds `items`,
`Debts.Ledger` holds `debts`, and `Wallet.Page` holds the two maps and the
calculator's last allocation. Each handler that changes state is a method
proved against a specification function. The subscription handlers end as
the source's `saveItems` does, with a re-render, so their new list is the
overdue pass over the edited one. The properties are proved about
those functions.

Modelling choices:

- Amounts are `real`, so the percentage identities hold exactly. The source
  promises them only up to floating-point rounding.
- Dates are integer day numbers, each standing for local midnight of that day.
- The `YYYY-MM-DD` key that the delay history records is a separate
  parameter, because the source computes it with `toISOString`.
- "Today" is a parameter.
- `Date.now()` ids are a parameter (`freshId`).
- Where the page guards a parsed number (the wallet's fields and the
  calculator's amount), it is an `Option<real>`, and `None` stands for `NaN`.
  `parseFloat(x) || 0` becomes `Wallet.OrZero`. The amounts of the
  subscription and debt forms are plain numbers (see "Left out").
- The calculator takes `parseFloat` as a function parameter, so the comma
  replacement before parsing stays in the model.
- Subscription ids are integers. The page compares them with loose `==`
  between a number and its text, which is equality of numeric values.
- Debt ids are text, and the empty text is the form's "no id".

Two behaviours of the source are kept as written:

- Editing a subscription builds a record with no `isOverdue` field, so
  the flag reads as false. The next pass therefore treats an overdue bill
  as newly overdue. On a later day than its last recorded delay, that pass
  records a new delay (`Subscriptions.EditRecordsNewDelay`).
- Submitting the debt form with an id that no debt has reads `.payments`
  of `undefined` and throws, so the list is kept.
  `Debts.Ledger.Submit` reports this as `ok == false` and changes nothing.

## Model

| member | source | states |
|---|---|---|
| Lists.IndexOf | assinaturas/app.js:63 | -1 exactly when no element has the key; otherwise the index of the first element that has it |
| Lists.Filter | assinaturas/app.js:141-146 | the kept elements all satisfy the predicate and form a sub-multiset of the input, and there are as many as there are passing elements, so every passing element is kept |
| Lists.FilterKeepsPassing | assinaturas/app.js:141-146 | every element that satisfies the predicate is in the result |
| Lists.SumNonNegative | dividas/script.js:33 | a sum of terms none of which is negative is not negative |
| Lists.FilterConcat | assinaturas/app.js:89 | filtering distributes over concatenation, so the kept elements keep their relative order |
| Lists.FilterSplit | dividas/script.js:35-36 | two predicates that disagree on every element split the sequence, as a multiset and in length |
| Lists.RemoveKey | assinaturas/app.js:89 | exactly the elements with the key are removed: none remain, and the kept count plus the count of elements with the key is the input length |
| Lists.RemoveKeyConcat | dividas/script.js:200 | removal distributes over concatenation, so the kept elements stay in order |
| Lists.SumConcat | assinaturas/app.js:247-249 | the sum over a concatenation is the sum of the two sums |
| Lists.SumPartition3 | assinaturas/app.js:247-249 | when each element passes exactly one of three filters, the three filtered sums add up to the total sum |
| Lists.InsertBy | assinaturas/app.js:147 | inserting into a sorted sequence keeps it sorted and adds exactly that element |
| Lists.SortBy | assinaturas/app.js:147 | the result is ordered by the key and is a permutation of the input |
| Lists.IndexOfSameKeys | assinaturas/app.js:113 | two lists whose ids agree position by position have the same first match |
| Subscriptions.Upsert | assinaturas/app.js:52-73 | an unknown id appends an open record with an empty history; a known id replaces the record at the same index, keeping its status and delay history and clearing its overdue flag; other records and the length are unchanged on edit |
| Subscriptions.Tracker.Submit | assinaturas/app.js:50-75 | the list becomes the overdue pass over the upsert with the form's id (or the fresh id when the field is empty), as the save's re-render runs it; the rows and summary are those of the new list; histories stay duplicate-free |
| Subscriptions.WithStatus | assinaturas/app.js:112-116 | only the first record with the id changes, and only its status; an absent id changes nothing |
| Subscriptions.Tracker.UpdateStatus | assinaturas/app.js:112-116 | an absent id changes nothing and re-renders nothing; otherwise the list becomes the overdue pass over the status update, and the rows and summary are those of the new list; histories stay duplicate-free |
| Subscriptions.Tracker.Delete | assinaturas/app.js:87-92 | the list becomes the overdue pass over the deletion, and the rows and summary are those of the new list; histories stay duplicate-free |
| Subscriptions.PassItem | assinaturas/app.js:221-236 | a record's flag becomes "due before today and not paid"; its history gains today's key exactly when it turns overdue and the key is absent; nothing else changes |
| Subscriptions.OverduePass | assinaturas/app.js:217-237 | after a pass each flag is "due before today and not paid", a history grows by at most one entry (today's key, only when the record turns overdue and the key is absent), nothing else changes, and records keep their positions |
| Subscriptions.Tracker.CheckForOverdue | assinaturas/app.js:212-242 | the loop leaves the list equal to the pass over the old list, and asks for a save exactly when some record had today appended to its history |
| Subscriptions.PassKeepsHistoriesDistinct | assinaturas/app.js:226-227 | histories with no duplicate dates have none after a pass |
| Subscriptions.PassIdempotent | assinaturas/app.js:223-239 | a second pass on the same day changes nothing and asks for no save |
| Subscriptions.DueYesterdayScenario | assinaturas/app.js:221-228 | an open bill due yesterday turns overdue, with today as its only delay |
| Subscriptions.EditRecordsNewDelay | assinaturas/app.js:52-68 | editing an overdue bill clears its flag, so the next pass records today as a new delay when today is not yet recorded |
| Subscriptions.PaidThenUndo | assinaturas/app.js:112-116 | marking paid and then undoing, with a pass after each, leaves the bill open, with its flag recomputed from the due date and at most today added to its history |
| Subscriptions.Visible | assinaturas/app.js:141-147 | the rows are sorted by due date and are a permutation of the records the filter admits |
| Subscriptions.VisibleRows | assinaturas/app.js:141-146 | every row is admitted by the filter and comes from the list, every admitted record is a row, and under "all" the rows are the whole list |
| Subscriptions.UnknownFilterShowsNothing | assinaturas/app.js:146 | an unknown filter value shows no rows |
| Subscriptions.Summarize | assinaturas/app.js:246-249 | the open, overdue and paid totals add up to the sum of all values |
| Subscriptions.ExactlyOneButton | assinaturas/app.js:143-145 | every record falls under exactly one of the open, overdue and paid filters |
| Subscriptions.Tracker.Render | assinaturas/app.js:136-147 | a render runs the pass, then computes the summary and the rows from the updated list |
| Subscriptions.SplitPlain | assinaturas/app.js:171 | text without the separator splits into itself |
| Subscriptions.SplitFirst | assinaturas/app.js:171 | the piece before the first separator comes first |
| Subscriptions.FormatDueDate | assinaturas/app.js:171-172 | a text without a dash is shown as `undefined/undefined/` followed by the text |
| Subscriptions.FormatDueDateReorders | assinaturas/app.js:171-172 | a `year-month-day` text is shown as `day/month/year` |
| Subscriptions.Tracker.constructor | assinaturas/app.js:14 | the list starts as the overdue pass over the stored one, because the start-up `renderItems()` at the end of the file runs that pass before any handler; histories that were duplicate-free stay so |
| Debts.TotalPaid | dividas/script.js:33 | the paid sum is not negative when no payment is |
| Debts.IsPaid | dividas/script.js:34 | a debt with no payments is paid exactly when its total is not positive |
| Debts.Remaining | dividas/script.js:54 | what is left is total minus paid, and it is positive exactly when the debt is not paid |
| Debts.TotalPaidAppend | dividas/script.js:33 | appending a payment raises the paid sum by exactly its amount |
| Debts.DisplayedRemaining | dividas/script.js:53-101 | the shown balance is max(0, total - paid), and it is zero exactly when the debt is paid |
| Debts.Progress | dividas/script.js:55 | progress is paid / total * 100; a zero total gives no finite number (`NaN` or an infinity in the source), modelled as None |
| Debts.FiveHundredScenario | dividas/script.js:53-55 | a debt of 500 with one payment of 200 has 200 paid, 300 remaining and 40% progress |
| Debts.Classify | dividas/script.js:61-72 | paid iff paid >= total; otherwise overdue iff due before today, nearing due iff due within 7 days, and no mark without a due date or with a later one |
| Debts.Visible | dividas/script.js:32-48 | the rows are sorted by start date and are a permutation of the debts the filter admits |
| Debts.PaidOpenPartition | dividas/script.js:35-36 | the paid and open filters split the debts between them |
| Debts.OtherFiltersKeepAll | dividas/script.js:37 | "all", or any other value, keeps every debt |
| Debts.PaymentPrefill | dividas/script.js:128-139 | an unknown id opens nothing; the amount is prefilled with the remaining balance exactly when it is positive; the maximum is the displayed balance |
| Debts.Edited | dividas/script.js:159-163 | every debt with the id becomes the form's debt, carrying the payments of the first one; the others are unchanged |
| Debts.EditKeepsPaid | dividas/script.js:159 | an edit keeps the payments and so the paid sum |
| Debts.Ledger.Submit | dividas/script.js:149-166 | an empty id appends a new debt with no payments; a known id applies the edit; an unknown id changes nothing and reports failure |
| Debts.WithPayment | dividas/script.js:172-183 | the payment is appended to the first debt with the id, whose paid sum rises by exactly its amount; other debts are unchanged; an unknown id is a no-op |
| Debts.Ledger.AddPayment | dividas/script.js:172-183 | the list becomes the one with the payment added, and the result says whether the id was found |
| Debts.Ledger.Delete | dividas/script.js:198-203 | the list becomes the deletion |
| Debts.Ledger.constructor | dividas/script.js:13 | the list starts as the stored one |
| Wallet.OrZero | investimento/investimentos.js:163 | the value is zero exactly when there is no number or the number is zero; any number is kept |
| Wallet.Total | investimento/investimentos.js:92-93 | with no negative entry the total is not negative, and it is zero exactly when every entry is |
| Wallet.Zeros | investimento/investimentos.js:35-38 | every category maps to zero |
| Wallet.Allocate | investimento/investimentos.js:59-71 | the four buckets add up to the total, the dollar split adds up to the dollar bucket, and every part is positive for a positive total |
| Wallet.AllocateThousand | investimento/investimentos.js:64-71 | 1000 splits as 100/450/180/270, and the 450 as 270/180 |
| Wallet.InDollars | investimento/investimentos.js:78-81 | dollar figures exist exactly when the price is known and nonzero, and each times the price is the amount in reais |
| Wallet.InDollarsAddsUp | investimento/investimentos.js:79-81 | the two dollar parts add up to the dollar bucket in dollars |
| Wallet.Page.UpdateCalculator | investimento/investimentos.js:59-71 | results are shown exactly for a positive amount, and then the allocation is that amount's; otherwise the last allocation stays |
| Wallet.Added | investimento/investimentos.js:149-153 | each category of `initial` grows by its computed amount |
| Wallet.SaveAddsTheTotal | investimento/investimentos.js:145-153 | saving the allocation of an amount adds exactly that amount to the total put in |
| Wallet.Page.Save | investimento/investimentos.js:145-154 | a non-positive amount is refused and nothing changes; otherwise the last allocation is added into `initial`, and `current` is untouched |
| Wallet.UsStocksRatio | investimento/investimentos.js:166-168 | the ratio is the US-stocks share of what was put into dollars, or 0.6 when nothing was |
| Wallet.WithCurrent | investimento/investimentos.js:165-171 | a combined dollar value is split so the two US entries add up to it; any other field changes only its own entry |
| Wallet.DollarSplitFollowsInitial | investimento/investimentos.js:166-170 | the two US entries are in the proportion of what was put in |
| Wallet.Page.SetCurrent | investimento/investimentos.js:160-172 | `current` becomes the entry update with the parsed value, or zero when there is none |
| Wallet.FormatPl | investimento/investimentos.js:117-120 | a percentage appears exactly when the initial value is positive, and it is value / initial * 100; the class is profit, loss or empty by the value's sign |
| Wallet.CategoryPl | investimento/investimentos.js:115 | per-category profit or loss is current minus initial |
| Wallet.ProfitLoss | investimento/investimentos.js:113-129 | each row is current minus initial for its categories, the four rows add up to the total row, and the total and dollar rows show a percentage exactly when what was put in is positive |
| Wallet.TotalPlIsSumOfCategories | investimento/investimentos.js:115-116 | the total profit or loss is the sum of the per-category ones |
| Wallet.EmptyWalletShowsNothing | investimento/investimentos.js:113-128 | an all-zero wallet shows zero, no percentage and no class everywhere |
| Wallet.Page.constructor | investimento/investimentos.js:33-39 | the maps are the stored ones, or all zeros when nothing is stored; nothing is calculated yet |
| Wallet.Page.Reset | investimento/investimentos.js:177-180 | after a reset both maps are all zeros |
| Wallet.Page.SaveEdit | investimento/investimentos.js:191-194 | every `initial` entry takes its parsed value, or zero; `current` is untouched |
| Calculator.ReplaceFirstComma | investimento/script.js:71 | only the first comma becomes a point; the length and every other character are kept |
| Calculator.NoCommaUnchanged | investimento/script.js:71 | text without a comma is unchanged |
| Calculator.DecimalCommaReplaced | investimento/script.js:71 | a decimal comma becomes the point, and later commas stay |
| Calculator.Calculate | investimento/script.js:70-103 | a missing or non-positive amount is rejected; then a missing or zero rate is rejected; otherwise the buckets add up to the amount, the dollar bucket converts at the rate, and its 60/40 parts add up to it |
| Calculator.AgreesWithWallet | investimento/script.js:91-94 | the calculator's buckets in reais are the investment page's allocation of the same amount |

## Left out

- Rendering and the DOM are not modelled. This covers the list markup, modals, toasts, alerts, class toggling and the empty-state messages.
- Confirmation dialogs are taken as accepted.
- The edit buttons' form prefill is not modelled (`assinaturas/app.js:95-106`, `dividas/script.js:109-126`, `investimento/investimentos.js:184-188`), because it only copies values into form fields.
- The root `script.js` is not modelled: it only switches tabs.
- `localStorage` and JSON are not modelled. Each store is the state of a class, and its constructor takes the stored value (for the wallet, `None` when nothing is stored, which gives the all-zero default). A stored wallet is taken to have all five categories.
- The exchange-rate `fetch` and its periodic refresh are network I/O. The rate is a parameter.
- Clipboard copying is not modelled, because it is a browser API with timers.
- Locale formatting is not modelled (`toLocaleString`, `Intl`, `toFixed`, the `R$` text), because these are library calls.
- The debts' start and due dates are shown as text that is not modelled.
- `parseFloat` is not modelled: its result is an input (`Option<real>`, or a function parameter in the calculator).
- `Form.value`, `DebtForm.totalAmount` and `Payment.amount` are plain `real`, so a `NaN` from an empty or non-numeric field is not modelled (`assinaturas/app.js:55`, `dividas/script.js:155`, `dividas/script.js:179`).
- Debts.Classify: "paid mark exactly when paid" holds for numeric amounts only. In the source a `NaN` payment makes the paid sum `NaN`: the debt then counts as open for the filters but gets the paid mark.
- Floating-point rounding is not modelled: amounts are exact reals.
- Date parsing, local-midnight normalisation and daylight-saving offsets are not modelled. They can make the debts' `daysDiff` fractional. Days are integers.
- `toISOString` can name a different day than the local one. The delay-history key is therefore a separate parameter.
- Malformed date texts (an invalid `Date` compares false) are not modelled.
- Subscriptions.FormatDueDate: proved only for texts of three dash-free parts. Other texts follow the same definition, with "undefined" for missing pieces.
- Aliasing between records is not modelled. JavaScript objects can share a `delayHistory` or `payments` array: an edit reuses the old array, and a debt edit gives the same object to every debt with the id. The model works on values.
- Lists.SortBy: proved sorted and a permutation, not stable. The source relies on the engine's stable `Array.prototype.sort`.
- Wallet.Page.Save: requires an allocation to have been computed whenever the amount is positive. On the page, the input handler computes it on every keystroke. Before any computation the source adds `undefined`, and the save writes the resulting `NaN` entries as `null`; every later wallet render then throws when it formats a `null` entry. The model does not represent this.
- Subscriptions.Tracker.constructor: returns no rows or summary for the start-up render. A `Render` on the same day gives them and changes nothing more (`Subscriptions.PassIdempotent`).
- Stored records with other status texts, or with missing fields, are not modelled. The status is `Open` or `Paid`, the only values the page writes.
