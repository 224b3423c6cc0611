# Customer transactions dashboard — a Dafny model of its data handling

The dashboard is a single React component, `App`. It loads a JSON document of
customers and transactions once. It shows the transactions in a table that can be
filtered by customer or by a minimum amount. It draws a bar chart of the selected
customer's totals per day. This project models the component's data handling:

- **Page state** (`Page.App`): the five `useState` slots as fields of a class.
  - `DataLoaded` is the fetch callback. The outcome of the GET comes in as a `Result`.
  - `HandleCustomerChange` and `HandleAmountFilter` are the two change handlers.
  - The ghost invariant `Valid` says the table only ever shows a subsequence of
    the dataset. Every operation keeps it.
- **Filters** (`Filters`): JavaScript's `Array.prototype.filter` as `Filter`.
  Its contract pins the result down completely:
  - it is a subsequence;
  - it has the right elements;
  - each element occurs as often as in the input.
  `ByCustomer` and `ByMinAmount` apply the two predicates the page uses. Both
  handlers start from the full `transactions` list, so the handler that runs last
  decides the table (`CustomerThenAmount`, `AmountThenCustomer`).
- **Chart series** (`DailyTotals`): `getTotalTransactionsPerDay`.
  - The `reduce` into a plain object is the loop `Accumulate`. `keys` models the
    object's own-key order; `totals` models its contents.
  - The loop is proved against reference definitions: `Dates`, the distinct dates in
    first-seen order, and `DateTotal`, the sum per date.
  - Lemmas about those definitions prove that no date repeats, that the dates are
    exactly those that occur, that they come in first-seen order, and that the
    grouping keeps the total amount.
- **Name column** (`Names`, `Page.App.CustomerNameById`): `getCustomerNameById`
  as the `forEach` loop it is. Every match overwrites the result, so the last
  customer with the id wins. A miss gives `None` (JavaScript's `undefined`).

Representation choices:
- Ids are `int`.
- Amounts are exact `real` numbers, because the threshold from `parseFloat` may be fractional.
- Dates are strings compared exactly.
- `parseInt`/`parseFloat` results come in as `Option` values, where `None` is NaN.
  The initial `null` of `selectedCustomer` and the NaN produced by "All" are both
  `None`. The component treats them alike everywhere: both are falsy, and neither
  is strictly equal to any id.

Behaviour of the code that a reader might not expect, kept as written:
- Name lookup: the `forEach` in src/App.js:69 overwrites on every match, so the
  **last** customer with the id wins, not the first
  (`Names.LookupLastMatch`, `Names.DuplicateIdLastWins`).
- Amount filter: an empty amount input does not mean "no lower bound".
  `parseFloat("")` is NaN, and the filter then keeps **nothing** (`Filters.ByMinAmount`).
- Customer filter: choosing "All" does not restore the full list. `parseInt("")`
  is NaN, so the table becomes empty (`Page.App.HandleCustomerChange`).
- Successful load: the code never writes `error` on success, so `DataLoaded`
  leaves the error slot as it was.
- The two filters do not combine: each handler recomputes the table from the
  full list.
- Chart guard: `!selectedCustomer` also treats customer id 0 as "no selection",
  so such a customer has no chart (`Page.App.TotalTransactionsPerDay`).

## Model

| member | source | states |
|---|---|---|
| `Filters.Filter` | src/App.js:36 | `s.filter(keep)`: no longer than `s`. An element is in the result iff it is in `s` and satisfies `keep`. Its multiplicity is that of `s` when kept and 0 otherwise. The result is a subsequence of `s`, so order is preserved |
| `Filters.FilterConcat` | src/App.js:36 | filtering distributes over `+`: filtering a concatenation is the concatenation of the filtered parts |
| `Filters.FilterKeepsAll` | src/App.js:41 | a predicate true of every element keeps the whole sequence |
| `Filters.SubsequenceReflexive` | src/App.js:23-24 | every list is a subsequence of itself, so the unfiltered table satisfies the table invariant |
| `Filters.ByCustomer` | src/App.js:36 | exactly the transactions whose `customer_id` strictly equals the parsed id, with their multiplicities, as a subsequence. A NaN id gives the empty list |
| `Filters.ByMinAmount` | src/App.js:41 | exactly the transactions with `amount >= threshold`, with their multiplicities, as a subsequence. A NaN threshold gives the empty list |
| `Filters.SingleCustomerKeepsAll` | src/App.js:36 | selecting the customer of every transaction keeps them all |
| `Filters.ThresholdBelowAll` | src/App.js:41 | a threshold no larger than every amount keeps the whole list |
| `Filters.ThresholdAboveAll` | src/App.js:41 | a threshold above every amount keeps nothing |
| `DailyTotals.FirstSeen` | src/App.js:47-48 | the index of the first transaction with a given date, or the length if there is none. No earlier transaction has that date |
| `DailyTotals.DatesDistinct` | src/App.js:47-51 | no date is a key of the series twice |
| `DailyTotals.DatesOccur` | src/App.js:46-51 | every date of the customer's transactions is a key, and every key is the date of one of them |
| `DailyTotals.InDatesIff` | src/App.js:47-51 | a date is a key iff it occurs among the transactions |
| `DailyTotals.DatesInFirstSeenOrder` | src/App.js:47-51 | keys come in the order in which their dates are first met, not in calendar order |
| `DailyTotals.DailyTotalsConserveSum` | src/App.js:46-51 | the amounts of the series add up to the sum of the customer's transaction amounts |
| `DailyTotals.Accumulate` | src/App.js:47-50 | the reduce loop: the accumulator's keys are the distinct dates in first-seen order, and each key maps to that date's total |
| `Names.LookupMissIff` | src/App.js:67-71 | the lookup is undefined iff no customer has the id |
| `Names.LookupLastMatch` | src/App.js:68-70 | if customer `i` has the id and no later customer does, the lookup yields customer `i`'s name |
| `Names.LookupFound` | src/App.js:67-71 | a name that is found belongs to a customer with the id after whom no customer has it |
| `Names.LookupUnique` | src/App.js:67-71 | with unique ids the lookup yields the one matching customer's name |
| `Names.DuplicateIdLastWins` | src/App.js:69 | with the customers `1: Alice` and `1: Bob`, id 1 resolves to `Bob` |
| `Page.App.constructor` | src/App.js:11-15 | the three lists are empty, and no customer and no error are set |
| `Page.App.DataLoaded` | src/App.js:22-27 | on success, `customers` and `transactions` take the loaded lists, the table shows all transactions, and the error slot is untouched. On failure, only `error` is set. `selectedCustomer` is never touched. The table invariant is kept |
| `Page.App.HandleCustomerChange` | src/App.js:33-37 | sets `selectedCustomer` to the parsed id and the table to `ByCustomer` of the full list. NaN ("All") empties the table. Nothing else changes (field frame) |
| `Page.App.HandleAmountFilter` | src/App.js:39-42 | sets the table to `ByMinAmount` of the full list. NaN empties it. `selectedCustomer`, `customers`, `transactions` and `error` are unchanged (field frame) |
| `Page.App.TotalTransactionsPerDay` | src/App.js:44-52 | empty when the selection is null, NaN or 0. Otherwise it is the reference series of that customer's transactions, whose amounts sum to theirs and whose dates do not repeat |
| `Page.App.CustomerNameById` | src/App.js:67-71 | the loop's result is the last match's name, and `None` iff no customer has the id. It changes nothing |
| `Page.CustomerThenAmount` | src/App.js:33-42 | a customer selection and then an amount filter leave the amount filter's rows of the full list. The chart's selection stays; the lists and the error slot are unchanged |
| `Page.AmountThenCustomer` | src/App.js:33-42 | an amount filter and then a customer selection leave that customer's rows of the full list; the lists and the error slot are unchanged |
| `Page.FailedLoad` | src/App.js:11-28 | after a failed fetch the lists are empty, the error is stored, and the page shows only the error (the guard at line 73) |
| `Page.SuccessfulLoad` | src/App.js:22-24 | after a successful fetch the table shows every transaction, no error is shown, and the chart is empty until a customer is chosen |
| `Scenarios.SampleDailyTotals` | src/App.js:44-51 | amounts 50 and 20 on 2024-01-01 and 5 on 2024-01-02 of customer 1 give the series `[(2024-01-01, 70), (2024-01-02, 5)]` |
| `Scenarios.SampleAmountFilter` | src/App.js:41 | on that sample, a threshold of 30 keeps only the transaction of amount 50 |
| `Scenarios.DatesAreExactStrings` | src/App.js:48 | `"2024-01-01"` and `"2024-01-01 "` are two different keys |

## Left out

- JSX rendering is not modelled (src/App.js:77-118): table markup, CSS classes, icons, the `<select>` options and the per-row mapping. Only the error guard (line 73) is modelled, as `ShowsError`.
- Chart.js registration, the `transactionData` labels/colours object and `<Bar>` are not modelled (src/App.js:4, 8, 54-65). The model produces the `(date, amount)` series that feeds them; splitting it into parallel label and value lists is not modelled.
- The axios GET, `async`/`await` and `console.error` are not modelled (src/App.js:17-31). The fetch outcome is a `Result` parameter of `DataLoaded`.
- The run-once behaviour of `useEffect(..., [])` is not modelled: nothing stops `DataLoaded` from being called twice.
- React's batching and re-render scheduling are not modelled: each handler acts on the current state directly.
- Text-to-number parsing is not modelled. `parseInt` and `parseFloat` results are `Option` inputs; partial parses such as `parseInt("12abc")` are the caller's concern.
- IEEE floating point is not modelled: amounts and their sums are exact reals, and rounding is ignored.
- The loose `==` of the name lookup is modelled over integer ids only (src/App.js:69); string ids are not modelled.
- JavaScript's `Object.keys` order is only partly modelled: integer-like keys, which it lists first in numeric order, are assumed absent, and keys inherited from `Object.prototype` are ignored.
- `null` and `NaN` in `selectedCustomer` are both `None`: the component never tells them apart.
