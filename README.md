# money-buddy finance core in Dafny

A model of the client-side logic of a personal finance tracker. The model
covers four parts:

- **The finance data hook** (`FinanceStore.FinanceData`). It holds the
  signed-in user's transactions and investments as two ordered lists, plus a
  `loading` flag. Each operation is a method. The hosted database's reply is
  a parameter: `Reply<T>` (`Ok(data)` or `Err`) for select and insert, and
  `Status` (`Done` or `Failed`) for update and delete. A list is patched
  only after a successful reply:
  - add puts the returned row at the front;
  - update replaces every entry with the record's id;
  - delete filters that id out.
- **The summary** (module `Summary`). Total income and total expenses are
  filter-then-reduce sums over the transaction list. The net balance is
  their difference.
- **The investment tracker's arithmetic** (module `Portfolio`). It covers
  each holding's cost, value, gain or loss and percentage, the portfolio
  totals, and the up/down branch the figures are displayed with.
- **The expense chart** (module `ExpenseChart`). The expense transactions
  are folded, one at a time, into an accumulator with one entry per
  category (`GroupByCategory`, a loop). Each step looks up the entry
  (`FindCategory`, a loop) and either adds to it or appends a new one. The
  result becomes pie slices coloured from an eight-colour palette. With no
  expenses, the result is an empty-state view.

The generic list transforms shared by both entity kinds (`Sum` as a left
fold, `ReplaceById`, `RemoveById`, id uniqueness) live in module `Lists`.
The records and reply shapes live in `Records`. Amounts, shares and prices
are `real`.

A failed load leaves both lists as they were (`LoadData`). So it leaves them
empty only if they were empty before, as after a failed first load.

## Model

| member | source | states |
|---|---|---|
| FinanceStore.FinanceData.constructor | src/hooks/useFinanceData.tsx:27-29 | both lists start empty and `loading` starts true |
| FinanceStore.FinanceData.LoadData | src/hooks/useFinanceData.tsx:33-63 | both lists are set only when both fetches succeed, and a null payload becomes the empty list; an error in either fetch leaves both lists as they were; `loading` is false afterwards in every case |
| FinanceStore.FinanceData.AddTransaction | src/hooks/useFinanceData.tsx:70-93 | on success the list is the returned row followed by the old list; on error it is unchanged; nothing else changes |
| FinanceStore.FinanceData.UpdateTransaction | src/hooks/useFinanceData.tsx:95-119 | on success the list is the old list with every entry of the record's id replaced; on error it is unchanged |
| FinanceStore.FinanceData.DeleteTransaction | src/hooks/useFinanceData.tsx:121-143 | on success the list is the old list without the entries of that id; on error it is unchanged |
| FinanceStore.FinanceData.AddInvestment | src/hooks/useFinanceData.tsx:146-169 | on success the list is the returned row followed by the old list; on error it is unchanged |
| FinanceStore.FinanceData.UpdateInvestment | src/hooks/useFinanceData.tsx:171-195 | on success every entry of the record's id is replaced; on error the list is unchanged |
| FinanceStore.FinanceData.DeleteInvestment | src/hooks/useFinanceData.tsx:197-219 | on success the entries of that id are filtered out; on error the list is unchanged |
| Lists.ReplaceById | src/hooks/useFinanceData.tsx:104-106 | the length is unchanged; each entry whose id matches becomes the record and every other entry stays as it was, in place; every position keeps its id |
| Lists.ReplaceUnknownIsIdentity | src/hooks/useFinanceData.tsx:180-182 | updating an id that no entry carries leaves the list identical |
| Lists.ReplaceKeepsUnique | src/hooks/useFinanceData.tsx:180-182 | if the ids were distinct before an update, they are still distinct after it |
| Lists.RemoveById | src/hooks/useFinanceData.tsx:130 | no survivor carries the id; every entry with another id survives; the length drops by the number of entries with that id |
| Lists.RemoveIsSubsequence | src/hooks/useFinanceData.tsx:130 | the survivors of a delete are a subsequence of the old list: entries are only dropped, and the rest keep their old order |
| Lists.RemoveConcat | src/hooks/useFinanceData.tsx:206 | filtering splits over concatenation, so the survivors keep their relative order |
| Lists.RemoveUnknownIsIdentity | src/hooks/useFinanceData.tsx:130 | deleting an id that no entry carries leaves the list identical |
| Lists.RemoveKnownDropsOne | src/hooks/useFinanceData.tsx:206 | when the ids are distinct and the id is present, exactly one entry is removed |
| Lists.RemoveKeepsUnique | src/hooks/useFinanceData.tsx:130 | if the ids were distinct before a delete, they are still distinct after it |
| Lists.PrependFreshKeepsUnique | src/hooks/useFinanceData.tsx:80 | putting a row with a fresh id at the front keeps the ids distinct |
| Summary.OfKindIsSubsequence | src/hooks/useFinanceData.tsx:226-227 | the kind filter only drops transactions and keeps the rest in their order |
| Lists.Sum | src/hooks/useFinanceData.tsx:225 | the `reduce((sum, x) => sum + f(x), 0)` left fold; its properties are stated by SumConcat and SumUpdate and used by TotalsConcat, TotalGainLossIsSumOfGains and GroupConservesTotal |
| Summary.OfKind | src/hooks/useFinanceData.tsx:223-224 | the filter keeps exactly the transactions of the given kind: every one it returns has that kind, every such input entry is among them, and there are exactly as many as `CountKind` counts, so no copy is lost or duplicated |
| Summary.TotalIncome | src/hooks/useFinanceData.tsx:223-225 | sum of the amounts of the income transactions; stated by TotalsConcat, TotalsOfOne, TotalsPartitionAmounts and AddShiftsSummary |
| Summary.TotalExpenses | src/hooks/useFinanceData.tsx:226-228 | sum of the amounts of the expense transactions; stated by TotalsConcat, TotalsOfOne, TotalsPartitionAmounts, AddShiftsSummary and CategoryDataMatchesTotalExpenses |
| Summary.FinanceSummary.NetBalance | src/hooks/useFinanceData.tsx:229-231 | the `netBalance` getter, income minus expenses; stated by NetBalanceIsSignedSum and AddShiftsSummary |
| Summary.Summarize | src/hooks/useFinanceData.tsx:222-232 | the `summary` object built from the transaction list; stated by EmptySummary, AddShiftsSummary and SummaryExample |
| FinanceStore.FinanceData.CurrentSummary | src/hooks/useFinanceData.tsx:222-232 | the summary recomputed from the store's current transactions on every read; its properties are those of Summarize |
| Summary.TotalsConcat | src/hooks/useFinanceData.tsx:222-228 | total income and total expenses each split over concatenated lists |
| Summary.TotalsOfOne | src/hooks/useFinanceData.tsx:222-228 | one transaction counts its amount towards the total of its own kind and 0 towards the other |
| Summary.EmptySummary | src/hooks/useFinanceData.tsx:222-231 | with no transactions, both totals and the net balance are 0 |
| Summary.NetBalanceIsSignedSum | src/hooks/useFinanceData.tsx:229-231 | the net balance, income minus expenses, equals one pass that adds income amounts and subtracts expense amounts |
| Summary.TotalsPartitionAmounts | src/hooks/useFinanceData.tsx:222-228 | total income plus total expenses is the sum of all amounts |
| Summary.AddShiftsSummary | src/hooks/useFinanceData.tsx:222-231 | a transaction put at the front raises the total of its kind by its amount, leaves the other total unchanged, and moves the net balance by its signed amount |
| Summary.SummaryExample | src/hooks/useFinanceData.tsx:222-231 | any income of 5000 followed by expenses of 1200 and 300 gives totals 5000 and 1500 and balance 3500, whatever the other fields |
| Portfolio.Cost | src/components/InvestmentTracker.tsx:57 | `shares * purchase_price`; stated by GainLoss, GainLossPercentage and AddHoldingShiftsTotals |
| Portfolio.Value | src/components/InvestmentTracker.tsx:58 | `shares * current_price`; stated by GainLoss and AddHoldingShiftsTotals |
| Portfolio.GainLoss | src/components/InvestmentTracker.tsx:56-60 | the gain or loss is the number of shares times the price change |
| Portfolio.GainLossPercentage | src/components/InvestmentTracker.tsx:62-66 | the percentage times the cost is 100 times the gain or loss |
| Portfolio.TotalValue | src/components/InvestmentTracker.tsx:68 | sum of the holdings' values; stated by AddHoldingShiftsTotals and HoldingExample |
| Portfolio.TotalCost | src/components/InvestmentTracker.tsx:69 | sum of the holdings' costs; stated by AddHoldingShiftsTotals and HoldingExample |
| Portfolio.TotalGainLoss | src/components/InvestmentTracker.tsx:70 | value minus cost; stated by TotalGainLossIsSumOfGains, AddHoldingShiftsTotals and HoldingExample |
| Portfolio.TotalGainLossIsSumOfGains | src/components/InvestmentTracker.tsx:68-70 | total value minus total cost equals the sum of the holdings' gains and losses |
| Portfolio.AddHoldingShiftsTotals | src/components/InvestmentTracker.tsx:68-70 | a holding put at the front raises total value, total cost and total gain or loss by its own value, cost and gain or loss |
| Portfolio.TrendOf | src/components/InvestmentTracker.tsx:249-251 | the green/up versus red/down branch on a figure being at least 0, also used at lines 106 and 256; stated by GainLossSign and PercentageTrendMatchesGainLoss |
| Portfolio.GainLossSign | src/components/InvestmentTracker.tsx:249-251 | with a positive number of shares, the figure shows a gain exactly when the current price is at least the purchase price |
| Portfolio.PercentageTrendMatchesGainLoss | src/components/InvestmentTracker.tsx:256-257 | with a positive cost, the percentage has the same sign as the gain or loss, so both take the same display branch |
| Portfolio.HoldingExample | src/components/InvestmentTracker.tsx:56-70 | 10 shares bought at 100 and now at 150 have cost 1000, value 1500, gain 500 and 50 percent; the empty portfolio totals are 0 |
| ExpenseChart.Expenses | src/components/ExpenseChart.tsx:6 | the expense filter; stated by Summary.OfKind, IncomeDoesNotAffectChart and CategoryDataCategories |
| ExpenseChart.Accumulate | src/components/ExpenseChart.tsx:9-14 | one find-then-add-or-push step; stated by AccumulateCategories, AccumulateAmounts, AccumulateOrder and AccumulateSum |
| ExpenseChart.Group | src/components/ExpenseChart.tsx:8-16 | the reduce as a left fold from the empty accumulator; stated by GroupIsGrouped and GroupConservesTotal, and computed by GroupByCategory |
| ExpenseChart.CategoryData | src/components/ExpenseChart.tsx:6-16 | `categoryData`, the grouping of the expenses; stated by CategoryDataIsGrouping, CategoryDataCategories, CategoryDataMatchesTotalExpenses and CategoryDataEmpty |
| ExpenseChart.IndexOfCategory | src/components/ExpenseChart.tsx:9 | the result is the first entry with the category, or none exactly when no entry has it |
| ExpenseChart.FindCategory | src/components/ExpenseChart.tsx:9 | the search loop returns exactly the first entry with the category, or none |
| ExpenseChart.GroupByCategory | src/components/ExpenseChart.tsx:8-16 | the loop that finds-or-pushes into the accumulator computes the grouping fold of the expenses |
| ExpenseChart.AccumulateCategories | src/components/ExpenseChart.tsx:9-14 | a step keeps the categories distinct and adds the transaction's category to the categories seen |
| ExpenseChart.AccumulateAmounts | src/components/ExpenseChart.tsx:10-14 | after a step, every entry still holds the sum of its category's amounts |
| ExpenseChart.AccumulateOrder | src/components/ExpenseChart.tsx:12-14 | after a step, the entries are still in order of first appearance |
| ExpenseChart.AccumulateKeepsGrouping | src/components/ExpenseChart.tsx:8-16 | one step of the reduce preserves the grouping invariant |
| ExpenseChart.GroupIsGrouped | src/components/ExpenseChart.tsx:8-16 | the fold has one entry per category seen, each with its category's sum, in order of first appearance |
| ExpenseChart.AccumulateSum | src/components/ExpenseChart.tsx:10-14 | a step raises the entries' total by exactly the transaction's amount |
| ExpenseChart.GroupConservesTotal | src/components/ExpenseChart.tsx:8-16 | the entries' amounts sum to the sum of the folded transactions' amounts |
| ExpenseChart.IncomeDoesNotAffectChart | src/components/ExpenseChart.tsx:6 | inserting an income transaction anywhere in the list leaves the chart data unchanged |
| ExpenseChart.CategoryDataIsGrouping | src/components/ExpenseChart.tsx:8-16 | the chart data has distinct categories, exactly the categories of the expenses, each amount the sum of that category's expenses, in order of first appearance |
| ExpenseChart.CategoryDataCategories | src/components/ExpenseChart.tsx:6-16 | a category appears in the chart data exactly when some expense transaction has it |
| ExpenseChart.CategoryDataMatchesTotalExpenses | src/components/ExpenseChart.tsx:8-16 | the chart amounts sum to the summary's total expenses |
| ExpenseChart.CategoryDataEmpty | src/components/ExpenseChart.tsx:20-26 | the chart data is empty exactly when there is no expense transaction |
| ExpenseChart.CellColour | src/components/ExpenseChart.tsx:43 | the colour index modulo the palette length always picks one of the eight palette colours |
| ExpenseChart.Render | src/components/ExpenseChart.tsx:5-51 | the empty-state view is shown exactly when there is no expense; otherwise there is one slice per chart-data entry, with its category and amount and the colour of its position |

## Left out

- Calls to the hosted database are left out: the queries, the server-side ordering by date, id generation and row-level access. Each reply is a parameter of the method that waits for it.
- The insert payload (the record without id and owner) is left out. Only the returned row reaches the local list, so the add methods take only the reply.
- Notifications, console logging, mounting on first render and `async`/`await` sequencing are I/O or framework plumbing. Each method returns whether it succeeded. For add, update and delete, that selects between the success and error notifications. The load has only the error notification.
- JavaScript number semantics are left out: `parseFloat`, IEEE rounding, `toString`, `toLocaleString` and `toFixed`. Amounts and prices are exact reals.
- Portfolio.GainLossPercentage: requires a non-zero cost. In the source, a zero cost makes the division return NaN or an infinity. That is floating-point behaviour and is not modelled.
- src/components/InvestmentChart.tsx is not part of this model. It reads `purchasePrice` and `currentPrice`, but the records carry `purchase_price` and `current_price`, so it computes with undefined values.
- Form state is UI, so it is left out: open and close, the edited id, resets and category choices in src/components/TransactionManager.tsx and in InvestmentTracker.tsx. Its one rule is that submitting calls update when an id is being edited, and add otherwise.
- The dashboard, the page, tab switching and authentication are rendering only and are left out.
- The charting library's drawing, labels and tooltip formatting are left out. `Render` stops at the slices it would be given.
- Each component that calls the hook gets its own copy of the lists (src/components/Dashboard.tsx:10, src/components/TransactionManager.tsx:7, src/components/InvestmentTracker.tsx:7). So a change made in one view shows in another only after that view reloads. The model is a single `FinanceData` instance and does not capture those separate copies.
- The expense accumulator is a local sequence, not a JavaScript array of shared objects. Nothing else refers to those objects, so updating an entry in place and replacing it are indistinguishable.
