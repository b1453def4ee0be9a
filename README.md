# Personal Finance Tracker — a verified Dafny model of its core

This project models the deterministic logic of the Personal Finance Tracker.
That is an Express/MongoDB backend with a React/Redux frontend for recording
transactions, budgets, savings goals and investment goals. The database, the
clock and the browser are abstracted away. Stores become sequences, amounts
become `real`s, dates become calendar triples with an instant ordering, and
JavaScript division becomes a small number type with Infinity and NaN.

Modules, one per source file or shared concept:

- `Base`: JavaScript numbers (`Num`, `Div`, `Math.min`, `Math.ceil`, `Math.round`), order-preserving filters and sums, with their generic lemmas.
- `Text`: ASCII `toLowerCase`, `includes`, `trim`, `split` and `join`.
- `Calendar`: dates, instants, month ranges as `new Date(y, m, d, ...)` builds them, `setMonth` overflow, `YYYY-MM-DD` rendering.
- `TransactionModel`, `BudgetModel`, `InvestModel`: the Mongoose schemas as datatypes, with validation.
- `Aggregation`: income/expense totals and per-category maps, kept in the insertion order of a JavaScript object.
- `TransactionRoutes`, `BudgetRoutes`, `Insights`, `Reports`, `Invest`, `Ocr`, `Voice`: the backend route handlers. `TransactionStore`, `BudgetStore` and `Ledger` are classes whose methods change a store in place.
- `Slices`: the four Redux slices, as classes whose reducers update their fields.
- `Dashboard`, `TransactionsPage`, `BudgetsPage`, `GoalsPage`, `GoalCard`, `GoalDetails`, `Suggestions`, `Health`, `CalendarEvents`: the computations of the React pages and components.

## Model

| member | source | states |
|---|---|---|
| Base.Div | backend/routes/budget.routes.js:65 | JavaScript division: finite exactly for a non-zero divisor (and then the true quotient), Infinity for a positive amount over 0, NaN for 0/0 |
| Base.MinNum | frontend/src/pages/Budgets.jsx:205-208 | `Math.min(x, c)` is never above c and is NaN exactly when x is; for a finite x it is the smaller of x and c, +Infinity becomes c and -Infinity stays |
| Base.Ceil | frontend/src/components/GoalCard.jsx:17 | `Math.ceil` gives the least integer not below its argument |
| Base.Round | frontend/src/components/SmartSuggestions.jsx:18 | `Math.round` gives the integer within half a unit, halves rounding up |
| Base.Filter | backend/routes/report.routes.js:42-44 | `filter` keeps only elements that pass the test, and never more than the input |
| TransactionModel.ParseKind | backend/models/Transaction.model.js:10-14 | the type enum: a parsed kind prints back as the input, and a rejected string names no kind |
| TransactionModel.CategoryName | backend/models/Transaction.model.js:20-37 | every category prints as one of the twelve enum names |
| TransactionModel.ParseCategory | backend/models/Transaction.model.js:20-37 | the category enum: rejected exactly when the string is not one of the twelve names; a parsed category prints back as the input |
| TransactionModel.CategoryNameInjective | backend/models/Transaction.model.js:23-36 | distinct categories have distinct names |
| TransactionModel.Validate | backend/models/Transaction.model.js:3-52 | document creation fails exactly when some required, enum or min check fails, and reports exactly those paths; on success the record holds the supplied user, type, amount and category, the trimmed description (default empty) and the supplied date (default now) |
| TransactionModel.TrimIdempotent | backend/models/Transaction.model.js:38-42 | trimming the description twice is trimming it once |
| TransactionModel.ValidateStored | backend/models/Transaction.model.js:3-52 | a stored record, handed back to the schema, validates to itself |
| TransactionModel.SortByDateDesc | backend/routes/transaction.routes.js:42 | sorting by date keeps the same records (a permutation) |
| TransactionModel.SortByDateDescOrdered | backend/routes/transaction.routes.js:42 | the sorted records are newest first |
| TransactionModel.InsertByDate | backend/routes/transaction.routes.js:42 | one insertion step adds exactly the inserted record |
| TransactionModel.InsertByDateOrdered | backend/routes/transaction.routes.js:42 | inserting into a newest-first list keeps it newest first |
| BudgetModel.ToCategory | backend/models/Budget.model.js:10-23 | every budget category is a transaction category other than Salary, Freelance, Investment and Debt, with the same name |
| BudgetModel.FromCategory | backend/models/Budget.model.js:10-23 | a transaction category has a budget category exactly when it is not one of the four income or transfer categories, and maps back to it |
| BudgetModel.ToCategoryInjective | backend/models/Budget.model.js:13-22 | distinct budget categories are distinct transaction categories |
| BudgetModel.ParseBudgetCategory | backend/models/Budget.model.js:10-23 | the budget category enum: rejected exactly outside its eight names |
| BudgetModel.ParsePeriod | backend/models/Budget.model.js:29-34 | the period enum accepts exactly "weekly" and "monthly" |
| BudgetModel.FindKey | backend/models/Budget.model.js:52 | finds a row with the key, or none exists; under the unique index it is the only one |
| InvestModel.AssetName | backend/models/InvestmentGoal.js:12-16 | every asset type prints as one of the seven enum names |
| InvestModel.ParseAsset | backend/models/InvestmentGoal.js:12-16 | the assetType enum accepts exactly its seven names, and the parsed asset prints back as the input |
| InvestModel.AssetNameRoundTrip | backend/models/InvestmentGoal.js:12-16 | parsing an asset's name gives back the asset |
| InvestModel.NewInvestment | backend/routes/investmentGoalRoutes.js:70-77 | creation fails exactly when the asset is outside the enum; otherwise target and current amount are the transferred amount, the name is "<asset> Investment from <goal>", the deadline is one year ahead, and the user and asset are the request's |
| InvestModel.LedgerEntry | backend/routes/investmentGoalRoutes.js:80-87 | the ledger entry is an Investment expense of the transferred amount, dated now, owned by the request's user |
| InvestModel.LedgerEntryValidates | backend/routes/investmentGoalRoutes.js:80-87 | with the owner in the schema's `user` field the entry validates exactly when the amount is not negative, and then it is the ledger entry |
| Invest.FindGoal | backend/routes/investmentGoalRoutes.js:55-59 | finds the first goal with the id, or reports that none has it; the owner is not checked |
| Invest.TransferSpec | backend/routes/investmentGoalRoutes.js:47-99 | the corrected transfer answers 404 exactly for an unknown goal and 200 exactly when the amount is positive and at most the goal's saving and the asset is in the enum; any other answer is 400 and changes nothing |
| Invest.TransferMoves | backend/routes/investmentGoalRoutes.js:61-93 | a successful transfer deducts the amount from that goal only, appends the new investment and the ledger entry, and replies with both |
| Invest.TransferConserves | backend/routes/investmentGoalRoutes.js:61-87 | a transfer moves money without creating or losing any: savings plus investments stay the same, and the ledger's total grows by the amount exactly when the transfer succeeds |
| Invest.TransferWholeBalance | backend/routes/investmentGoalRoutes.js:61-66 | investing the whole of a positive saving succeeds and leaves the goal at 0 (the check is `<`, not `<=`) |
| Invest.AsWrittenNeverRecords | backend/routes/investmentGoalRoutes.js:80-87 | as written, the transfer never answers 200 and never writes the ledger; a 500 comes after the saving was already deducted |
| Invest.AsWrittenNegativeAmount | backend/routes/investmentGoalRoutes.js:61-67 | as written, a negative amount passes the funds check and raises the saving before the 500 |
| Invest.AsWrittenUnlistedAsset | backend/routes/investmentGoalRoutes.js:65-77 | as written, any asset outside the enum (such as "Indian Stocks") answers 500 after the deduction, so the amount leaves the holdings |
| Invest.Ledger.constructor | backend/routes/investmentGoalRoutes.js:47-53 | the store starts with the given savings goals and no investments or ledger entries |
| Invest.Ledger.Invest | backend/routes/investmentGoalRoutes.js:47-99 | the POST /invest handler updates the stored goals, investments and ledger to the corrected transfer's state, and answers its reply |
| TransactionRoutes.BuildFilter | backend/routes/transaction.routes.js:14-38 | the list query is rejected with 400 exactly when the type or a date is malformed; otherwise the filter holds the user, and each of type, non-empty category, start and end exactly when it was given |
| TransactionRoutes.QuerySpec | backend/routes/transaction.routes.js:30-42 | the listing is newest first and holds exactly the rows that match every given condition (all of the user's rows when none is given), each as often as in the store |
| TransactionRoutes.FindOwned | backend/routes/transaction.routes.js:54-57 | finds the first row with that id owned by that user, or reports that there is none |
| TransactionRoutes.CreateSpec | backend/routes/transaction.routes.js:72-103 | POST answers only 400, 500 or 201: 400 exactly when the body fails validation, 500 exactly when the category is outside the enum, and so 201 for every other body; only a 201 appends, and the new record carries the user, the fields given, the trimmed description and the date or now |
| TransactionRoutes.CreateKeepsStore | backend/routes/transaction.routes.js:72-103 | creation keeps every stored record valid and every id distinct and below the next id |
| TransactionRoutes.MergeSpec | backend/routes/transaction.routes.js:131-139 | the update merge fails exactly for a non-empty category outside the enum; otherwise it keeps id and owner, takes each field given and keeps each field absent, and an empty patch changes nothing |
| TransactionRoutes.MergeIdempotent | backend/routes/transaction.routes.js:131-139 | applying the same patch twice gives what applying it once gives |
| TransactionRoutes.UpdateSpec | backend/routes/transaction.routes.js:108-146 | PUT answers only 400, 404, 500 or 200: 400 exactly for a malformed patch, 404 exactly when the user owns no such record, and for an owned record 200 exactly when the merge succeeds (500 otherwise); a 200 replaces only that record with the merged one; no other row changes and the store stays valid |
| TransactionRoutes.UpdateKeepsStore | backend/routes/transaction.routes.js:122-139 | an update keeps the store valid and does not use up an id |
| TransactionRoutes.DeleteSpec | backend/routes/transaction.routes.js:151-168 | DELETE answers only 404 or 200: 404 exactly when the user owns no such record; otherwise exactly that record leaves the store and no record with the id remains |
| TransactionRoutes.RemoveKeepsStore | backend/routes/transaction.routes.js:162 | removing a row keeps the store valid and leaves no row with its id |
| TransactionRoutes.TransactionStore.constructor | backend/models/Transaction.model.js:58 | the collection starts empty and valid |
| TransactionRoutes.TransactionStore.List | backend/routes/transaction.routes.js:14-47 | GET / answers 400 exactly for a malformed type or date; otherwise the user's matching records, newest first |
| TransactionRoutes.TransactionStore.Get | backend/routes/transaction.routes.js:52-67 | GET /:id answers 404 exactly when the user owns no such record, and otherwise that record |
| TransactionRoutes.TransactionStore.Post | backend/routes/transaction.routes.js:72-103 | POST / leaves the collection and reply as the create handler defines them, keeping the store valid |
| TransactionRoutes.TransactionStore.Put | backend/routes/transaction.routes.js:108-146 | PUT /:id leaves the collection and reply as the update handler defines them, keeping the store valid |
| TransactionRoutes.TransactionStore.Remove | backend/routes/transaction.routes.js:151-168 | DELETE /:id leaves the collection and reply as the delete handler defines them, keeping the store valid |
| BudgetRoutes.SpentIsCategoryTotal | backend/routes/budget.routes.js:46-63 | a budget's spent figure is the month's expense total for its category, the same figure the monthly report gives |
| BudgetRoutes.ProgressOf | backend/routes/budget.routes.js:63-72 | the progress row keeps the budget and its spent figure, and spent plus remaining is the budget amount |
| BudgetRoutes.ProgressSpec | backend/routes/budget.routes.js:64-65 | for a positive budget the percentage is spent/amount*100, above 100 exactly when overspent and exactly 100 when nothing remains; a zero budget gives Infinity when something was spent and NaN otherwise |
| BudgetRoutes.GetBudgets | backend/routes/budget.routes.js:16-81 | GET answers 400 exactly for a malformed month or year; otherwise one progress row per budget of that user, month and year, in stored order, each with its spent figure, remaining amount and percentage as the progress of that budget and figure computes them |
| BudgetRoutes.GetBudgetsComplete | backend/routes/budget.routes.js:30-41 | a budget is listed exactly when it belongs to the user, month and year asked for |
| BudgetRoutes.KeyFor | backend/routes/budget.routes.js:103-116 | the lookup key holds the user, the category, the sent period or monthly, the sent month or today's (always 1..12), and the sent year or today's when the year is absent or 0 |
| BudgetRoutes.UpsertSpec | backend/routes/budget.routes.js:87-144 | POST answers only 400, 500, 200 or 201: 400 for a rejected body and 500 for a category outside the enum, changing nothing; otherwise 200 exactly when a budget with the key exists (only its amount changes), 201 when none does (one new row with the next id), and 400 without change when a concurrent insert wins; the unique index is kept |
| BudgetRoutes.UpsertIdempotent | backend/routes/budget.routes.js:109-122 | posting the same budget twice changes nothing the second time and answers 200 |
| BudgetRoutes.FindOwned | backend/routes/budget.routes.js:160-163 | finds the first budget with that id owned by that user, or reports that there is none |
| BudgetRoutes.UpdateAmountSpec | backend/routes/budget.routes.js:150-179 | PUT answers only 400, 404 or 200: 400 exactly for a malformed or negative amount, 404 exactly when the user owns no such budget, and otherwise 200 with the stored budget equal to the one returned, carrying the sent amount; it changes only that budget's amount, never a key or an id, and nothing when no amount is given |
| BudgetRoutes.DeleteSpec | backend/routes/budget.routes.js:185-201 | DELETE answers only 404 or 200: 404 exactly when the user owns no such budget; otherwise exactly that budget leaves the store and no row with the id remains |
| BudgetRoutes.RemoveKeepsUnique | backend/models/Budget.model.js:52 | removing a budget keeps the unique index satisfied |
| BudgetRoutes.BudgetStore.constructor | backend/models/Budget.model.js:54 | the collection starts empty and valid |
| BudgetRoutes.BudgetStore.Post | backend/routes/budget.routes.js:87-144 | POST / leaves the collection and reply as the upsert handler defines them, keeping the unique index |
| BudgetRoutes.BudgetStore.Put | backend/routes/budget.routes.js:150-179 | PUT /:id leaves the collection and reply as the amount update defines them, keeping the unique index |
| BudgetRoutes.BudgetStore.Remove | backend/routes/budget.routes.js:185-201 | DELETE /:id leaves the collection and reply as the delete handler defines them, keeping the unique index |
| Insights.ResolvePeriod | backend/routes/insight.routes.js:17-30 | the query is rejected with 400 exactly for a malformed or out-of-range month or a malformed year; otherwise the month and year are the given ones or today's, and the month is between 1 and 12 |
| Insights.AnalyzedMonths | backend/routes/insight.routes.js:33-38 | the three analysed months are the report month and the two before it, each a valid month, with the year decremented exactly when the month wraps |
| Insights.MonthIndexUnique | backend/routes/insight.routes.js:33-38 | a valid month and year pair is identified by its month count, so the three analysed months are distinct |
| Insights.Analysis | backend/routes/insight.routes.js:40-74 | one summary per analysed month, each computed from that month's transactions of the user |
| Insights.GenerateInsights | backend/routes/insight.routes.js:81-174 | the insights pushed step by step are the trend, top-category, balance, unusual-pattern and spike rules' results, in that order |
| Insights.PushSpikes | backend/routes/insight.routes.js:159-174 | the per-category loop appends exactly the spike rule's reports |
| Insights.TrendRuleSpec | backend/routes/insight.routes.js:84-105 | at most one trend insight: an increase exactly when expenses rose, a saving exactly when they fell, none when equal; the amount is the absolute change, and the percentage is 0 when last month had no expenses |
| Insights.TopRuleSpec | backend/routes/insight.routes.js:108-124 | at most one top-category insight, only for a non-empty category map; it names the last category with the largest total, and with positive expenses it fires exactly above a 40% share |
| Insights.BalanceRuleSpec | backend/routes/insight.routes.js:127-141 | at most one balance insight: negative exactly when expenses exceed income, and a savings rate exactly when the balance is positive and above 30% of income |
| Insights.UnusualRuleSpec | backend/routes/insight.routes.js:144-156 | with a positive two-month average the pattern fires exactly above a 25% deviation; with a zero average it fires exactly when this month has expenses, with an infinite deviation |
| Insights.SpikeRulesSpec | backend/routes/insight.routes.js:159-174 | one spike report per category, in key order, exactly for the categories that last month also had and that grew by more than 50%, each carrying that change |
| Insights.GetInsights | backend/routes/insight.routes.js:14-197 | GET answers 400 exactly for a bad month or year; otherwise the report month and year, the current and previous summaries, the spending and income changes, and the insights of the rules |
| Reports.TopCategory | backend/routes/report.routes.js:61-64 | the reduce seeded with null gives null exactly for an empty map; otherwise a category whose total is largest, and the last such one in key order |
| Reports.TopCategoryNull | backend/routes/report.routes.js:61-82 | the top category is null exactly when the month has no expense |
| Reports.GetMonthly | backend/routes/report.routes.js:14-89 | GET /monthly answers 400 exactly for a bad month or year; otherwise the month's income, expenses, balance, category maps, top category and transaction count of the user's transactions in that month |
| Reports.CsvRows | backend/routes/report.routes.js:120-123 | one CSV row per exported transaction |
| Reports.Csv | backend/routes/report.routes.js:119-125 | the export starts with the header line and is the header alone when there is no transaction |
| Reports.NamesFree | backend/routes/report.routes.js:122 | no type or category name holds a comma or a newline |
| Reports.CsvRowFields | backend/routes/report.routes.js:121-122 | a row whose description and amount hold no comma splits back into its date, type, category, amount and quoted description |
| Reports.CsvRowCommaInDescription | backend/routes/report.routes.js:122 | a comma in the description is kept inside the quotes but splits the row into six comma-separated pieces |
| Reports.CsvRowOneLine | backend/routes/report.routes.js:121-122 | a row holds no newline when its description and amount hold none |
| Reports.CsvLines | backend/routes/report.routes.js:119-125 | split at newlines, the export is the header line followed by one line per transaction (an empty last line when there is none) |
| Reports.CsvQuerySpec | backend/routes/report.routes.js:107-116 | the exported transactions are newest first and are exactly the user's transactions within the given bounds |
| Reports.CsvQueryValid | backend/routes/report.routes.js:116-121 | every exported transaction has a calendar date to print |
| Reports.ExportCsv | backend/routes/report.routes.js:94-134 | GET /export/csv answers 400 exactly for a malformed date; otherwise the CSV text of the user's transactions within the bounds, newest first |
| Reports.GetPdf | backend/routes/report.routes.js:139-202 | GET /export/pdf answers 400 exactly for a bad month or year; otherwise the month's figures, the same category totals as the monthly report, and one row per transaction, newest first |
| Reports.SortedSameFigures | backend/routes/report.routes.js:160-180 | sorting the month's transactions changes neither the income, the expenses nor any category total |
| Ocr.AnyKeyword | backend/routes/ocr.routes.js:65-67 | true exactly when one of the keywords, lowercased, occurs in the lowercased text |
| Ocr.CategoryHit | backend/routes/ocr.routes.js:64-67 | a category hits exactly when one of its keywords occurs in the text |
| Ocr.Search | backend/routes/ocr.routes.js:64-68 | the search finds the first category, in declaration order, having a keyword in the text, or reports that none has one |
| Ocr.FirstHitSpec | backend/routes/ocr.routes.js:62-70 | the result is "Others" exactly when no listed category hits; otherwise it is a hitting category with no hitting category before it |
| Ocr.DetectCategorySpec | backend/routes/ocr.routes.js:10-18 | detectCategory returns a key of the keyword table; "Others" has no keywords and comes back exactly when no other category's keyword occurs; otherwise the first category in table order that has one |
| Ocr.BillIsElectricity | backend/routes/ocr.routes.js:11 | any text containing "bill", whatever else it says, is classified Electricity |
| Ocr.PhoneBillIsElectricity | backend/routes/ocr.routes.js:16 | a "phone bill" is classified Electricity, not Telecom, because Electricity is checked first |
| Ocr.TrimAll | backend/routes/ocr.routes.js:54 | the map trims each line in place of the line |
| Ocr.NonBlankEmpty | backend/routes/ocr.routes.js:54 | `filter(Boolean)` drops everything exactly when every line is empty |
| Ocr.KeptLines | backend/routes/ocr.routes.js:54 | the kept lines are non-empty and hold no newline, and none is kept exactly when every piece is blank |
| Ocr.LinesSpec | backend/routes/ocr.routes.js:54 | the text's kept lines are non-empty and newline-free, and there is none exactly when every line of the text is blank |
| Ocr.JoinFirstTwo | backend/routes/ocr.routes.js:55-58 | joining at most the first two lines with a space gives the single line, or the first two joined by one space |
| Ocr.DetectVendorSpec | backend/routes/ocr.routes.js:52-60 | detectVendor is null exactly when no non-blank line exists (and the handler then says "Unknown vendor"); otherwise the first line, or the first two joined by one space |
| Voice.QueryCategorySpec | backend/routes/voice.routes.js:6-14 | the category comes from the first keyword found in the lowercased query, in the order food, travel, rent; none found means no category |
| Voice.WeeklyTotal | backend/routes/voice.routes.js:19-25 | the reduce adds up exactly the amounts of the expenses since the week start in the category (any category when none) |
| Voice.Query | backend/routes/voice.routes.js:6-31 | POST /query replies with the text for the detected category and the week's total |
| Voice.ReplySpec | backend/routes/voice.routes.js:27-31 | the reply names the category exactly when one was detected, and otherwise reports the total weekly spending |
| Voice.RentMatchesNothing | backend/routes/voice.routes.js:13 | "Rent" is no transaction category, so a rent query always totals 0 |
| Voice.TotalIgnoresOwner | backend/routes/voice.routes.js:19-23 | the total does not depend on who owns the transactions: it spans all users |
| Aggregation.KeysOf | backend/routes/report.routes.js:61 | `Object.keys`: the keys of the category object, in insertion order |
| Aggregation.GetAt | backend/routes/report.routes.js:57 | reading a key of a category object with distinct keys gives that key's total |
| Aggregation.AddToGet | backend/routes/report.routes.js:57 | `m[c] = (m[c] \|\| 0) + a` raises c's total by a and leaves every other key's total unchanged |
| Aggregation.AddToKeys | backend/routes/report.routes.js:57 | the assignment adds c at the end of the key order only when c is new |
| Aggregation.AddToDistinct | backend/routes/report.routes.js:57 | the assignment keeps the keys distinct |
| Aggregation.AddToSum | backend/routes/report.routes.js:57 | the assignment raises the sum of all totals by a |
| Aggregation.CategoryTotals | backend/routes/insight.routes.js:58-63 | the forEach that fills the category object computes the category fold |
| Aggregation.CategoryFoldKeys | backend/routes/report.routes.js:53-58 | the category object has distinct keys, in the order of each category's first appearance |
| Aggregation.CategoryFoldGet | backend/routes/report.routes.js:53-58 | each category's total is the sum of the amounts in that category |
| Aggregation.CategoryFoldSum | backend/routes/report.routes.js:53-58 | the category totals add up to the total amount |
| Aggregation.CategoryFoldHas | backend/routes/report.routes.js:53-58 | a category is a key exactly when some transaction has it |
| Aggregation.TopIndex | backend/routes/insight.routes.js:109-112 | the `>`-reduce picks a key with the largest total, the last one among equals |
| Aggregation.IncomeBreakdown | backend/routes/report.routes.js:67-72 | the income object has distinct keys, its totals add up to the income, and each is the income in that category |
| Aggregation.Summarize | backend/routes/insight.routes.js:50-72 | the summary's balance is income less expenses, the income and expenses are sums by type, the category totals partition the expenses, and an empty month gives zeros and an empty map |
| Aggregation.CategoryFoldPermutation | backend/routes/report.routes.js:175-180 | reordering the transactions changes no category's total and no key's presence |
| Dashboard.MonthFiguresSpec | frontend/src/pages/Dashboard.jsx:77-98 | monthTransactions keeps, in order, exactly the transactions of the current month and year; its balance is income less expenses, and the category totals add up to the expenses |
| Dashboard.TotalDebtBounds | frontend/src/pages/Dashboard.jsx:137-139 | with non-negative amounts the debt total lies between 0 and the month's expenses |
| Dashboard.Recent | frontend/src/pages/Dashboard.jsx:438 | the recent list is the first five of the month's transactions, or all of them when fewer |
| Dashboard.BucketOf | frontend/src/pages/Dashboard.jsx:121-133 | a trend bucket is labelled with its month's name and holds that month's income and expenses |
| Dashboard.TrendMonthAsWritten | frontend/src/pages/Dashboard.jsx:119-122 | each column's month, derived by `setMonth` on today's date, is a valid month |
| Dashboard.TrendDataAsWritten | frontend/src/pages/Dashboard.jsx:118-134 | the trend as written has six buckets |
| Dashboard.TrendOverflowOnThe31st | frontend/src/pages/Dashboard.jsx:119-120 | on 31 October the six columns are May, Jul, Jul, Aug, Oct, Oct: June and September are missing and two columns repeat |
| Dashboard.TrendMonth | frontend/src/pages/Dashboard.jsx:118-122 | each corrected column is a valid month |
| Dashboard.TrendData | frontend/src/pages/Dashboard.jsx:118-134 | the corrected trend has six buckets |
| Dashboard.TrendDataSpec | frontend/src/pages/Dashboard.jsx:118-134 | the corrected columns are six consecutive months, oldest first, and the last is the current month with the same figures as the dashboard's month |
| Dashboard.TrendMonthAgrees | frontend/src/pages/Dashboard.jsx:119-120 | up to the 28th of a month the code as written gives the intended columns |
| Dashboard.TrendAgreesEarlyInMonth | frontend/src/pages/Dashboard.jsx:118-134 | up to the 28th of a month the trend as written equals the corrected trend |
| Dashboard.GoalBadgeSpec | frontend/src/pages/Dashboard.jsx:350-358 | for a positive target the badge is Budget Master from 100%, Saver Pro from 75%, Smart Saver from 50% and Getting Started below; a zero target gives Budget Master exactly for a positive saving |
| Dashboard.GoalBadgeMonotone | frontend/src/pages/Dashboard.jsx:350-358 | saving more never lowers the badge |
| Calendar.DaysInMonth | backend/routes/report.routes.js:33 | day 0 of the next month is a day between the 28th and the 31st, and February has 29 days exactly in a leap year |
| Calendar.MomentLeTotal | backend/routes/transaction.routes.js:40 | dates are totally ordered, so sorting by date is well defined |
| Calendar.MomentLeTrans | backend/routes/transaction.routes.js:40 | the date order is transitive |
| Calendar.LegacyYear | backend/routes/report.routes.js:32-33 | `new Date(y, ...)` reads a year from 0 to 99 as 1900 + y and keeps every other year |
| Calendar.InMonthRangeIff | backend/routes/report.routes.js:32-39 | a date lies in the inclusive month range exactly when it is in that month of that year and not in the last second of its last day |
| Calendar.MinusDays | backend/routes/voice.routes.js:16-17 | going back some days gives a valid, strictly earlier date at the same time of day |
| Calendar.NextPrevDay | backend/routes/voice.routes.js:16-17 | the day before and the day after undo each other |
| Calendar.PlaceDay | frontend/src/pages/Dashboard.jsx:120 | a day beyond the end of its month overflows into the first days of the next month (or January of the next year) |
| Calendar.SetMonth | frontend/src/pages/Dashboard.jsx:120 | `setMonth` with any month index gives a valid date |
| Calendar.SetMonthExact | frontend/src/pages/Dashboard.jsx:120 | on days up to the 28th, `setMonth(k)` lands in month k mod 12 of the year shifted by k div 12, on the same day |
| Calendar.MonthsBefore | backend/routes/insight.routes.js:35-36 | i months before a valid month is a valid month, exactly i months earlier |
| Calendar.AddOneYear | backend/routes/investmentGoalRoutes.js:76 | `setFullYear(year + 1)` gives the same day a year later, and 1 March for 29 February |
| Calendar.DateText | backend/routes/report.routes.js:121 | the ISO date text is `YYYY-MM-DD` for years 0..9999, without a `T`, a comma or a newline |
| Calendar.YearText | backend/routes/report.routes.js:121 | the year part is four characters for years 0..9999, and has no `T`, comma, newline or inner `-` |
| Calendar.YearTextDecodes | backend/routes/report.routes.js:121 | the year part reads back as the year: four digits in 0..9999, otherwise a sign followed by the magnitude |
| Calendar.DateTextDecodes | backend/routes/report.routes.js:121 | the date text reads back as the date: its last five characters are the two-digit month and day, and the year part before them reads back as the year |
| Calendar.DateTextInjective | backend/routes/report.routes.js:121 | two valid dates with the same text are the same date |
| CalendarEvents.TransactionEventSpec | frontend/src/pages/FinancialCalendar.jsx:63-69 | a transaction's event is 'debt' exactly for Debt, or Other with "Loan" in the description, whatever its type, and otherwise takes the type; its title is "Debt" only for Other-category debts and the category otherwise |
| CalendarEvents.GetEventsForDate | frontend/src/pages/FinancialCalendar.jsx:55-106 | the events pushed step by step are the day's transaction, goal and investment events as written, in that order |
| CalendarEvents.TransactionEventsSpec | frontend/src/pages/FinancialCalendar.jsx:59-71 | one event per transaction of that day, in list order |
| CalendarEvents.GoalEventsAsWrittenSpec | frontend/src/pages/FinancialCalendar.jsx:74-86 | goals yield at most one deadline event each, always a 'goal' event, and none without a deadline |
| CalendarEvents.InvestmentEventsAsWrittenKinds | frontend/src/pages/FinancialCalendar.jsx:89-103 | investment goals yield only 'investment' events |
| CalendarEvents.EventsOrdered | frontend/src/pages/FinancialCalendar.jsx:56-105 | the day's transactions come first, in list order, then the goal events, then the investment events |
| CalendarEvents.AsWrittenMissesStoredGoals | frontend/src/pages/FinancialCalendar.jsx:74-101 | as written, a stored savings goal (whose date is in `endDate`) never shows on its end date, and an investment goal's event is titled "undefined Deadline" |
| CalendarEvents.GoalEventsSpec | frontend/src/pages/FinancialCalendar.jsx:74-86 | the corrected goal events are one per goal due that day, titled with the goal's name, with its target and the deadline flag; for goals with neither `endDate` nor `goalName` they are the events as written |
| CalendarEvents.StoredGoalShown | frontend/src/pages/FinancialCalendar.jsx:74-86 | under the corrected reading a stored goal shows on its end date, titled with its name |
| GoalCard.CardSaved | frontend/src/components/GoalCard.jsx:7 | the card's saving is `currentSaved` whenever it is defined (0 included), otherwise `savedAmount`, otherwise 0 |
| GoalCard.PercentageSpec | frontend/src/components/GoalCard.jsx:13-14 | the percentage never exceeds 100 and lies in 0..100 for a positive target and a non-negative saving; the goal is completed exactly when the saving reaches the target (for a zero target, exactly when something is saved); for a positive target the percentage is the saved share times 100, capped at 100 |
| GoalCard.DaysBetween | frontend/src/components/GoalCard.jsx:17 | the day count is the ceiling of the time between the two dates, in days |
| GoalCard.DaysLeft | frontend/src/components/GoalCard.jsx:16-18 | daysLeft is null exactly without a deadline, and otherwise the rounded-up days until it |
| GoalCard.MonthlyFor | frontend/src/components/GoalCard.jsx:96 | `Math.ceil(remaining / (days / 30))` is the least whole monthly amount that covers the remainder over the days left |
| GoalCard.SuggestedMonthly | frontend/src/components/GoalCard.jsx:88-100 | the suggestion appears exactly for an open goal with a deadline ahead, and then covers the remainder by the deadline |
| GoalCard.FooterSpec | frontend/src/components/GoalCard.jsx:106-119 | the footer says Completed exactly for a completed goal; otherwise "N days overdue" (N positive) past the deadline, "N days left" up to it, and "No deadline" exactly without one |
| GoalDetails.OfferedIndex | frontend/src/utils/assetDefinitions.js:3-44 | an asset card is found exactly when the name is one of the offered cards, at its position |
| GoalDetails.AssetPrice | frontend/src/pages/GoalDetails.jsx:35-36 | the selected card's price, and Gold's for a name the table does not hold; always positive |
| GoalDetails.OfferedOutsideSchema | frontend/src/pages/GoalDetails.jsx:31 | of the offered cards only "Mutual Funds" and "Gold" are asset types the investment schema accepts; the default card is not |
| GoalDetails.TotalAssetSavingsSpec | frontend/src/pages/GoalDetails.jsx:60-62 | the savings in an asset outside the schema are always 0; otherwise they are a part of everything invested |
| GoalDetails.TransferRaisesAssetSavings | frontend/src/pages/GoalDetails.jsx:60-78 | a successful purchase raises the selected asset's savings by exactly its amount and leaves every other asset's savings as they were |
| GoalDetails.RealRemaining | frontend/src/pages/GoalDetails.jsx:101-102 | the real remainder is never negative, covers target less saving, and is 0 exactly when the saving reaches the target |
| GoalDetails.DetailsDaysLeft | frontend/src/pages/GoalDetails.jsx:104-107 | the page's days left is 0 without a deadline and the card's day count otherwise |
| GoalDetails.DetailsSuggested | frontend/src/pages/GoalDetails.jsx:104-111 | the suggestion is 0 unless the deadline lies ahead, and then the least whole monthly amount covering the real remainder |
| GoalDetails.SuggestionsAgree | frontend/src/pages/GoalDetails.jsx:104-111 | for an open goal with a positive target the page suggests the same monthly amount as the card, whenever the card shows one |
| GoalDetails.EnabledPurchase | frontend/src/pages/GoalDetails.jsx:66-78 | a purchase the page lets through succeeds under the corrected transfer exactly when the card names a schema asset; as written, the default card answers 500 and the amount leaves the holdings |
| GoalsPage.PageSaved | frontend/src/pages/Goal.jsx:128-129 | the page's saving is `currentSaved` when it is non-zero, else `savedAmount`, else 0 |
| GoalsPage.SavedReadingsAgree | frontend/src/pages/Goal.jsx:128-129 | the page and the card read the same saving except for a stored `currentSaved` of 0 beside a non-zero `savedAmount` |
| GoalsPage.OverallProgress | frontend/src/pages/Goal.jsx:130-131 | the overall progress is 0 without any target and otherwise total saved over total target, times 100 |
| GoalsPage.OverallProgressBounds | frontend/src/pages/Goal.jsx:128-131 | when no goal is negative or over-saved, the overall progress is between 0 and 100 and the total remaining is not negative |
| GoalsPage.TotalRemaining | frontend/src/pages/Goal.jsx:222 | the total remaining is target less saved, negative exactly when the goals are over-saved overall |
| GoalsPage.CurrentBalance | frontend/src/pages/Goal.jsx:137-150 | the page's balance is the dashboard's balance for the current month |
| GoalsPage.FilterPartition | frontend/src/pages/Goal.jsx:153-160 | Completed and Active split the goals, so their counts add up to the number of goals; "All", or any other value, shows every goal; the Active card counts the Active list |
| GoalsPage.EditFormOf | frontend/src/pages/Goal.jsx:111-116 | the edit form holds the name, the target, the page's saving and a prefix of the deadline that is exactly ten characters long, or the whole deadline when it is shorter |
| GoalsPage.EditFormDeadline | frontend/src/pages/Goal.jsx:114 | an ISO deadline is cut to its `YYYY-MM-DD` date |
| Health.HealthScore | frontend/src/pages/FinancialHealth.jsx:53-67 | the score built up step by step is the score of the savings and debt terms, and it always lies between 20 and 100 |
| Health.Clamp | frontend/src/pages/FinancialHealth.jsx:70 | the clamp gives a score in 0..100 and never changes one already in range |
| Health.ScoreInAmounts | frontend/src/pages/FinancialHealth.jsx:53-67 | with no income the score is 60, any debt ignored; otherwise it is 50 plus the savings term (30, 15, 5 or -10) plus the debt term (20, 10, 0 or -20) at the stated thresholds |
| Health.ScoreMonotone | frontend/src/pages/FinancialHealth.jsx:53-67 | spending more or owing more never raises the score |
| Health.Projection | frontend/src/pages/FinancialHealth.jsx:74-101 | the projection has one row per year, each with the invested amount, the corpus and the gain of that year rounded, and the totals equal the last row |
| Health.YearStep | frontend/src/pages/FinancialHealth.jsx:82-94 | one pass of the loop advances the corpus by one year and pushes that year's row |
| Health.ZeroReturnCorpus | frontend/src/pages/FinancialHealth.jsx:76-87 | with a zero return the corpus is exactly the amount invested |
| Health.ZeroReturnNoGain | frontend/src/pages/FinancialHealth.jsx:89-94 | with a zero return every row shows no gain |
| Health.CorpusCoversInvested | frontend/src/pages/FinancialHealth.jsx:76-87 | with non-negative savings, surplus and return the corpus never falls below the amount invested |
| Health.InitialInvestment | frontend/src/pages/FinancialHealth.jsx:45-46 | the investment amount is at most the surplus: half of it when unset, otherwise the previous amount capped at it |
| Health.InitialInvestmentSettles | frontend/src/pages/FinancialHealth.jsx:45-46 | re-running the effect changes nothing, and a non-negative amount ends between 0 and the surplus |
| Health.InvestClick | frontend/src/pages/FinancialHealth.jsx:269-280 | the button opens the goal form exactly from 2000 upward |
| Health.InvestNeedsSurplus | frontend/src/pages/FinancialHealth.jsx:45-46 | the form opens only when the monthly surplus is at least 2000, carrying the chosen amount |
| BudgetsPage.SpentAmountSpec | frontend/src/pages/Budgets.jsx:82-90 | getSpentAmount is the category's expense total, the same figure as the category map's, and never negative |
| BudgetsPage.CardOf | frontend/src/pages/Budgets.jsx:199-208 | the card's spent figure is the server's when defined and the local sum otherwise; spent plus remaining is the budget amount, and the percentage never exceeds 100 |
| BudgetsPage.CardShows | frontend/src/pages/Budgets.jsx:199-208 | whichever source the spent figure came from, for a positive amount the percentage is the spent share times 100, capped at 100; through `getProgressColor` the card is red from 100% spent, yellow from 75% and green below; a zero budget is red exactly when something was spent and green exactly when nothing was |
| BudgetsPage.FallbackCardShows | frontend/src/pages/Budgets.jsx:199-202 | with no server figure the card's spent amount is the category's expense total, which is never negative, so the card's percentage and colour are as stated in the row above |
| BudgetsPage.CardSpec | frontend/src/pages/Budgets.jsx:136-140 | for a server row the card keeps its remaining amount, caps its percentage at 100, and is red from 100% spent, yellow from 75% and green below; a zero budget is red exactly when something was spent |
| BudgetsPage.SubmittedBody | frontend/src/pages/Budgets.jsx:96-101 | a submitted budget carries the selected month and year, the form's category and period, and an amount exactly when parseFloat gives one |
| BudgetsPage.SubmittedBodyAccepted | frontend/src/pages/Budgets.jsx:96-101 | a form with a listed category, a valid period and a non-negative amount passes the server's validation, and an unparsable or negative amount fails it |
| TransactionsPage.FilteredSpec | frontend/src/pages/Transactions.jsx:95-101 | a transaction is kept exactly when it meets every non-empty filter, with inclusive date bounds, and the kept list is an order-preserving subsequence |
| TransactionsPage.FilteredClearedAndIdempotent | frontend/src/pages/Transactions.jsx:39-46 | with the cleared filters every transaction is kept, and filtering twice is filtering once |
| TransactionsPage.Submission | frontend/src/pages/Transactions.jsx:48-54 | the submitted payload keeps the form's fields, converts the amount with parseFloat, and uses now for an empty date |
| TransactionsPage.BodyOf | frontend/src/pages/Transactions.jsx:50-54 | the request body carries a valid type exactly when the form's type parses, an amount exactly when one was parsed, and always a date |
| TransactionsPage.SubmissionStored | frontend/src/pages/Transactions.jsx:48-54 | a well-formed form is stored with 201 with its amount and its date (or now); an unparsable or negative amount is rejected with 400 |
| Suggestions.Build | frontend/src/components/SmartSuggestions.jsx:5-24 | the list built by pushes is the income rule's message, then the tips, or the balanced message when both are empty |
| Suggestions.TipsSpec | frontend/src/components/SmartSuggestions.jsx:15-20 | one tip per category above its threshold, in key order, each quoting a tenth of the amount rounded to the nearest whole unit |
| Suggestions.FiresSpec | frontend/src/components/SmartSuggestions.jsx:16-17 | with positive expenses a category fires exactly above a quarter of them; with none, exactly when its amount is positive |
| Suggestions.SuggestionsSpec | frontend/src/components/SmartSuggestions.jsx:8-24 | the list is never empty; the warning appears exactly above 80% spending, the praise exactly otherwise above 30% saving, never both, and the balanced message exactly when nothing else fired, and then alone |
| Suggestions.AtMostThreeTips | frontend/src/components/SmartSuggestions.jsx:15-20 | when the category amounts are non-negative and add up to the expenses, at most three tips fire |
| Text.Lower | backend/routes/ocr.routes.js:63 | lowercasing keeps the length and lowercases each character |
| Text.ContainsIff | backend/routes/ocr.routes.js:66 | `includes` holds exactly when the word occurs at some position |
| Text.ContainsInfix | backend/routes/ocr.routes.js:66 | a text contains every word placed inside it |
| Text.TrimStart | backend/models/Transaction.model.js:40 | trimming the start drops exactly the leading white space |
| Text.TrimEnd | backend/models/Transaction.model.js:40 | trimming the end drops exactly the trailing white space |
| Text.TrimSpec | backend/models/Transaction.model.js:40 | a trimmed text is a piece of the text with no white space at either end, and is empty exactly when the text is all white space |
| Text.Split | backend/routes/ocr.routes.js:54 | splitting gives at least one piece and no piece holds the separator |
| Text.JoinSplit | backend/routes/ocr.routes.js:54 | joining the pieces of a split with the separator gives back the text |
| Text.SplitJoin | backend/routes/report.routes.js:125 | splitting pieces joined by a separator that none of them holds gives back the pieces |
| Text.JoinFree | backend/routes/report.routes.js:125 | joining pieces free of a character, with another separator, gives a text free of it |
| Text.Padded | backend/routes/report.routes.js:121 | a zero-padded number is all digits and at least as wide as asked, and exactly as wide when its digits fit |
| Text.DigitsValue | backend/routes/report.routes.js:121 | the decimal digits of n read back as n |
| Text.LeadingZerosValue | backend/routes/report.routes.js:121 | leading zeros do not change the value a digit string reads as |
| Text.PaddedValue | backend/routes/report.routes.js:121 | a zero-padded number reads back as the number |
| Slices.FirstMatch | frontend/src/store/slices/transactionSlice.js:96 | the first position holding the id, with no earlier one, or none when no entry holds it |
| Slices.FindIndex | frontend/src/store/slices/transactionSlice.js:96 | `findIndex` gives -1 exactly when no entry holds the id, and otherwise the first position that does |
| Slices.ReplaceFirstSpec | frontend/src/store/slices/transactionSlice.js:95-100 | replacing by id keeps the length, changes nothing without a match, and otherwise writes the payload at the first matching position only |
| Slices.ReplaceFirstKeepsIds | frontend/src/store/slices/budgetSlice.js:100-107 | replacing by id keeps every position's id, and replacing twice is replacing once |
| Slices.RemoveAllSpec | frontend/src/store/slices/transactionSlice.js:102-104 | deleting removes every entry with the id and keeps all others, in order |
| Slices.RemoveAllIdempotent | frontend/src/store/slices/goalSlice.js:103-105 | deleting an absent id changes nothing, and deleting twice is deleting once |
| Slices.PushIdentifiedCounts | frontend/src/store/slices/budgetSlice.js:85-90 | a payload without an id is dropped, one with an id is appended even when that id is already listed, giving two entries with the same id |
| Slices.TransactionSlice.constructor | frontend/src/store/slices/transactionSlice.js:60-64 | the slice starts with no transactions, not loading and no error |
| Slices.TransactionSlice.ClearError | frontend/src/store/slices/transactionSlice.js:70-72 | clearError resets only the error |
| Slices.TransactionSlice.FetchPending | frontend/src/store/slices/transactionSlice.js:77-80 | fetch pending sets loading and clears the error, leaving the list |
| Slices.TransactionSlice.FetchFulfilled | frontend/src/store/slices/transactionSlice.js:81-85 | fetch fulfilled replaces the list with the payload, stops loading and clears the error |
| Slices.TransactionSlice.FetchRejected | frontend/src/store/slices/transactionSlice.js:86-89 | fetch rejected stops loading and records the error, leaving the list |
| Slices.TransactionSlice.AddFulfilled | frontend/src/store/slices/transactionSlice.js:91-93 | add prepends the new transaction, shifting the old entries by one |
| Slices.TransactionSlice.UpdateFulfilled | frontend/src/store/slices/transactionSlice.js:95-100 | update replaces the first entry with the payload's id, and nothing else |
| Slices.TransactionSlice.DeleteFulfilled | frontend/src/store/slices/transactionSlice.js:102-104 | delete removes every entry with the id |
| Slices.BudgetSlice.constructor | frontend/src/store/slices/budgetSlice.js:63-67 | the slice starts with no budgets, not loading and no error |
| Slices.BudgetSlice.FetchPending | frontend/src/store/slices/budgetSlice.js:72-74 | fetch pending sets loading and keeps a previous error |
| Slices.BudgetSlice.FetchFulfilled | frontend/src/store/slices/budgetSlice.js:75-78 | fetch fulfilled replaces the list and stops loading |
| Slices.BudgetSlice.FetchRejected | frontend/src/store/slices/budgetSlice.js:79-82 | fetch rejected stops loading and records the error |
| Slices.BudgetSlice.AddPending | frontend/src/store/slices/budgetSlice.js:91-93 | add pending sets loading |
| Slices.BudgetSlice.AddFulfilled | frontend/src/store/slices/budgetSlice.js:85-90 | add appends the payload only when it has an id, and stops loading either way |
| Slices.BudgetSlice.AddRejected | frontend/src/store/slices/budgetSlice.js:94-97 | add rejected stops loading and records the error |
| Slices.BudgetSlice.UpdateFulfilled | frontend/src/store/slices/budgetSlice.js:100-107 | update replaces the first entry with the payload's id, and is a no-op otherwise |
| Slices.BudgetSlice.UpdateOrDeleteRejected | frontend/src/store/slices/budgetSlice.js:108-118 | a rejected update or delete only records the error |
| Slices.BudgetSlice.DeleteFulfilled | frontend/src/store/slices/budgetSlice.js:113-115 | delete removes every entry with the id |
| Slices.GoalSlice.constructor | frontend/src/store/slices/goalSlice.js:61-65 | the slice starts with no goals, not loading and no error |
| Slices.GoalSlice.FetchPending | frontend/src/store/slices/goalSlice.js:70-73 | fetch pending sets loading and clears the error |
| Slices.GoalSlice.FetchFulfilled | frontend/src/store/slices/goalSlice.js:74-77 | fetch fulfilled replaces the goals and stops loading |
| Slices.GoalSlice.FetchRejected | frontend/src/store/slices/goalSlice.js:78-81 | fetch rejected stops loading and records the error |
| Slices.GoalSlice.AddFulfilled | frontend/src/store/slices/goalSlice.js:84-86 | add appends the goal at the end |
| Slices.GoalSlice.UpdateFulfilled | frontend/src/store/slices/goalSlice.js:92-97 | update replaces the first goal with the payload's id, and is a no-op otherwise |
| Slices.GoalSlice.DeleteFulfilled | frontend/src/store/slices/goalSlice.js:103-105 | delete removes every goal with the id, in order |
| Slices.GoalSlice.ChangeRejected | frontend/src/store/slices/goalSlice.js:87-108 | a rejected add, update or delete records the error and leaves the goals |
| Slices.InvestmentGoalSlice.constructor | frontend/src/store/slices/investmentGoalSlice.js:60-64 | the slice starts with no goals, not loading and no error |
| Slices.InvestmentGoalSlice.FetchPending | frontend/src/store/slices/investmentGoalSlice.js:69-72 | fetch pending sets loading and clears the error |
| Slices.InvestmentGoalSlice.FetchFulfilled | frontend/src/store/slices/investmentGoalSlice.js:73-76 | fetch fulfilled replaces the goals and stops loading |
| Slices.InvestmentGoalSlice.FetchRejected | frontend/src/store/slices/investmentGoalSlice.js:77-80 | fetch rejected stops loading and records the error |
| Slices.InvestmentGoalSlice.CreateFulfilled | frontend/src/store/slices/investmentGoalSlice.js:82-84 | create appends the payload |
| Slices.InvestmentGoalSlice.UpdateFulfilled | frontend/src/store/slices/investmentGoalSlice.js:86-91 | update replaces the first goal with the payload's id and keeps every id in place, so no reducer removes an entry |

## Left out

- The Express, Mongoose and HTTP plumbing, and the `protect` authentication middleware: a request is modelled by its user id and its parsed body or query.
- Database failures other than those the handlers inspect, and the concurrency of `Promise.all`: requests are handled one at a time. The duplicate-key race of the budget upsert is a parameter.
- The clock: `new Date()` is a parameter. So are parsing a date string (`new Date(s)`, `parseISO`) and `parseFloat` in the forms, which become functions passed in. Time zones are ignored: server and client share one clock.
- Number-to-text formatting (`toFixed`, `toLocaleString`, `Intl.NumberFormat`): figures are exact. The CSV amount text and the voice reply's rendering of the total are parameters.
- Floating point: amounts, percentages and the projection's compound interest are exact reals.
- Unicode case folding: `toLowerCase` is modelled on ASCII letters only.
- The Tesseract OCR worker, the `multer` upload and the regular-expression extractors `extractAmount` and `extractDate`: the OCR handler is modelled from the recognised text onwards.
- The browser speech API behind the voice assistant: the route receives the query text.
- Mongo's order among transactions with equal dates: the sort by date descending is modelled as a stable insertion sort, one of the orders Mongo may return.
- TransactionRoutes.FindOwned and BudgetRoutes.FindOwned: ids are modelled as numbers, so a malformed `:id` is not modelled; `findOne` throws a cast error for a string that is not an ObjectId and the handler answers 500, where the model's "404 exactly when the user owns no such record" assumes a well-formed id.
- Insights.ResolvePeriod: a year is accepted whenever it is an integer, as the validator does, but years outside the JavaScript `Date` range (beyond about 275760) are not modelled. There `new Date(year, month - 1, 1)` is an Invalid Date and the report, insight, PDF and budget-listing handlers answer 500, while the model answers with figures.
- Voice.Query: the query text is always present; a request without `query` throws at `query.toLowerCase()` outside the handler's try, which the model does not capture.
- The thin CRUD handlers of investmentGoalRoutes.js (list, create, update, delete), the savings-goal routes and the purely presentational pages and components (charts, colours, modals).
- The unused `totalSpent` of SmartSuggestions.jsx and the unused `remainingAmount` of GoalDetails.jsx: neither reaches the output.
- The browser's clamping of the health page's range slider to its bounds: the slider value is taken as given.
- The final 999 milliseconds of a month: `new Date(y, m, 0, 23, 59, 59)` ends the ranges one second before midnight. This is stated as a lemma about `Calendar.InMonthRangeIff`, not as a finding.
- GoalCard.SuggestedMonthly: states that the suggested amount covers the remainder over the months left, not that it is the least such amount. That second half is stated by GoalCard.MonthlyFor and GoalDetails.DetailsSuggested.

## Findings

| source | as written | input that shows it | evidently intended | confidence | as-written member | corrected member |
|---|---|---|---|---|---|---|
| backend/routes/investmentGoalRoutes.js:80-87 | the ledger transaction is created with `userId`, while the schema requires `user`, so the create always fails after the deduction and the investment were saved, and the route answers 500 | any transfer that passes the guards | record an expense with `user` set, and answer 200 | high, not executed | Invest.AsWrittenNeverRecords | Invest.TransferConserves |
| frontend/src/pages/GoalDetails.jsx:31 | the page opens on "Indian Stocks" (and offers "US Stocks" and "IPO"), none of which the investment-goal schema accepts; the create fails after the deduction was saved, so the amount leaves the savings and appears nowhere | a purchase of 100 from a goal holding 100, on the default card | offer only assets the schema accepts, or reject the asset before deducting | high, not executed | Invest.AsWrittenUnlistedAsset | Invest.TransferSpec |
| frontend/src/pages/Dashboard.jsx:119-120 | the trend months come from `setMonth` on today's date, which overflows on days 29-31 | today 2026-10-31 gives the buckets May, Jul, Jul, Aug, Oct, Oct | the six months before and including the current one | high, not executed | Dashboard.TrendOverflowOnThe31st | Dashboard.TrendDataSpec |
| frontend/src/pages/FinancialCalendar.jsx:74-101 | savings goals are read through `deadline` and `name`, but stored savings goals carry `endDate` and `goalName`, so no stored goal reaches the calendar and investment titles read "undefined Deadline" | a stored savings goal whose end date is the selected day | read the fields the stored goals carry | medium, not executed | CalendarEvents.AsWrittenMissesStoredGoals | CalendarEvents.GoalEventsSpec |
| backend/routes/investmentGoalRoutes.js:61-67 | the sign of the amount is never checked, so a negative amount passes the funds guard and raises the savings balance | amount -50 against any goal | reject amounts that are not positive with 400 | high, not executed | Invest.AsWrittenNegativeAmount | Invest.TransferSpec |
