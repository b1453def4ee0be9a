/** The dashboard's figures: the current month's transactions and their
    totals, the per-category expense object, the six-month trend, the debt
    total, the savings badge and the recent-transactions strip. */
module Dashboard {
  import opened Base
  import opened Calendar
  import opened TransactionModel
  import opened Aggregation
  import Text

  /** `getMonth() + 1 === m && getFullYear() === y` on the transaction date. */
  predicate InMonth(y: int, m: int, t: Transaction) {
    t.date.date.year == y && t.date.date.month == m
  }

  function InMonthFn(y: int, m: int): Transaction -> bool {
    (t: Transaction) => InMonth(y, m, t)
  }

  /** `monthTransactions`. */
  function MonthTransactions(rows: seq<Transaction>, today: CalDate): seq<Transaction> {
    Filter(rows, InMonthFn(today.year, today.month))
  }

  /** The current month's transactions are exactly the listed ones dated in
      this month and year, in list order; their totals give the balance, and
      the category object splits the expenses. */
  lemma MonthFiguresSpec(rows: seq<Transaction>, today: CalDate)
    ensures forall t :: t in MonthTransactions(rows, today) <==>
      t in rows && t.date.date.year == today.year && t.date.date.month == today.month
    ensures IsSubsequence(MonthTransactions(rows, today), rows)
    ensures var s := Summarize(MonthTransactions(rows, today));
      s.balance == s.income - s.expenses
      && Sum(s.categoryExpenses, EntryTotal) == s.expenses
      && DistinctKeys(s.categoryExpenses)
  {
    forall t ensures t in MonthTransactions(rows, today) <==>
      t in rows && t.date.date.year == today.year && t.date.date.month == today.month
    {
      FilterMembers(rows, InMonthFn(today.year, today.month), t);
    }
    FilterIsSubsequence(rows, InMonthFn(today.year, today.month));
  }

  /** The loan rule shared with the calendar: category Debt, or Other with
      "Loan" (case-sensitive) in the description. */
  predicate IsDebtLike(t: Transaction) {
    t.category == Debt || (t.category == Other && Text.Contains(t.description, "Loan"))
  }

  predicate IsDebtExpense(t: Transaction) {
    IsDebtLike(t) && t.kind == Expense
  }

  /** `totalDebt`. */
  function TotalDebt(month: seq<Transaction>): real {
    Sum(Filter(month, IsDebtExpense), Amount)
  }

  /** The debt total is a part of the expenses: never negative and never
      more than the month's expenses. */
  lemma TotalDebtBounds(month: seq<Transaction>)
    requires forall i :: 0 <= i < |month| ==> month[i].amount >= 0.0
    ensures 0.0 <= TotalDebt(month) <= ExpensesOf(month)
  {
    var ex := Filter(month, IsExpense);
    FilterFilter(month, IsExpense, IsDebtLike, IsDebtExpense);
    forall x | x in ex ensures Amount(x) >= 0.0 {
      FilterMembers(month, IsExpense, x);
    }
    SumFilterLe(ex, IsDebtLike, Amount);
  }

  /** `monthTransactions.slice(0, 5)`. */
  function Recent(month: seq<Transaction>): (r: seq<Transaction>)
    ensures r <= month
    ensures |r| == if |month| < 5 then |month| else 5
  {
    month[..if |month| < 5 then |month| else 5]
  }

  const MonthNames: seq<string> := ["Jan", "Feb", "Mar", "Apr", "May", "Jun", "Jul", "Aug", "Sep", "Oct", "Nov", "Dec"]

  /** One column of the trend chart. */
  datatype Bucket = Bucket(month: string, income: real, expenses: real)

  /** The column for month m of year y: all listed transactions of that month. */
  function BucketOf(rows: seq<Transaction>, ym: (int, int)): (b: Bucket)
    requires 1 <= ym.1 <= 12
    ensures b.month == MonthNames[ym.1 - 1]
    ensures var s := Summarize(Filter(rows, InMonthFn(ym.0, ym.1)));
      b.income == s.income && b.expenses == s.expenses
  {
    var txs := Filter(rows, InMonthFn(ym.0, ym.1));
    Bucket(MonthNames[ym.1 - 1], IncomeOf(txs), ExpensesOf(txs))
  }

  /** The month of column i as written: today's date with its month index
      set to `getMonth() - (5 - i)`, the day of the month kept. */
  function TrendMonthAsWritten(today: CalDate, i: nat): (r: (int, int))
    requires ValidDate(today) && i < 6
    ensures 1 <= r.1 <= 12
  {
    var d := SetMonth(today, today.month - 1 - (5 - i));
    (d.year, d.month)
  }

  function TrendDataAsWritten(rows: seq<Transaction>, today: CalDate): (r: seq<Bucket>)
    requires ValidDate(today)
    ensures |r| == 6
  {
    seq(6, i requires 0 <= i < 6 => BucketOf(rows, TrendMonthAsWritten(today, i)))
  }

  /** On the 31st of October the as-written columns read May, Jul, Jul, Aug,
      Oct, Oct: June and September are skipped and two months are shown
      twice, because 31 June and 31 September overflow into the next month. */
  lemma TrendOverflowOnThe31st(rows: seq<Transaction>)
    ensures var today := CalDate(2026, 10, 31);
      [TrendMonthAsWritten(today, 0), TrendMonthAsWritten(today, 1), TrendMonthAsWritten(today, 2),
       TrendMonthAsWritten(today, 3), TrendMonthAsWritten(today, 4), TrendMonthAsWritten(today, 5)]
        == [(2026, 5), (2026, 7), (2026, 7), (2026, 8), (2026, 10), (2026, 10)]
      && TrendDataAsWritten(rows, today)[1] == TrendDataAsWritten(rows, today)[2]
  {
    var today := CalDate(2026, 10, 31);
    ColumnsOnOctober31(0, (2026, 5), 31);
    ColumnsOnOctober31(1, (2026, 7), 1);
    ColumnsOnOctober31(2, (2026, 7), 31);
    ColumnsOnOctober31(3, (2026, 8), 31);
    ColumnsOnOctober31(4, (2026, 10), 1);
    ColumnsOnOctober31(5, (2026, 10), 31);
    assert TrendDataAsWritten(rows, today)[1] == BucketOf(rows, (2026, 7)) == TrendDataAsWritten(rows, today)[2];
  }

  /** Column i on 31 October 2026: `setMonth` lands on the given day of the
      given month. */
  lemma ColumnsOnOctober31(i: nat, ym: (int, int), day: int)
    requires i < 6 && 1 <= ym.1 <= 12
    requires SetMonth(CalDate(2026, 10, 31), 4 + i) == CalDate(ym.0, ym.1, day)
    ensures TrendMonthAsWritten(CalDate(2026, 10, 31), i) == ym
  {
  }

  /** The month of column i as intended: 5 - i months before today's month. */
  function TrendMonth(today: CalDate, i: nat): (r: (int, int))
    requires ValidDate(today) && i < 6
    ensures 1 <= r.1 <= 12
  {
    MonthsBefore(today.year, today.month, 5 - i)
  }

  /** `trendData`, with each column in its own month. */
  function TrendData(rows: seq<Transaction>, today: CalDate): (r: seq<Bucket>)
    requires ValidDate(today)
    ensures |r| == 6
  {
    seq(6, i requires 0 <= i < 6 => BucketOf(rows, TrendMonth(today, i)))
  }

  /** The intended columns are six consecutive months, oldest first, the
      last one being the current month with the dashboard's own totals. */
  lemma TrendDataSpec(rows: seq<Transaction>, today: CalDate)
    requires ValidDate(today)
    ensures forall i :: 0 <= i < 5 ==>
      TrendMonth(today, i).0 * 12 + TrendMonth(today, i).1 + 1 == TrendMonth(today, i + 1).0 * 12 + TrendMonth(today, i + 1).1
    ensures TrendMonth(today, 5) == (today.year, today.month)
    ensures var s := Summarize(MonthTransactions(rows, today));
      TrendData(rows, today)[5] == Bucket(MonthNames[today.month - 1], s.income, s.expenses)
  {
    var ym := TrendMonth(today, 5);
    assert ym.0 * 12 + ym.1 == today.year * 12 + today.month;
    assert ym == (today.year, today.month);
  }

  /** Up to the 28th the written month and the intended one agree. */
  lemma TrendMonthAgrees(today: CalDate, i: nat)
    requires ValidDate(today) && today.day <= 28 && i < 6
    ensures TrendMonthAsWritten(today, i) == TrendMonth(today, i)
  {
    SetMonthExact(today, today.month - 1 - (5 - i));
  }

  /** So up to the 28th the written trend is the intended one. */
  lemma TrendAgreesEarlyInMonth(rows: seq<Transaction>, today: CalDate)
    requires ValidDate(today) && today.day <= 28
    ensures TrendDataAsWritten(rows, today) == TrendData(rows, today)
  {
    forall i | 0 <= i < 6
      ensures TrendDataAsWritten(rows, today)[i] == TrendData(rows, today)[i]
    {
      TrendMonthAgrees(today, i);
    }
  }

  /** The savings goal badge. */
  datatype Badge = BudgetMaster | SaverPro | SmartSaver | GettingStarted

  /** The badge for `currentSaved / targetAmount * 100`, compared with
      JavaScript's rules for a zero target (Infinity or NaN). */
  function GoalBadge(saved: real, target: real): Badge {
    var progress := Scale(Div(saved, target), 100.0);
    if Ge(progress, 100.0) then BudgetMaster
    else if Ge(progress, 75.0) then SaverPro
    else if Ge(progress, 50.0) then SmartSaver
    else GettingStarted
  }

  function Rank(b: Badge): nat {
    match b
    case GettingStarted => 0
    case SmartSaver => 1
    case SaverPro => 2
    case BudgetMaster => 3
  }

  /** The thresholds, in terms of the saved share of the target; with a zero
      target any positive saving is a Budget Master and nothing else is. */
  lemma GoalBadgeSpec(saved: real, target: real)
    ensures target > 0.0 ==>
      (GoalBadge(saved, target) == BudgetMaster <==> saved >= target)
      && (GoalBadge(saved, target) == SaverPro <==> 0.75 * target <= saved < target)
      && (GoalBadge(saved, target) == SmartSaver <==> 0.5 * target <= saved < 0.75 * target)
      && (GoalBadge(saved, target) == GettingStarted <==> saved < 0.5 * target)
    ensures target == 0.0 ==> (GoalBadge(saved, target) == BudgetMaster <==> saved > 0.0)
    ensures target == 0.0 ==> (GoalBadge(saved, target) == GettingStarted <==> saved <= 0.0)
  {
    if target > 0.0 {
      ShareAtLeast(saved, target, 1.0);
      ShareAtLeast(saved, target, 0.75);
      ShareAtLeast(saved, target, 0.5);
    }
  }

  /** Saving more never lowers the badge. */
  lemma GoalBadgeMonotone(a: real, b: real, target: real)
    requires target > 0.0 && a <= b
    ensures Rank(GoalBadge(a, target)) <= Rank(GoalBadge(b, target))
  {
    GoalBadgeSpec(a, target);
    GoalBadgeSpec(b, target);
  }
}
