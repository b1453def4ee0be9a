/** The insights endpoint: it resolves the report month, summarises it and
    the two months before it, and runs five threshold rules in a fixed
    order (spending trend, top category, balance, unusual spending,
    per-category spikes). */
module Insights {
  import opened Base
  import opened Calendar
  import opened TransactionModel
  import opened Aggregation

  datatype Severity = Warning | Success | Info | Error

  /** One insight, with the figures its message quotes. Percentages are
      exact; their `toFixed` rendering is not modelled. */
  datatype Insight =
    | SpendingIncreased(percent: real, amount: real)
    | GreatSavings(percent: real, amount: real)
    | TopSpendingCategory(category: Category, share: Num, amount: real)
    | NegativeBalance(amount: real)
    | ExcellentSavingsRate(rate: Num)
    | UnusualSpending(deviation: Num)
    | SpendingSpike(category: Category, change: real)
  {
    function Severity(): Severity {
      match this
      case SpendingIncreased(_, _) => Warning
      case GreatSavings(_, _) => Success
      case TopSpendingCategory(_, _, _) => Info
      case NegativeBalance(_) => Error
      case ExcellentSavingsRate(_) => Success
      case UnusualSpending(_) => Warning
      case SpendingSpike(_, _) => Warning
    }

    function Title(): string {
      match this
      case SpendingIncreased(_, _) => "Spending Increased"
      case GreatSavings(_, _) => "Great Savings!"
      case TopSpendingCategory(_, _, _) => "Top Spending Category"
      case NegativeBalance(_) => "Negative Balance"
      case ExcellentSavingsRate(_) => "Excellent Savings Rate"
      case UnusualSpending(_) => "Unusual Spending Pattern"
      case SpendingSpike(c, _) => CategoryName(c) + " Spending Spike"
    }
  }

  function Abs(x: real): real { if x < 0.0 then -x else x }

  /** The validated `month`/`year` query, with the current month and year as
      defaults; 400 when month is not an integer in 1..12 or year is not an
      integer. */
  function ResolvePeriod(month: Param<int>, year: Param<int>, today: CalDate): (r: Result<(int, int), int>)
    requires ValidDate(today)
    ensures r.Err? <==> month.Malformed? || (month.Given? && !(1 <= month.value <= 12)) || year.Malformed?
    ensures r.Err? ==> r.error == 400
    ensures r.Ok? ==> 1 <= r.value.0 <= 12
    ensures r.Ok? ==> r.value.0 == (if month.Given? then month.value else today.month)
    ensures r.Ok? ==> r.value.1 == (if year.Given? then year.value else today.year)
  {
    if month.Malformed? || year.Malformed? then Err(400)
    else if month.Given? && !(1 <= month.value <= 12) then Err(400)
    else Ok((if month.Given? then month.value else today.month, if year.Given? then year.value else today.year))
  }

  /** The `monthsToAnalyze` loop: the report month and the two before it. */
  method AnalyzedMonths(month: int, year: int) returns (r: seq<(int, int)>)
    requires 1 <= month <= 12
    ensures |r| == 3 && r[0] == (month, year)
    ensures forall i :: 0 <= i < 3 ==> 1 <= r[i].0 <= 12
    ensures forall i :: 0 <= i < 3 ==> r[i].1 == (if month - i <= 0 then year - 1 else year)
    ensures forall i :: 0 <= i < 3 ==> r[i].1 * 12 + r[i].0 == year * 12 + month - i
  {
    r := [];
    var i := 0;
    while i < 3
      invariant 0 <= i <= 3 && |r| == i
      invariant forall j :: 0 <= j < i ==> 1 <= r[j].0 <= 12
      invariant forall j :: 0 <= j < i ==> r[j].1 == (if month - j <= 0 then year - 1 else year)
      invariant forall j :: 0 <= j < i ==> r[j].1 * 12 + r[j].0 == year * 12 + month - j
    {
      var m := if month - i <= 0 then 12 + (month - i) else month - i;
      var y := if month - i <= 0 then year - 1 else year;
      r := r + [(m, y)];
      i := i + 1;
    }
  }

  /** The month's query: the user's transactions within the inclusive range. */
  function MonthQuery(s: seq<Transaction>, user: Id, month: int, year: int): seq<Transaction>
    requires 1 <= month <= 12
  {
    Filter(s, (t: Transaction) => t.user == user && InMonthRange(t.date, year, month))
  }

  /** Rule 1: the spending trend against the previous month; the percent is 0
      when the previous month had no expenses. */
  function TrendRule(cur: Summary, prev: Summary): seq<Insight> {
    var change := cur.expenses - prev.expenses;
    var percent := if prev.expenses > 0.0 then change / prev.expenses * 100.0 else 0.0;
    if change > 0.0 then [SpendingIncreased(Abs(percent), Abs(change))]
    else if change < 0.0 then [GreatSavings(Abs(percent), Abs(change))]
    else []
  }

  /** Rule 2: the top category, when its share of expenses exceeds 40%. */
  function TopRule(cur: Summary): seq<Insight> {
    if |cur.categoryExpenses| == 0 then []
    else
      var top := cur.categoryExpenses[TopIndex(cur.categoryExpenses)];
      var share := Scale(Div(top.total, cur.expenses), 100.0);
      if Gt(share, 40.0) then [TopSpendingCategory(top.key, share, top.total)] else []
  }

  /** Rule 3: a negative balance, or else a savings rate above 30%. */
  function BalanceRule(cur: Summary): seq<Insight> {
    if cur.balance < 0.0 then [NegativeBalance(Abs(cur.balance))]
    else if cur.balance > 0.0 && Gt(Div(cur.balance, cur.income), 0.3) then
      [ExcellentSavingsRate(Scale(Div(cur.balance, cur.income), 100.0))]
    else []
  }

  /** The mean of the two earlier months' expenses. */
  function Average(prev: Summary, two: Summary): real {
    (prev.expenses + two.expenses) / 2.0
  }

  /** Rule 4: spending more than 25% away from the two-month average. */
  function UnusualRule(cur: Summary, prev: Summary, two: Summary): seq<Insight> {
    var avg := Average(prev, two);
    var deviation := Div(Abs(cur.expenses - avg), avg);
    if Gt(deviation, 0.25) then [UnusualSpending(Scale(deviation, 100.0))] else []
  }

  /** Rule 5 for one category of the current month: a spike when the
      previous month's total is non-zero and the rise exceeds 50%. */
  function SpikeRule(e: Entry, prev: seq<Entry>): seq<Insight> {
    if IsSpike(e, prev) then [SpendingSpike(e.key, Change(e.total, Get(prev, e.key)))] else []
  }

  /** The percentage change from p to x. */
  function Change(x: real, p: real): real
    requires p != 0.0
  {
    (x - p) / p * 100.0
  }

  /** The previous total is truthy and the rise exceeds 50%. */
  predicate IsSpike(e: Entry, prev: seq<Entry>) {
    Get(prev, e.key) != 0.0 && Change(e.total, Get(prev, e.key)) > 50.0
  }

  /** Rule 5 over the current month's categories, in key order. */
  function SpikeRules(m: seq<Entry>, prev: seq<Entry>): seq<Insight>
    decreases |m|
  {
    if |m| == 0 then [] else SpikeRules(m[..|m| - 1], prev) + SpikeRule(m[|m| - 1], prev)
  }

  /** Every insight, in the order the handler pushes them. */
  function AllInsights(cur: Summary, prev: Summary, two: Summary): seq<Insight> {
    TrendRule(cur, prev) + TopRule(cur) + BalanceRule(cur) + UnusualRule(cur, prev, two)
    + SpikeRules(cur.categoryExpenses, prev.categoryExpenses)
  }

  /** The handler's sequence of conditional pushes and its `forEach` over the
      current month's categories. */
  method GenerateInsights(cur: Summary, prev: Summary, two: Summary) returns (insights: seq<Insight>)
    ensures insights == AllInsights(cur, prev, two)
  {
    insights := [];
    var spendingChange := cur.expenses - prev.expenses;
    var percent := if prev.expenses > 0.0 then spendingChange / prev.expenses * 100.0 else 0.0;
    if spendingChange > 0.0 {
      insights := insights + [SpendingIncreased(Abs(percent), Abs(spendingChange))];
    } else if spendingChange < 0.0 {
      insights := insights + [GreatSavings(Abs(percent), Abs(spendingChange))];
    }
    assert insights == TrendRule(cur, prev);
    ghost var done := insights;
    if |cur.categoryExpenses| > 0 {
      var top := cur.categoryExpenses[TopIndex(cur.categoryExpenses)];
      var share := Scale(Div(top.total, cur.expenses), 100.0);
      if Gt(share, 40.0) {
        insights := insights + [TopSpendingCategory(top.key, share, top.total)];
      }
    }
    assert insights == done + TopRule(cur);
    done := insights;
    if cur.balance < 0.0 {
      insights := insights + [NegativeBalance(Abs(cur.balance))];
    } else if cur.balance > 0.0 && Gt(Div(cur.balance, cur.income), 0.3) {
      insights := insights + [ExcellentSavingsRate(Scale(Div(cur.balance, cur.income), 100.0))];
    }
    assert insights == done + BalanceRule(cur);
    done := insights;
    var avg := (prev.expenses + two.expenses) / 2.0;
    var deviation := Div(Abs(cur.expenses - avg), avg);
    if Gt(deviation, 0.25) {
      insights := insights + [UnusualSpending(Scale(deviation, 100.0))];
    }
    assert insights == done + UnusualRule(cur, prev, two);
    insights := PushSpikes(insights, cur.categoryExpenses, prev.categoryExpenses);
  }

  /** The `forEach` over the current month's categories, pushing a spike
      warning for each category that spiked. */
  method PushSpikes(insights: seq<Insight>, m: seq<Entry>, prev: seq<Entry>) returns (r: seq<Insight>)
    ensures r == insights + SpikeRules(m, prev)
  {
    r := insights;
    var i := 0;
    while i < |m|
      invariant 0 <= i <= |m|
      invariant r == insights + SpikeRules(m[..i], prev)
    {
      assert m[..i + 1][..i] == m[..i];
      var p := Get(prev, m[i].key);
      if p != 0.0 {
        var change := (m[i].total - p) / p * 100.0;
        if change > 50.0 {
          r := r + [SpendingSpike(m[i].key, change)];
        }
      }
      i := i + 1;
    }
    assert m[..i] == m;
  }

  /** The trend rule: a warning exactly when spending rose, a success exactly
      when it fell, nothing when it is unchanged; the percent is 0 when the
      previous month had no expenses. */
  lemma TrendRuleSpec(cur: Summary, prev: Summary)
    ensures |TrendRule(cur, prev)| <= 1
    ensures (exists p, a :: TrendRule(cur, prev) == [SpendingIncreased(p, a)]) <==> cur.expenses > prev.expenses
    ensures (exists p, a :: TrendRule(cur, prev) == [GreatSavings(p, a)]) <==> cur.expenses < prev.expenses
    ensures TrendRule(cur, prev) == [] <==> cur.expenses == prev.expenses
    ensures prev.expenses == 0.0 && cur.expenses > 0.0 ==> TrendRule(cur, prev) == [SpendingIncreased(0.0, cur.expenses)]
    ensures forall i :: 0 <= i < |TrendRule(cur, prev)| ==> TrendRule(cur, prev)[i].amount == Abs(cur.expenses - prev.expenses)
  {
    var r := TrendRule(cur, prev);
    if cur.expenses > prev.expenses { assert r == [SpendingIncreased(r[0].percent, r[0].amount)]; }
    if cur.expenses < prev.expenses { assert r == [GreatSavings(r[0].percent, r[0].amount)]; }
  }

  /** The top-category rule names a category with the largest total, the last
      such key in insertion order, and fires exactly when its share exceeds 40%. */
  lemma TopRuleSpec(cur: Summary)
    ensures |TopRule(cur)| <= 1
    ensures TopRule(cur) != [] ==> |cur.categoryExpenses| > 0
    ensures forall i :: 0 <= i < |TopRule(cur)| ==>
      var k := TopIndex(cur.categoryExpenses);
      TopRule(cur)[i] == TopSpendingCategory(cur.categoryExpenses[k].key, Scale(Div(cur.categoryExpenses[k].total, cur.expenses), 100.0), cur.categoryExpenses[k].total)
      && Gt(TopRule(cur)[i].share, 40.0)
      && (forall j :: 0 <= j < |cur.categoryExpenses| ==> cur.categoryExpenses[j].total <= cur.categoryExpenses[k].total)
      && (forall j :: k < j < |cur.categoryExpenses| ==> cur.categoryExpenses[j].total < cur.categoryExpenses[k].total)
    ensures |cur.categoryExpenses| > 0 && cur.expenses > 0.0 ==>
      (TopRule(cur) != [] <==> cur.categoryExpenses[TopIndex(cur.categoryExpenses)].total / cur.expenses * 100.0 > 40.0)
  {
  }

  /** The balance rule: "Negative Balance" exactly when the balance is
      negative, "Excellent Savings Rate" exactly when it is positive and above
      30% of income; never both. A positive balance with non-negative
      expenses implies positive income, so the rate is finite. */
  lemma BalanceRuleSpec(cur: Summary)
    requires cur.balance == cur.income - cur.expenses && cur.expenses >= 0.0
    ensures |BalanceRule(cur)| <= 1
    ensures BalanceRule(cur) == [NegativeBalance(-cur.balance)] <==> cur.balance < 0.0
    ensures (exists r :: BalanceRule(cur) == [ExcellentSavingsRate(r)]) <==> cur.balance > 0.0 && cur.balance / cur.income > 0.3
    ensures cur.balance > 0.0 ==> cur.income > 0.0
  {
    if cur.balance > 0.0 && cur.balance / cur.income > 0.3 {
      assert BalanceRule(cur) == [ExcellentSavingsRate(Scale(Div(cur.balance, cur.income), 100.0))];
    }
  }

  /** The unusual-spending rule: with a positive average it fires exactly when
      the relative deviation exceeds 25%; with a zero average (x/0 is Infinity,
      0/0 is NaN) it fires exactly when there is spending this month. */
  lemma UnusualRuleSpec(cur: Summary, prev: Summary, two: Summary)
    requires cur.expenses >= 0.0
    ensures Average(prev, two) > 0.0 ==>
      (UnusualRule(cur, prev, two) != [] <==> Abs(cur.expenses - Average(prev, two)) / Average(prev, two) > 0.25)
    ensures Average(prev, two) == 0.0 ==> (UnusualRule(cur, prev, two) != [] <==> cur.expenses > 0.0)
    ensures Average(prev, two) == 0.0 && cur.expenses > 0.0 ==> UnusualRule(cur, prev, two) == [UnusualSpending(PosInf)]
  {
  }

  function IsSpikeFn(prev: seq<Entry>): Entry -> bool {
    (e: Entry) => IsSpike(e, prev)
  }

  /** Rule 5 reports, in key order, one spike per current category that
      spiked and nothing else: the k-th report is the k-th spiking category's,
      carrying its key and its percentage change. */
  lemma {:induction false} SpikeRulesSpec(m: seq<Entry>, prev: seq<Entry>)
    ensures |SpikeRules(m, prev)| == |Filter(m, IsSpikeFn(prev))| <= |m|
    ensures forall k :: 0 <= k < |SpikeRules(m, prev)| ==>
      var e := Filter(m, IsSpikeFn(prev))[k];
      IsSpike(e, prev) && SpikeRules(m, prev)[k] == SpendingSpike(e.key, Change(e.total, Get(prev, e.key)))
    ensures forall i :: 0 <= i < |m| && IsSpike(m[i], prev) ==>
      SpendingSpike(m[i].key, Change(m[i].total, Get(prev, m[i].key))) in SpikeRules(m, prev)
    decreases |m|
  {
    if |m| > 0 {
      var init := m[..|m| - 1];
      SpikeRulesSpec(init, prev);
      var r := SpikeRules(m, prev);
      assert r == SpikeRules(init, prev) + SpikeRule(m[|m| - 1], prev);
      forall i | 0 <= i < |m| && IsSpike(m[i], prev)
        ensures SpendingSpike(m[i].key, Change(m[i].total, Get(prev, m[i].key))) in r
      {
        if i < |m| - 1 { assert init[i] == m[i]; }
      }
    }
  }

  /** The summaries of the three analysed months. */
  function Analysis(s: seq<Transaction>, user: Id, months: seq<(int, int)>): (r: seq<Summary>)
    requires forall i :: 0 <= i < |months| ==> 1 <= months[i].0 <= 12
    ensures |r| == |months|
    ensures forall i :: 0 <= i < |months| ==> r[i] == Summarize(MonthQuery(s, user, months[i].0, months[i].1))
  {
    seq(|months|, i requires 0 <= i < |months| => Summarize(MonthQuery(s, user, months[i].0, months[i].1)))
  }

  /** A (month, year) pair is determined by its count of months. */
  lemma MonthIndexUnique(a: (int, int), b: (int, int))
    requires 1 <= a.0 <= 12 && 1 <= b.0 <= 12 && a.1 * 12 + a.0 == b.1 * 12 + b.0
    ensures a == b
  {
  }

  /** The response body. */
  datatype Report = Report(
    month: int,
    year: int,
    insights: seq<Insight>,
    currentMonth: Summary,
    previousMonth: Summary,
    spendingChange: real,
    incomeChange: real)

  /** GET /api/insights: 400 on an invalid query, otherwise the report for the
      resolved month over the requesting user's transactions. */
  method GetInsights(s: seq<Transaction>, user: Id, month: Param<int>, year: Param<int>, today: CalDate)
    returns (r: Result<Report, int>)
    requires ValidDate(today)
    ensures r.Err? <==> ResolvePeriod(month, year, today).Err?
    ensures r.Err? ==> r.error == 400
    ensures r.Ok? ==> (r.value.month, r.value.year) == ResolvePeriod(month, year, today).value
    ensures r.Ok? ==> var m, y := r.value.month, r.value.year;
      r.value.currentMonth == Summarize(MonthQuery(s, user, m, y))
      && r.value.previousMonth == Summarize(MonthQuery(s, user, MonthsBefore(y, m, 1).1, MonthsBefore(y, m, 1).0))
      && r.value.spendingChange == r.value.currentMonth.expenses - r.value.previousMonth.expenses
      && r.value.incomeChange == r.value.currentMonth.income - r.value.previousMonth.income
      && r.value.insights == AllInsights(r.value.currentMonth, r.value.previousMonth,
          Summarize(MonthQuery(s, user, MonthsBefore(y, m, 2).1, MonthsBefore(y, m, 2).0)))
  {
    var period := ResolvePeriod(month, year, today);
    if period.Err? {
      return Err(400);
    }
    var (m, y) := period.value;
    var months := AnalyzedMonths(m, y);
    MonthIndexUnique(months[1], (MonthsBefore(y, m, 1).1, MonthsBefore(y, m, 1).0));
    MonthIndexUnique(months[2], (MonthsBefore(y, m, 2).1, MonthsBefore(y, m, 2).0));
    var analysis := Analysis(s, user, months);
    var insights := GenerateInsights(analysis[0], analysis[1], analysis[2]);
    r := Ok(Report(m, y, insights, analysis[0], analysis[1],
      analysis[0].expenses - analysis[1].expenses, analysis[0].income - analysis[1].income));
  }
}
