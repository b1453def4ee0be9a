/** The financial health page: the health score from the savings rate and
    the debt ratio, the year-by-year projection, the suggested investment
    amount and the invest button. */
module Health {
  import opened Base

  /** `savingsRate`: the saved share of income in percent, 0 without income. */
  function SavingsRate(income: real, expenses: real): real {
    if income > 0.0 then (income - expenses) / income * 100.0 else 0.0
  }

  /** `debtRatio`: debt against a year's income in percent, 0 without income. */
  function DebtRatio(income: real, debt: real): real {
    if income > 0.0 then debt / (income * 12.0) * 100.0 else 0.0
  }

  /** The savings term of the score. */
  function SavingsPoints(rate: real): int {
    if rate >= 20.0 then 30 else if rate >= 10.0 then 15 else if rate > 0.0 then 5 else -10
  }

  /** The debt term of the score. */
  function DebtPoints(ratio: real): int {
    if ratio == 0.0 then 20 else if ratio < 30.0 then 10 else if ratio > 100.0 then -20 else 0
  }

  /** The score before the clamp. */
  function ScoreOf(income: real, expenses: real, debt: real): int {
    50 + SavingsPoints(SavingsRate(income, expenses)) + DebtPoints(DebtRatio(income, debt))
  }

  /** The score as the page computes it: a base of 50 moved by each term,
      then clamped to 0..100. The clamp never acts. */
  method HealthScore(income: real, expenses: real, debt: real) returns (score: int)
    ensures score == ScoreOf(income, expenses, debt)
    ensures 20 <= score <= 100
  {
    score := 50;
    var savingsRate := if income > 0.0 then (income - expenses) / income * 100.0 else 0.0;
    var debtRatio := if income > 0.0 then debt / (income * 12.0) * 100.0 else 0.0;
    if savingsRate >= 20.0 {
      score := score + 30;
    } else if savingsRate >= 10.0 {
      score := score + 15;
    } else if savingsRate > 0.0 {
      score := score + 5;
    } else {
      score := score - 10;
    }
    if debtRatio == 0.0 {
      score := score + 20;
    } else if debtRatio < 30.0 {
      score := score + 10;
    } else if debtRatio > 100.0 {
      score := score - 20;
    }
    score := Clamp(score);
  }

  /** `Math.max(0, Math.min(100, score))`. */
  function Clamp(score: int): (r: int)
    ensures 0 <= r <= 100
    ensures 0 <= score <= 100 ==> r == score
  {
    if score > 100 then 100 else if score < 0 then 0 else score
  }

  /** The score in terms of the amounts themselves: with income the
      savings term compares what is left with 20%, 10% and 0% of income, and
      the debt term compares the debt with 0, 3.6 and 12 months' income;
      without income the score is 60 whatever the expenses and the debt. */
  lemma ScoreInAmounts(income: real, expenses: real, debt: real)
    ensures income <= 0.0 ==> ScoreOf(income, expenses, debt) == 60
    ensures income > 0.0 ==>
      ScoreOf(income, expenses, debt) ==
        50
        + (if income - expenses >= 0.2 * income then 30
           else if income - expenses >= 0.1 * income then 15
           else if expenses < income then 5
           else -10)
        + (if debt == 0.0 then 20
           else if debt < 3.6 * income then 10
           else if debt > 12.0 * income then -20
           else 0)
  {
    if income > 0.0 {
      ShareAtLeast(income - expenses, income, 0.2);
      ShareAtLeast(income - expenses, income, 0.1);
      ShareAbove(income - expenses, income, 0.0);
      var y := income * 12.0;
      ShareAtLeast(debt, y, 0.3);
      ShareAbove(debt, y, 1.0);
      var v := debt / y;
      assert v * y == debt;
      assert v == 0.0 <==> debt == 0.0;
    }
  }

  /** With income, more debt or more expenses never raise the score. */
  lemma ScoreMonotone(income: real, expenses: real, expenses': real, debt: real, debt': real)
    requires income > 0.0 && expenses <= expenses' && 0.0 <= debt <= debt'
    ensures ScoreOf(income, expenses', debt') <= ScoreOf(income, expenses, debt)
  {
    ScoreInAmounts(income, expenses, debt);
    ScoreInAmounts(income, expenses', debt');
  }

  /** One row of the projection chart. */
  datatype Row = Row(year: int, invested: int, value: int, gain: int)

  /** The totals under the chart. */
  datatype Totals = Totals(totalValue: int, totalInvested: int, totalGain: int)

  /** The amount paid in after i years: the net savings and i years of
      monthly surplus. */
  function InvestedAfter(income: real, expenses: real, savings: real, debt: real, i: int): real {
    (savings - debt) + (income - expenses) * 12.0 * i as real
  }

  /** The value after i years: each year adds the year's surplus, the return
      on the value so far and half a year's return on the surplus. */
  function Corpus(income: real, expenses: real, savings: real, debt: real, rate: real, i: nat): real
    decreases i
  {
    if i == 0 then savings - debt
    else
      var c := Corpus(income, expenses, savings, debt, rate, i - 1);
      var annual := (income - expenses) * 12.0;
      c + annual + (c * rate + annual * (rate / 2.0))
  }

  /** One pass of the projection loop, from the value c after i - 1 years
      to the value c' after i years, with inv paid in. */
  lemma YearStep(income: real, expenses: real, savings: real, debt: real, rate: real, i: nat, c: real, c': real, inv: real)
    requires i > 0 && c == Corpus(income, expenses, savings, debt, rate, i - 1)
    requires c' == c + (income - expenses) * 12.0 + (c * rate + (income - expenses) * 12.0 * (rate / 2.0))
    requires inv == (savings - debt) + (income - expenses) * 12.0 * i as real
    ensures c' == Corpus(income, expenses, savings, debt, rate, i)
    ensures Row(i, Round(inv), Round(c'), Round(c' - inv)) == RowAt(income, expenses, savings, debt, rate, i)
  {
  }

  function RowAt(income: real, expenses: real, savings: real, debt: real, rate: real, i: nat): Row {
    var c := Corpus(income, expenses, savings, debt, rate, i);
    var inv := InvestedAfter(income, expenses, savings, debt, i);
    Row(i, Round(inv), Round(c), Round(c - inv))
  }

  /** The projection loop: one row per year 1..years, and the totals of the
      last year, which repeat the last row when there is one. */
  method Projection(income: real, expenses: real, savings: real, debt: real, years: int, expectedReturn: real)
    returns (data: seq<Row>, totals: Totals)
    ensures |data| == if years > 0 then years else 0
    ensures forall k :: 0 <= k < |data| ==> data[k] == RowAt(income, expenses, savings, debt, expectedReturn / 100.0, k + 1)
    ensures var c := Corpus(income, expenses, savings, debt, expectedReturn / 100.0, |data|);
      var inv := InvestedAfter(income, expenses, savings, debt, years);
      totals == Totals(Round(c), Round(inv), Round(c - inv))
    ensures years > 0 ==> totals == Totals(data[years - 1].value, data[years - 1].invested, data[years - 1].gain)
  {
    var annualSavings := (income - expenses) * 12.0;
    var rate := expectedReturn / 100.0;
    var currentCorpus := savings - debt;
    data := [];
    var i := 1;
    while i <= years
      invariant 1 <= i && (years > 0 ==> i <= years + 1) && (years <= 0 ==> i == 1)
      invariant |data| == i - 1
      invariant currentCorpus == Corpus(income, expenses, savings, debt, rate, i - 1)
      invariant forall k :: 0 <= k < |data| ==> data[k] == RowAt(income, expenses, savings, debt, rate, k + 1)
    {
      var interestOnCorpus := currentCorpus * rate;
      var interestOnNewSavings := annualSavings * (rate / 2.0);
      var yearGrowth := interestOnCorpus + interestOnNewSavings;
      var investedAmount := (savings - debt) + annualSavings * i as real;
      ghost var previous := currentCorpus;
      currentCorpus := currentCorpus + annualSavings + yearGrowth;
      YearStep(income, expenses, savings, debt, rate, i, previous, currentCorpus, investedAmount);
      data := data + [Row(i, Round(investedAmount), Round(currentCorpus), Round(currentCorpus - investedAmount))];
      i := i + 1;
    }
    var totalInvested := (savings - debt) + annualSavings * years as real;
    assert totalInvested == InvestedAfter(income, expenses, savings, debt, years);
    assert currentCorpus == Corpus(income, expenses, savings, debt, rate, |data|);
    totals := Totals(Round(currentCorpus), Round(totalInvested), Round(currentCorpus - totalInvested));
    if years > 0 {
      assert data[years - 1] == RowAt(income, expenses, savings, debt, rate, years);
    }
  }

  /** With a zero expected return the value is exactly what was paid in. */
  lemma {:induction false} ZeroReturnCorpus(income: real, expenses: real, savings: real, debt: real, i: nat)
    ensures Corpus(income, expenses, savings, debt, 0.0, i) == InvestedAfter(income, expenses, savings, debt, i)
    decreases i
  {
    if i > 0 {
      ZeroReturnCorpus(income, expenses, savings, debt, i - 1);
      var annual := (income - expenses) * 12.0;
      assert annual * i as real == annual * (i - 1) as real + annual;
    }
  }

  /** So with a zero return every row shows a zero gain. */
  lemma ZeroReturnNoGain(income: real, expenses: real, savings: real, debt: real, i: nat)
    ensures RowAt(income, expenses, savings, debt, 0.0, i).gain == 0
    ensures RowAt(income, expenses, savings, debt, 0.0, i).value == RowAt(income, expenses, savings, debt, 0.0, i).invested
  {
    ZeroReturnCorpus(income, expenses, savings, debt, i);
  }

  /** With non-negative savings, surplus and return the value never falls
      below what was paid in. */
  lemma {:induction false} CorpusCoversInvested(income: real, expenses: real, savings: real, debt: real, rate: real, i: nat)
    requires savings - debt >= 0.0 && income - expenses >= 0.0 && rate >= 0.0
    ensures Corpus(income, expenses, savings, debt, rate, i) >= InvestedAfter(income, expenses, savings, debt, i) >= 0.0
    decreases i
  {
    var annual := (income - expenses) * 12.0;
    if i > 0 {
      CorpusCoversInvested(income, expenses, savings, debt, rate, i - 1);
      var c := Corpus(income, expenses, savings, debt, rate, i - 1);
      assert annual * i as real == annual * (i - 1) as real + annual;
      assert c * rate >= 0.0;
      assert annual * (rate / 2.0) >= 0.0;
    } else {
      assert annual * i as real == 0.0;
    }
  }

  /** The amount the slider starts from: the previous amount, or half the
      surplus when that was 0, and never more than the surplus. */
  function Surplus(income: real, expenses: real): real {
    Max(0.0, income - expenses)
  }

  function InitialInvestment(prev: real, income: real, expenses: real): (r: real)
    ensures r <= Surplus(income, expenses)
    ensures prev == 0.0 ==> r == 0.5 * Surplus(income, expenses)
    ensures prev != 0.0 ==> r == Min(prev, Surplus(income, expenses))
  {
    var surplus := Max(0.0, income - expenses);
    Min(if prev != 0.0 then prev else surplus * 0.5, surplus)
  }

  /** Recomputing the amount from its own result keeps it, and an amount
      that starts non-negative stays between 0 and the surplus. */
  lemma InitialInvestmentSettles(prev: real, income: real, expenses: real)
    ensures InitialInvestment(InitialInvestment(prev, income, expenses), income, expenses) == InitialInvestment(prev, income, expenses)
    ensures prev >= 0.0 ==> 0.0 <= InitialInvestment(prev, income, expenses) <= Surplus(income, expenses)
  {
  }

  /** What the invest button does. */
  datatype InvestAction = MinimumAlert | OpenGoal(name: string, targetAmount: int, savedAmount: real)

  function InvestClick(amount: real, totals: Totals): (r: InvestAction)
    ensures r.OpenGoal? <==> amount >= 2000.0
  {
    if amount < 2000.0 then MinimumAlert else OpenGoal("New Investment", totals.totalValue, amount)
  }

  /** Investing needs at least 2000: from the amount the page sets up, the
      button opens a goal only when the monthly surplus reaches 2000, and the
      goal then starts with that amount saved. */
  lemma InvestNeedsSurplus(prev: real, income: real, expenses: real, totals: Totals)
    ensures var a := InitialInvestment(prev, income, expenses);
      InvestClick(a, totals).OpenGoal? ==> Surplus(income, expenses) >= 2000.0 && InvestClick(a, totals).savedAmount == a
  {
  }
}
