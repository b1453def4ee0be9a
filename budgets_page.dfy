/** The budgets page: the local spent fallback, each budget card's spent,
    remaining and clamped percentage, the progress colour, and the body the
    form submits. */
module BudgetsPage {
  import opened Base
  import opened Calendar
  import TM = TransactionModel
  import Agg = Aggregation
  import opened BudgetModel
  import Routes = BudgetRoutes

  /** The category choices of the form, which are the budget enum's names. */
  const ExpenseCategories: seq<string> := ["Food", "Travel", "Bills", "Shopping", "Entertainment", "Health", "Education", "Other"]

  predicate SpentIn(category: string, t: TM.Transaction) {
    t.kind == TM.Expense && TM.CategoryName(t.category) == category
  }

  function SpentInFn(category: string): TM.Transaction -> bool {
    (t: TM.Transaction) => SpentIn(category, t)
  }

  /** `getSpentAmount`. */
  function SpentAmount(rows: seq<TM.Transaction>, category: string): real {
    Sum(Filter(rows, SpentInFn(category)), Agg.Amount)
  }

  /** For a budget category, the local figure is that category's entry of
      the expense totals object, and it is never negative. */
  lemma SpentAmountSpec(rows: seq<TM.Transaction>, c: BudgetCategory)
    requires forall i :: 0 <= i < |rows| ==> rows[i].amount >= 0.0
    ensures SpentAmount(rows, TM.CategoryName(ToCategory(c))) == Agg.Get(Agg.Summarize(rows).categoryExpenses, ToCategory(c))
    ensures SpentAmount(rows, TM.CategoryName(ToCategory(c))) >= 0.0
  {
    var name := TM.CategoryName(ToCategory(c));
    forall t ensures SpentInFn(name)(t) == Agg.ExpenseIn(ToCategory(c))(t) {
      TM.CategoryNameInjective(t.category, ToCategory(c));
    }
    FilterCongruent(rows, SpentInFn(name), Agg.ExpenseIn(ToCategory(c)));
    SumFilterLe(rows, SpentInFn(name), Agg.Amount);
  }

  /** A listed budget; `spent` is present when the server computed it. */
  datatype Shown = Shown(budget: Budget, spent: Option<real>)

  datatype Color = Red | Yellow | Green

  /** `getProgressColor`. */
  function ProgressColor(percentage: Num): Color {
    if Ge(percentage, 100.0) then Red else if Ge(percentage, 75.0) then Yellow else Green
  }

  /** One budget card. */
  datatype Card = Card(spent: real, remaining: real, percentage: Num, color: Color)

  function CardOf(b: Shown, rows: seq<TM.Transaction>): (c: Card)
    ensures b.spent.Some? ==> c.spent == b.spent.value
    ensures b.spent.None? ==> c.spent == SpentAmount(rows, TM.CategoryName(ToCategory(b.budget.category)))
    ensures c.spent + c.remaining == b.budget.amount
    ensures !Gt(c.percentage, 100.0)
  {
    var spent := if b.spent.Some? then b.spent.value else SpentAmount(rows, TM.CategoryName(ToCategory(b.budget.category)));
    var percentage := MinNum(Scale(Div(spent, b.budget.amount), 100.0), 100.0);
    Card(spent, b.budget.amount - spent, percentage, ProgressColor(percentage))
  }

  /** Whatever the spent figure came from (the server's or the local
      fallback), the card's percentage is the spent share of the amount
      clamped at 100. With a positive amount the colour is red once the
      budget is used up, yellow from three quarters on and green below; with
      a zero amount the share is NaN or +Infinity, so any spending is red
      and none is green. */
  lemma CardShows(b: Shown, rows: seq<TM.Transaction>)
    requires CardOf(b, rows).spent >= 0.0
    ensures var c := CardOf(b, rows); var a := b.budget.amount;
      (a > 0.0 ==> var x := c.spent / a * 100.0;
            c.percentage == Fin(if x <= 100.0 then x else 100.0)
            && (c.color == Red <==> c.spent >= a)
            && (c.color == Yellow <==> 0.75 * a <= c.spent < a)
            && (c.color == Green <==> c.spent < 0.75 * a))
      && (a == 0.0 ==> (c.color == Red <==> c.spent > 0.0) && (c.color == Green <==> c.spent == 0.0))
  {
    var c := CardOf(b, rows);
    var a := b.budget.amount;
    if a > 0.0 {
      ShareAtLeast(c.spent, a, 1.0);
      ShareAtLeast(c.spent, a, 0.75);
    }
  }

  /** A card with no server figure falls back on the page's expense total
      for the category, which is never negative, so the percentage and
      colour above hold for it. */
  lemma FallbackCardShows(budget: Budget, rows: seq<TM.Transaction>)
    requires forall i :: 0 <= i < |rows| ==> rows[i].amount >= 0.0
    ensures CardOf(Shown(budget, None), rows).spent >= 0.0
    ensures CardOf(Shown(budget, None), rows).spent
      == Agg.Get(Agg.Summarize(rows).categoryExpenses, ToCategory(budget.category))
  {
    SpentAmountSpec(rows, budget.category);
  }

  /** The card shows the server's progress clamped at 100, and its
      remaining amount. */
  lemma CardSpec(p: Routes.Progress, rows: seq<TM.Transaction>)
    requires p == Routes.ProgressOf(p.budget, p.spent) && p.spent >= 0.0
    ensures var c := CardOf(Shown(p.budget, Some(p.spent)), rows);
      c.remaining == p.remaining
      && c.percentage == MinNum(p.percentage, 100.0)
      && (p.budget.amount > 0.0 ==>
            (c.color == Red <==> p.spent >= p.budget.amount)
            && (c.color == Yellow <==> 0.75 * p.budget.amount <= p.spent < p.budget.amount)
            && (c.color == Green <==> p.spent < 0.75 * p.budget.amount))
      && (p.budget.amount == 0.0 ==> (c.color == Red <==> p.spent > 0.0))
  {
    CardShows(Shown(p.budget, Some(p.spent)), rows);
  }

  /** The body `handleSubmit` sends: the typed amount through `parseFloat`
      (None standing for NaN, sent as null, which the validator reads as a
      malformed amount) and the selected month and year. */
  datatype BudgetForm = BudgetForm(category: string, amount: string, period: string)

  function SubmittedBody(form: BudgetForm, parseFloat: string -> Option<real>, month: int, year: int): (q: Routes.BudgetBody)
    ensures q.month == Given(month) && q.year == Given(year)
    ensures q.category == Some(form.category) && q.period == Some(form.period)
    ensures q.amount.Given? <==> parseFloat(form.amount).Some?
    ensures q.amount.Malformed? <==> parseFloat(form.amount).None?
  {
    Routes.BudgetBody(Some(form.category),
      match parseFloat(form.amount) case Some(a) => Given(a) case None => Malformed,
      Some(form.period), Given(month), Given(year))
  }

  /** A form filled from the page's choices, with an amount that reads as a
      number of at least 0, passes the route's checks for the selected
      month; a NaN or negative amount does not. */
  lemma SubmittedBodyAccepted(form: BudgetForm, parseFloat: string -> Option<real>, month: int, year: int)
    requires 1 <= month <= 12
    ensures form.category in ExpenseCategories && (form.period == "weekly" || form.period == "monthly")
        && parseFloat(form.amount).Some? && parseFloat(form.amount).value >= 0.0
      ==> !Routes.Rejected(SubmittedBody(form, parseFloat, month, year))
    ensures parseFloat(form.amount).None? || parseFloat(form.amount).value < 0.0
      ==> Routes.Rejected(SubmittedBody(form, parseFloat, month, year))
  {
  }
}
