/** The savings goals page: the summary totals and overall progress, the
    current month's balance, the All/Active/Completed filter and the edit
    form's field mapping. */
module GoalsPage {
  import opened Base
  import opened Calendar
  import TM = TransactionModel
  import Agg = Aggregation
  import Dash = Dashboard
  import opened GoalCard

  /** The page's saved amount: `currentSaved || savedAmount || 0`, so a
      `currentSaved` of 0 also falls back. */
  function PageSaved(g: ClientGoal): (r: real)
    ensures g.currentSaved.Some? && g.currentSaved.value != 0.0 ==> r == g.currentSaved.value
    ensures (g.currentSaved.None? || g.currentSaved.value == 0.0) ==> r == g.savedAmount.GetOr(0.0)
  {
    if g.currentSaved.Some? && g.currentSaved.value != 0.0 then g.currentSaved.value else g.savedAmount.GetOr(0.0)
  }

  /** The page and the card read the same saving except for a stored
      `currentSaved` of 0 next to a non-zero `savedAmount`. */
  lemma SavedReadingsAgree(g: ClientGoal)
    ensures PageSaved(g) != CardSaved(g) <==>
      g.currentSaved == Some(0.0) && g.savedAmount.Some? && g.savedAmount.value != 0.0
  {
  }

  function Target(g: ClientGoal): real { g.targetAmount }

  function TotalSaved(goals: seq<ClientGoal>): real { Sum(goals, PageSaved) }

  function TotalTarget(goals: seq<ClientGoal>): real { Sum(goals, Target) }

  /** `overallProgress`: 0 without any target. */
  function OverallProgress(goals: seq<ClientGoal>): (r: real)
    ensures TotalTarget(goals) <= 0.0 ==> r == 0.0
    ensures TotalTarget(goals) > 0.0 ==> r * TotalTarget(goals) == TotalSaved(goals) * 100.0
  {
    if TotalTarget(goals) > 0.0 then TotalSaved(goals) / TotalTarget(goals) * 100.0 else 0.0
  }

  /** One sum bounded term by term by another. */
  lemma {:induction false} SumPointwiseLe(goals: seq<ClientGoal>)
    requires forall i :: 0 <= i < |goals| ==> 0.0 <= PageSaved(goals[i]) <= goals[i].targetAmount
    ensures 0.0 <= TotalSaved(goals) <= TotalTarget(goals)
    decreases |goals|
  {
    if |goals| > 0 {
      SumPointwiseLe(goals[..|goals| - 1]);
    }
  }

  /** When no goal is over-saved or negative, the overall progress is a
      percentage between 0 and 100, and the remaining total is not negative. */
  lemma OverallProgressBounds(goals: seq<ClientGoal>)
    requires forall i :: 0 <= i < |goals| ==> 0.0 <= PageSaved(goals[i]) <= goals[i].targetAmount
    ensures 0.0 <= OverallProgress(goals) <= 100.0
    ensures TotalRemaining(goals) >= 0.0
  {
    SumPointwiseLe(goals);
    var t := TotalTarget(goals);
    if t > 0.0 {
      var v := TotalSaved(goals) / t;
      assert v * t == TotalSaved(goals);
      if v > 1.0 { MulLt(1.0, v, t); }
      if v < 0.0 { MulLt(v, 0.0, t); }
    }
  }

  /** "Total Remaining" is not clamped: an over-saved goal can make it
      negative. */
  function TotalRemaining(goals: seq<ClientGoal>): (r: real)
    ensures r + TotalSaved(goals) == TotalTarget(goals)
    ensures r < 0.0 <==> TotalSaved(goals) > TotalTarget(goals)
  {
    TotalTarget(goals) - TotalSaved(goals)
  }

  /** `currentBalance`: the month's income less its expenses, the same
      figure as the dashboard's balance. */
  function CurrentBalance(rows: seq<TM.Transaction>, today: CalDate): (r: real)
    ensures r == Agg.Summarize(Dash.MonthTransactions(rows, today)).balance
  {
    var month := Dash.MonthTransactions(rows, today);
    Agg.IncomeOf(month) - Agg.ExpensesOf(month)
  }

  predicate IsCompleted(g: ClientGoal) { PageSaved(g) >= g.targetAmount }

  predicate IsActive(g: ClientGoal) { PageSaved(g) < g.targetAmount }

  /** The filter test: "Completed" and "Active" select, anything else keeps all. */
  predicate Shown(filter: string, g: ClientGoal) {
    if filter == "Completed" then IsCompleted(g)
    else if filter == "Active" then IsActive(g)
    else true
  }

  function ShownFn(filter: string): ClientGoal -> bool {
    (g: ClientGoal) => Shown(filter, g)
  }

  /** `filteredGoals`. */
  function FilteredGoals(goals: seq<ClientGoal>, filter: string): seq<ClientGoal> {
    Filter(goals, ShownFn(filter))
  }

  /** Completed and Active split the goals: every goal is in exactly one,
      their sizes add up to the number of goals, "All" (or any other value)
      shows everything, and the Active card counts the Active list. */
  lemma {:induction false} FilterPartition(goals: seq<ClientGoal>, other: string)
    requires other != "Completed" && other != "Active"
    ensures |FilteredGoals(goals, "Completed")| + |FilteredGoals(goals, "Active")| == |goals|
    ensures FilteredGoals(goals, other) == goals
    ensures |Filter(goals, IsActive)| == |FilteredGoals(goals, "Active")|
    decreases |goals|
  {
    FilterAll(goals, ShownFn(other));
    FilterCongruent(goals, IsActive, ShownFn("Active"));
    if |goals| > 0 {
      FilterPartition(goals[..|goals| - 1], other);
    }
  }

  /** The edit form: name, target, saving and the deadline's first ten
      characters. */
  datatype EditForm = EditForm(name: string, target: real, saved: real, deadline: string)

  /** The form is prefilled from the goal: its name, its target, the saving
      the page shows, and the deadline cut to at most ten characters. */
  function EditFormOf(g: ClientGoal): (f: EditForm)
    ensures f.name == NameOf(g) && f.target == g.targetAmount && f.saved == PageSaved(g)
    ensures f.deadline <= DeadlineOf(g)
    ensures |f.deadline| == if |DeadlineOf(g)| < 10 then |DeadlineOf(g)| else 10
  {
    var d := DeadlineOf(g);
    EditForm(NameOf(g), g.targetAmount, PageSaved(g), d[..if |d| < 10 then |d| else 10])
  }

  /** An ISO deadline `YYYY-MM-DDT...` is cut to its date, the form that a
      date input accepts. */
  lemma EditFormDeadline(g: ClientGoal, d: CalDate, rest: string)
    requires ValidDate(d) && 0 <= d.year <= 9999
    requires DeadlineOf(g) == DateText(d) + "T" + rest
    ensures EditFormOf(g).deadline == DateText(d)
  {
    assert (DateText(d) + "T" + rest)[..10] == DateText(d);
  }
}
