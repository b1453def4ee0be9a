/** A savings goal as the client pages receive it, and the goal card: the
    field fallbacks, the clamped percentage, the days left, the suggested
    monthly amount and the footer. */
module GoalCard {
  import opened Base
  import opened Calendar

  /** A goal document as the client holds it. Older documents use `name`,
      `savedAmount` and `deadline`; newer ones `goalName`, `currentSaved` and
      `endDate`. Text fields are "" when missing; the two dates are ISO texts. */
  datatype ClientGoal = ClientGoal(
    id: string,
    goalName: string,
    name: string,
    targetAmount: real,
    currentSaved: Option<real>,
    savedAmount: Option<real>,
    endDate: string,
    deadline: string)

  /** `goal.goalName || goal.name`. */
  function NameOf(g: ClientGoal): string {
    if g.goalName != "" then g.goalName else g.name
  }

  /** `goal.endDate || goal.deadline`. */
  function DeadlineOf(g: ClientGoal): string {
    if g.endDate != "" then g.endDate else g.deadline
  }

  /** The card's saved amount: `currentSaved` whenever it is defined, even
      0, and otherwise `savedAmount || 0`. */
  function CardSaved(g: ClientGoal): (r: real)
    ensures g.currentSaved.Some? ==> r == g.currentSaved.value
    ensures g.currentSaved.None? && g.savedAmount.Some? ==> r == g.savedAmount.value
    ensures g.currentSaved.None? && g.savedAmount.None? ==> r == 0.0
  {
    if g.currentSaved.Some? then g.currentSaved.value else g.savedAmount.GetOr(0.0)
  }

  /** `Math.min((saved / target) * 100, 100)`. */
  function Percentage(g: ClientGoal): Num {
    MinNum(Scale(Div(CardSaved(g), g.targetAmount), 100.0), 100.0)
  }

  predicate Completed(g: ClientGoal) {
    Ge(Percentage(g), 100.0)
  }

  /** The percentage never exceeds 100; with a positive target the goal is
      completed exactly when the saving reaches it, and with a zero target
      exactly when something is saved. */
  lemma PercentageSpec(g: ClientGoal)
    ensures !Gt(Percentage(g), 100.0)
    ensures g.targetAmount > 0.0 ==> (Completed(g) <==> CardSaved(g) >= g.targetAmount)
    ensures g.targetAmount > 0.0 && CardSaved(g) >= 0.0 ==>
      Percentage(g).Fin? && 0.0 <= Percentage(g).v <= 100.0
    ensures g.targetAmount == 0.0 ==> (Completed(g) <==> CardSaved(g) > 0.0)
    ensures g.targetAmount > 0.0 ==> var x := CardSaved(g) / g.targetAmount * 100.0;
      Percentage(g) == Fin(if x <= 100.0 then x else 100.0)
  {
    if g.targetAmount > 0.0 {
      ShareAtLeast(CardSaved(g), g.targetAmount, 1.0);
      ShareAtLeast(CardSaved(g), g.targetAmount, 0.0);
    }
  }

  /** `Math.ceil((to - from) / (1000 * 60 * 60 * 24))`: whole days from one
      instant to another, rounded up. */
  function DaysBetween(from: Moment, to: Moment): (r: int)
    ensures r as real * (DayMs as real) >= (EpochMs(to) - EpochMs(from)) as real
    ensures (r - 1) as real * (DayMs as real) < (EpochMs(to) - EpochMs(from)) as real
  {
    var x := (EpochMs(to) - EpochMs(from)) as real / DayMs as real;
    var r := Ceil(x);
    assert x * DayMs as real == (EpochMs(to) - EpochMs(from)) as real;
    r
  }

  /** The card's days left: None without a deadline. `parseDate` is the
      client's `new Date(text)`. */
  function DaysLeft(g: ClientGoal, parseDate: string -> Moment, now: Moment): (r: Option<int>)
    ensures r.None? <==> DeadlineOf(g) == ""
    ensures r.Some? ==> r.value == DaysBetween(now, parseDate(DeadlineOf(g)))
  {
    if DeadlineOf(g) == "" then None else Some(DaysBetween(now, parseDate(DeadlineOf(g))))
  }

  /** `Math.ceil(remaining / (days / 30))` for a positive number of days:
      the least whole monthly amount that, paid every 30 days until the
      deadline, covers what remains. */
  function MonthlyFor(remaining: real, days: int): (r: int)
    requires days > 0
    ensures r as real * (days as real / 30.0) >= remaining
    ensures (r - 1) as real * (days as real / 30.0) < remaining
    ensures remaining >= 0.0 ==> r >= 0
  {
    var months := days as real / 30.0;
    var x := remaining / months;
    assert x * months == remaining;
    var r := Ceil(x);
    assert (r - 1) as real < x;
    MulLe(x, r as real, months);
    MulLt((r - 1) as real, x, months);
    assert (r - 1) as real * months < remaining;
    assert remaining >= 0.0 ==> x >= 0.0;
    r
  }

  /** The suggestion is shown only while the goal is open and its deadline
      lies ahead. */
  function SuggestedMonthly(g: ClientGoal, parseDate: string -> Moment, now: Moment): (r: Option<int>)
    ensures r.Some? <==> !Completed(g) && DaysLeft(g, parseDate, now).Some? && DaysLeft(g, parseDate, now).value > 0
    ensures r.Some? ==> r.value as real * (DaysLeft(g, parseDate, now).value as real / 30.0) >= g.targetAmount - CardSaved(g)
  {
    var d := DaysLeft(g, parseDate, now);
    if !Completed(g) && d.Some? && d.value > 0 then Some(MonthlyFor(g.targetAmount - CardSaved(g), d.value)) else None
  }

  /** The footer. */
  datatype Footer = CompletedNote | Overdue(days: int) | Left(days: int) | NoDeadline

  function FooterOf(g: ClientGoal, parseDate: string -> Moment, now: Moment): Footer {
    var d := DaysLeft(g, parseDate, now);
    if Completed(g) then CompletedNote
    else if d.Some? then (if d.value < 0 then Overdue(-d.value) else Left(d.value))
    else NoDeadline
  }

  /** Completed wins over any deadline; otherwise a past deadline shows a
      positive number of overdue days, a deadline today or ahead the days
      left, and no deadline says so. */
  lemma FooterSpec(g: ClientGoal, parseDate: string -> Moment, now: Moment)
    ensures var f := FooterOf(g, parseDate, now);
      var d := DaysLeft(g, parseDate, now);
      (f == CompletedNote <==> Completed(g))
      && (f.Overdue? <==> !Completed(g) && d.Some? && d.value < 0)
      && (f.Overdue? ==> f.days > 0 && f.days == -d.value)
      && (f.Left? <==> !Completed(g) && d.Some? && d.value >= 0)
      && (f.Left? ==> f.days == d.value)
      && (f == NoDeadline <==> !Completed(g) && DeadlineOf(g) == "")
  {
  }
}
