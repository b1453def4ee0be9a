/** The financial calendar's events for one day: the day's transactions,
    then the savings goals and then the investment goals whose deadline is
    that day. Both the page as written and a version that reads the stored
    goal fields are modelled. */
module CalendarEvents {
  import opened Base
  import opened Calendar
  import TM = TransactionModel
  import Dash = Dashboard
  import opened GoalCard
  import IM = InvestModel

  datatype EventType = DebtEvent | IncomeEvent | ExpenseEvent | GoalEvent | InvestmentEvent

  /** An event; `isDeadline` is set only on goal and investment events. */
  datatype Event = Event(kind: EventType, title: string, amount: real, isDeadline: bool)

  predicate FromTransaction(e: Event) {
    e.kind == DebtEvent || e.kind == IncomeEvent || e.kind == ExpenseEvent
  }

  /** The event of one transaction: a loan is a debt event whatever its
      type, and a loan filed under Other is titled "Debt". */
  function TransactionEvent(t: TM.Transaction): Event {
    var isDebt := Dash.IsDebtLike(t);
    Event(if isDebt then DebtEvent else if t.kind == TM.Income then IncomeEvent else ExpenseEvent,
      if t.category == TM.Other && isDebt then "Debt" else TM.CategoryName(t.category),
      t.amount, false)
  }

  /** The classification: debt exactly for the loan rule the dashboard uses,
      otherwise the transaction's own type; the title is the category except
      for a loan filed under Other. */
  lemma TransactionEventSpec(t: TM.Transaction)
    ensures var e := TransactionEvent(t);
      FromTransaction(e) && e.amount == t.amount && !e.isDeadline
      && (e.kind == DebtEvent <==> Dash.IsDebtLike(t))
      && (e.kind == IncomeEvent <==> !Dash.IsDebtLike(t) && t.kind == TM.Income)
      && (e.kind == ExpenseEvent <==> !Dash.IsDebtLike(t) && t.kind == TM.Expense)
      && (t.category == TM.Other ==> (e.title == "Debt" <==> Dash.IsDebtLike(t)))
      && (t.category != TM.Other ==> e.title == TM.CategoryName(t.category))
  {
    if t.category == TM.Other {
      assert TM.CategoryName(TM.Other) == "Other";
    }
  }

  predicate SameDay(day: CalDate, t: TM.Transaction) {
    t.date.date == day
  }

  function SameDayFn(day: CalDate): TM.Transaction -> bool {
    (t: TM.Transaction) => SameDay(day, t)
  }

  /** The events of the day's transactions, in list order. */
  function TransactionEvents(ts: seq<TM.Transaction>, day: CalDate): seq<Event>
    decreases |ts|
  {
    if |ts| == 0 then []
    else TransactionEvents(ts[..|ts| - 1], day) + (if SameDay(day, ts[|ts| - 1]) then [TransactionEvent(ts[|ts| - 1])] else [])
  }

  /** A savings goal's deadline event as written: it reads `deadline` and
      `name`. `parseISO` gives the calendar day of a text, None when the text
      is not a date. */
  predicate GoalDueAsWritten(day: CalDate, parseISO: string -> Option<CalDate>, g: ClientGoal) {
    g.deadline != "" && parseISO(g.deadline) == Some(day)
  }

  function GoalEventsAsWritten(goals: seq<ClientGoal>, day: CalDate, parseISO: string -> Option<CalDate>): seq<Event>
    decreases |goals|
  {
    if |goals| == 0 then []
    else
      var g := goals[|goals| - 1];
      GoalEventsAsWritten(goals[..|goals| - 1], day, parseISO)
      + (if GoalDueAsWritten(day, parseISO, g) then [Event(GoalEvent, g.name + " Deadline", g.targetAmount, true)] else [])
  }

  /** An investment goal's deadline event as written: the stored document has
      `goalName` and no `name`, so the title reads "undefined Deadline". */
  function InvestmentEventsAsWritten(investments: seq<IM.InvestmentGoal>, day: CalDate): seq<Event>
    decreases |investments|
  {
    if |investments| == 0 then []
    else
      var v := investments[|investments| - 1];
      InvestmentEventsAsWritten(investments[..|investments| - 1], day)
      + (if v.deadline.date == day then [Event(InvestmentEvent, "undefined Deadline", v.targetAmount, true)] else [])
  }

  function EventsAsWritten(ts: seq<TM.Transaction>, goals: seq<ClientGoal>, investments: seq<IM.InvestmentGoal>,
                           day: CalDate, parseISO: string -> Option<CalDate>): seq<Event> {
    TransactionEvents(ts, day) + GoalEventsAsWritten(goals, day, parseISO) + InvestmentEventsAsWritten(investments, day)
  }

  /** `getEventsForDate`, pushing events in three passes as the page does. */
  method GetEventsForDate(ts: seq<TM.Transaction>, goals: seq<ClientGoal>, investments: seq<IM.InvestmentGoal>,
                          day: CalDate, parseISO: string -> Option<CalDate>) returns (events: seq<Event>)
    ensures events == EventsAsWritten(ts, goals, investments, day, parseISO)
  {
    events := [];
    var i := 0;
    while i < |ts|
      invariant 0 <= i <= |ts|
      invariant events == TransactionEvents(ts[..i], day)
    {
      if ts[i].date.date == day {
        events := events + [TransactionEvent(ts[i])];
      }
      assert ts[..i + 1][..i] == ts[..i];
      i := i + 1;
    }
    assert ts[..|ts|] == ts;
    var j := 0;
    while j < |goals|
      invariant 0 <= j <= |goals|
      invariant events == TransactionEvents(ts, day) + GoalEventsAsWritten(goals[..j], day, parseISO)
    {
      var g := goals[j];
      if g.deadline != "" {
        if parseISO(g.deadline) == Some(day) {
          events := events + [Event(GoalEvent, g.name + " Deadline", g.targetAmount, true)];
        }
      }
      assert goals[..j + 1][..j] == goals[..j];
      j := j + 1;
    }
    assert goals[..|goals|] == goals;
    var k := 0;
    while k < |investments|
      invariant 0 <= k <= |investments|
      invariant events == TransactionEvents(ts, day) + GoalEventsAsWritten(goals, day, parseISO)
                          + InvestmentEventsAsWritten(investments[..k], day)
    {
      if investments[k].deadline.date == day {
        events := events + [Event(InvestmentEvent, "undefined Deadline", investments[k].targetAmount, true)];
      }
      assert investments[..k + 1][..k] == investments[..k];
      k := k + 1;
    }
    assert investments[..|investments|] == investments;
  }

  /** One event per transaction of the day, in list order. */
  lemma {:induction false} TransactionEventsSpec(ts: seq<TM.Transaction>, day: CalDate)
    ensures |TransactionEvents(ts, day)| == |Filter(ts, SameDayFn(day))|
    ensures forall k :: 0 <= k < |TransactionEvents(ts, day)| ==>
      TransactionEvents(ts, day)[k] == TransactionEvent(Filter(ts, SameDayFn(day))[k])
    decreases |ts|
  {
    if |ts| > 0 {
      TransactionEventsSpec(ts[..|ts| - 1], day);
    }
  }

  /** Every goal event comes from a goal with a deadline on that day. */
  lemma {:induction false} GoalEventsAsWrittenSpec(goals: seq<ClientGoal>, day: CalDate, parseISO: string -> Option<CalDate>)
    ensures |GoalEventsAsWritten(goals, day, parseISO)| <= |goals|
    ensures forall k :: 0 <= k < |GoalEventsAsWritten(goals, day, parseISO)| ==>
      GoalEventsAsWritten(goals, day, parseISO)[k].kind == GoalEvent && GoalEventsAsWritten(goals, day, parseISO)[k].isDeadline
    ensures (forall k :: 0 <= k < |goals| ==> goals[k].deadline == "") ==> GoalEventsAsWritten(goals, day, parseISO) == []
    decreases |goals|
  {
    if |goals| > 0 {
      GoalEventsAsWrittenSpec(goals[..|goals| - 1], day, parseISO);
    }
  }

  lemma {:induction false} InvestmentEventsAsWrittenKinds(investments: seq<IM.InvestmentGoal>, day: CalDate)
    ensures forall k :: 0 <= k < |InvestmentEventsAsWritten(investments, day)| ==>
      InvestmentEventsAsWritten(investments, day)[k].kind == InvestmentEvent
    decreases |investments|
  {
    if |investments| > 0 {
      InvestmentEventsAsWrittenKinds(investments[..|investments| - 1], day);
    }
  }

  /** The events come in three runs: the day's transactions in list order,
      then goal deadlines, then investment deadlines. */
  lemma EventsOrdered(ts: seq<TM.Transaction>, goals: seq<ClientGoal>, investments: seq<IM.InvestmentGoal>,
                      day: CalDate, parseISO: string -> Option<CalDate>)
    ensures var e := EventsAsWritten(ts, goals, investments, day, parseISO);
      var n := |Filter(ts, SameDayFn(day))|;
      var m := |GoalEventsAsWritten(goals, day, parseISO)|;
      n + m <= |e|
      && (forall k :: 0 <= k < n ==> e[k] == TransactionEvent(Filter(ts, SameDayFn(day))[k]))
      && (forall k :: n <= k < n + m ==> e[k].kind == GoalEvent)
      && (forall k :: n + m <= k < |e| ==> e[k].kind == InvestmentEvent)
  {
    TransactionEventsSpec(ts, day);
    GoalEventsAsWrittenSpec(goals, day, parseISO);
    InvestmentEventsAsWrittenKinds(investments, day);
  }

  /** As written, a goal stored the way the goals page saves it (`goalName`
      and `endDate`, no `deadline`) never shows on its deadline, and an
      investment goal's event is titled "undefined Deadline". */
  lemma AsWrittenMissesStoredGoals(g: ClientGoal, v: IM.InvestmentGoal, parseISO: string -> Option<CalDate>)
    requires g.deadline == "" && g.endDate != "" && parseISO(g.endDate).Some?
    ensures GoalEventsAsWritten([g], parseISO(g.endDate).value, parseISO) == []
    ensures InvestmentEventsAsWritten([v], v.deadline.date) == [Event(InvestmentEvent, "undefined Deadline", v.targetAmount, true)]
  {
    assert [g][..0] == [] && [v][..0] == [];
  }

  /** A savings goal's deadline event, read through the card's fallbacks. */
  predicate GoalDue(day: CalDate, parseISO: string -> Option<CalDate>, g: ClientGoal) {
    DeadlineOf(g) != "" && parseISO(DeadlineOf(g)) == Some(day)
  }

  function GoalEvents(goals: seq<ClientGoal>, day: CalDate, parseISO: string -> Option<CalDate>): seq<Event>
    decreases |goals|
  {
    if |goals| == 0 then []
    else
      var g := goals[|goals| - 1];
      GoalEvents(goals[..|goals| - 1], day, parseISO)
      + (if GoalDue(day, parseISO, g) then [Event(GoalEvent, NameOf(g) + " Deadline", g.targetAmount, true)] else [])
  }

  /** An investment goal's deadline event, titled with its stored name. */
  function InvestmentEvents(investments: seq<IM.InvestmentGoal>, day: CalDate): seq<Event>
    decreases |investments|
  {
    if |investments| == 0 then []
    else
      var v := investments[|investments| - 1];
      InvestmentEvents(investments[..|investments| - 1], day)
      + (if v.deadline.date == day then [Event(InvestmentEvent, v.goalName + " Deadline", v.targetAmount, true)] else [])
  }

  function Events(ts: seq<TM.Transaction>, goals: seq<ClientGoal>, investments: seq<IM.InvestmentGoal>,
                  day: CalDate, parseISO: string -> Option<CalDate>): seq<Event> {
    TransactionEvents(ts, day) + GoalEvents(goals, day, parseISO) + InvestmentEvents(investments, day)
  }

  function GoalDueFn(day: CalDate, parseISO: string -> Option<CalDate>): ClientGoal -> bool {
    (g: ClientGoal) => GoalDue(day, parseISO, g)
  }

  /** Read through the fallbacks, every goal due that day, old or new
      fields, gives one event titled with its name, in list order; for goals
      that only have the old fields nothing changes. */
  lemma {:induction false} GoalEventsSpec(goals: seq<ClientGoal>, day: CalDate, parseISO: string -> Option<CalDate>)
    ensures |GoalEvents(goals, day, parseISO)| == |Filter(goals, GoalDueFn(day, parseISO))|
    ensures forall k :: 0 <= k < |GoalEvents(goals, day, parseISO)| ==>
      var g := Filter(goals, GoalDueFn(day, parseISO))[k];
      GoalEvents(goals, day, parseISO)[k] == Event(GoalEvent, NameOf(g) + " Deadline", g.targetAmount, true)
    ensures (forall k :: 0 <= k < |goals| ==> goals[k].endDate == "" && goals[k].goalName == "") ==>
      GoalEvents(goals, day, parseISO) == GoalEventsAsWritten(goals, day, parseISO)
    decreases |goals|
  {
    if |goals| > 0 {
      GoalEventsSpec(goals[..|goals| - 1], day, parseISO);
    }
  }

  /** The stored goal of AsWrittenMissesStoredGoals now shows on its day. */
  lemma StoredGoalShown(g: ClientGoal, parseISO: string -> Option<CalDate>)
    requires g.endDate != "" && parseISO(g.endDate).Some?
    ensures GoalEvents([g], parseISO(g.endDate).value, parseISO) == [Event(GoalEvent, NameOf(g) + " Deadline", g.targetAmount, true)]
  {
    assert [g][..0] == [];
  }
}
