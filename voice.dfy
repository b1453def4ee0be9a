/** The voice query endpoint: a keyword picks a category, the expense
    transactions of the last seven days (of every user) are totalled, and a
    one-sentence reply is built. */
module Voice {
  import opened Base
  import opened Calendar
  import opened TransactionModel
  import Text
  import Agg = Aggregation

  /** The category named by the query: the first of food, travel and rent
      found in the lowered query, or "" when none is. */
  function QueryCategory(query: string): string {
    var q := Text.Lower(query);
    if Text.Contains(q, "food") then "Food"
    else if Text.Contains(q, "travel") then "Travel"
    else if Text.Contains(q, "rent") then "Rent"
    else ""
  }

  /** The keywords are tried in the order food, travel, rent. */
  lemma QueryCategorySpec(query: string)
    ensures var q := Text.Lower(query);
      var c := QueryCategory(query);
      (c == "" <==> !Text.Contains(q, "food") && !Text.Contains(q, "travel") && !Text.Contains(q, "rent"))
      && (Text.Contains(q, "food") ==> c == "Food")
      && (c == "Travel" <==> !Text.Contains(q, "food") && Text.Contains(q, "travel"))
      && (c == "Rent" <==> !Text.Contains(q, "food") && !Text.Contains(q, "travel") && Text.Contains(q, "rent"))
  {
  }

  /** The query `{ category: category || { $exists: true }, type: "expense",
      date: { $gte: startOfWeek } }`: no owner constraint, no upper bound. */
  predicate WeekMatch(category: string, since: Moment, t: Transaction) {
    (category == "" || CategoryName(t.category) == category) && t.kind == Expense && MomentLe(since, t.date)
  }

  function WeekMatchFn(category: string, since: Moment): Transaction -> bool {
    (t: Transaction) => WeekMatch(category, since, t)
  }

  /** `startOfWeek`: now with the day of the month moved back by seven. */
  function WeekStart(now: Moment): Moment
    requires ValidMoment(now)
  {
    MinusDays(now, 7)
  }

  /** The `reduce` over the matched transactions, as a loop. */
  method WeeklyTotal(rows: seq<Transaction>, category: string, since: Moment) returns (total: real)
    ensures total == Sum(Filter(rows, WeekMatchFn(category, since)), Agg.Amount)
  {
    var p := WeekMatchFn(category, since);
    total := 0.0;
    var i := 0;
    while i < |rows|
      invariant 0 <= i <= |rows|
      invariant total == Sum(Filter(rows[..i], p), Agg.Amount)
    {
      FilterSumStep(rows, i, p, Agg.Amount);
      if p(rows[i]) {
        total := total + rows[i].amount;
      }
      i := i + 1;
    }
    assert rows[..i] == rows;
  }

  const Rupee: char := '\U{20B9}'

  /** The reply sentence, given the total already rendered as text. */
  function Reply(category: string, totalText: string): string {
    if category != "" then "You spent " + [Rupee] + totalText + " on " + category + " this week."
    else "Your total spending this week is " + [Rupee] + totalText + "."
  }

  /** POST /api/voice/query. */
  method Query(rows: seq<Transaction>, query: string, now: Moment, render: real -> string) returns (reply: string)
    requires ValidMoment(now)
    ensures var c := QueryCategory(query);
      reply == Reply(c, render(Sum(Filter(rows, WeekMatchFn(c, WeekStart(now))), Agg.Amount)))
  {
    var category := QueryCategory(query);
    var total := WeeklyTotal(rows, category, WeekStart(now));
    reply := Reply(category, render(total));
  }

  /** The reply names a category exactly when one was detected: it then
      starts "You spent" and contains the category name, and otherwise it
      starts "Your total". */
  lemma ReplySpec(category: string, totalText: string)
    ensures category != "" <==> "You spent " <= Reply(category, totalText)
    ensures category == "" <==> "Your total " <= Reply(category, totalText)
    ensures category != "" ==> Text.Contains(Reply(category, totalText), category)
  {
    var r := Reply(category, totalText);
    if category != "" {
      assert r[3] == ' ';
      var pre := "You spent " + [Rupee] + totalText + " on ";
      Text.ContainsInfix(pre, category, " this week.");
      assert r == pre + category + " this week.";
    } else {
      assert r[3] == 'r';
    }
  }

  /** "Rent" is not a transaction category, so a rent query totals nothing
      over stored transactions. */
  lemma RentMatchesNothing(rows: seq<Transaction>, since: Moment)
    ensures Filter(rows, WeekMatchFn("Rent", since)) == []
    ensures Sum(Filter(rows, WeekMatchFn("Rent", since)), Agg.Amount) == 0.0
  {
  }

  /** The total ignores owners: transactions that differ only in their user
      give the same total. */
  lemma TotalIgnoresOwner(rows: seq<Transaction>, other: seq<Transaction>, category: string, since: Moment)
    requires |rows| == |other|
    requires forall i :: 0 <= i < |rows| ==> other[i] == rows[i].(user := other[i].user)
    ensures Sum(Filter(rows, WeekMatchFn(category, since)), Agg.Amount)
      == Sum(Filter(other, WeekMatchFn(category, since)), Agg.Amount)
  {
    var p := WeekMatchFn(category, since);
    forall i | 0 <= i < |rows| ensures p(rows[i]) == p(other[i]) && Agg.Amount(rows[i]) == Agg.Amount(other[i]) {
      assert other[i] == rows[i].(user := other[i].user);
    }
    FilterSumPointwise(rows, other, p, Agg.Amount);
  }
}
