/** The budget endpoints: the month's budgets with their progress, the
    create-or-overwrite keyed on (user, category, period, month, year), and
    the owner-scoped amount update and delete. The collection is a sequence
    of rows whose unique index and object ids are kept as an invariant. */
module BudgetRoutes {
  import opened Base
  import opened Calendar
  import opened BudgetModel
  import TM = TransactionModel
  import Agg = Aggregation
  import Insights

  /** The expense query of one budget: the user's expenses in its category
      within the month's inclusive range. */
  function BudgetExpense(user: TM.Id, c: BudgetCategory, month: int, year: int): TM.Transaction -> bool
    requires 1 <= month <= 12
  {
    (t: TM.Transaction) => t.user == user && t.kind == TM.Expense && t.category == ToCategory(c)
      && InMonthRange(t.date, year, month)
  }

  /** `expenses.reduce((sum, t) => sum + t.amount, 0)` over that query. */
  function Spent(s: seq<TM.Transaction>, user: TM.Id, c: BudgetCategory, month: int, year: int): real
    requires 1 <= month <= 12
  {
    Sum(Filter(s, BudgetExpense(user, c, month, year)), Agg.Amount)
  }

  /** A budget's spending is the total its category has in the month's
      expense breakdown, the one the insight and report summaries compute. */
  lemma SpentIsCategoryTotal(s: seq<TM.Transaction>, user: TM.Id, c: BudgetCategory, month: int, year: int)
    requires 1 <= month <= 12
    ensures Spent(s, user, c, month, year)
      == Agg.Get(Agg.Summarize(Insights.MonthQuery(s, user, month, year)).categoryExpenses, ToCategory(c))
  {
    var q := Insights.MonthQuery(s, user, month, year);
    Agg.FilterFilter(s, (t: TM.Transaction) => t.user == user && InMonthRange(t.date, year, month),
      Agg.ExpenseIn(ToCategory(c)), BudgetExpense(user, c, month, year));
  }

  /** One element of the GET response. */
  datatype Progress = Progress(budget: Budget, spent: real, remaining: real, percentage: Num)

  /** `remaining = amount - spent` and `percentage = (spent / amount) * 100`;
      the percentage is neither clamped nor guarded against a zero amount. */
  function ProgressOf(b: Budget, spent: real): (r: Progress)
    ensures r.budget == b && r.spent == spent
    ensures r.spent + r.remaining == b.amount
  {
    Progress(b, spent, b.amount - spent, Scale(Div(spent, b.amount), 100.0))
  }

  /** With a positive amount the budget is overspent exactly when the
      percentage exceeds 100, which it may; with a zero amount any spending
      gives Infinity and none gives NaN. */
  lemma ProgressSpec(b: Budget, spent: real)
    requires spent >= 0.0
    ensures b.amount > 0.0 ==> ProgressOf(b, spent).percentage == Fin(spent / b.amount * 100.0)
    ensures b.amount > 0.0 ==> (ProgressOf(b, spent).remaining < 0.0 <==> Gt(ProgressOf(b, spent).percentage, 100.0))
    ensures b.amount > 0.0 ==> (ProgressOf(b, spent).remaining == 0.0 <==> ProgressOf(b, spent).percentage == Fin(100.0))
    ensures b.amount == 0.0 && spent > 0.0 ==> ProgressOf(b, spent).percentage == PosInf
    ensures b.amount == 0.0 && spent == 0.0 ==> ProgressOf(b, spent).percentage == NaN
  {
    if b.amount > 0.0 {
      ShareAbove(spent, b.amount, 1.0);
      ShareAtLeast(spent, b.amount, 1.0);
    }
  }

  /** The GET filter `{ user, month, year }`. */
  function InPeriod(user: TM.Id, month: int, year: int): Budget -> bool {
    (b: Budget) => b.user == user && b.month == month && b.year == year
  }

  /** GET /api/budgets: 400 on an invalid month or year; otherwise the user's
      budgets of the resolved month, in store order, each with its progress. */
  function GetBudgets(rows: seq<Budget>, s: seq<TM.Transaction>, user: TM.Id,
                      month: Param<int>, year: Param<int>, today: CalDate): (r: Result<seq<Progress>, int>)
    requires ValidDate(today)
    ensures r.Err? <==> Insights.ResolvePeriod(month, year, today).Err?
    ensures r.Err? ==> r.error == 400
    ensures r.Ok? ==> var (m, y) := Insights.ResolvePeriod(month, year, today).value;
      |r.value| == |Filter(rows, InPeriod(user, m, y))|
      && forall i :: 0 <= i < |r.value| ==>
        r.value[i].budget == Filter(rows, InPeriod(user, m, y))[i]
        && r.value[i].budget.user == user && r.value[i].budget.month == m && r.value[i].budget.year == y
        && r.value[i].spent == Spent(s, user, r.value[i].budget.category, m, y)
        && r.value[i].spent + r.value[i].remaining == r.value[i].budget.amount
        && r.value[i] == ProgressOf(r.value[i].budget, r.value[i].spent)
  {
    var period := Insights.ResolvePeriod(month, year, today);
    if period.Err? then Err(400)
    else
      var (m, y) := period.value;
      var listed := Filter(rows, InPeriod(user, m, y));
      Ok(seq(|listed|, i requires 0 <= i < |listed| => ProgressOf(listed[i], Spent(s, user, listed[i].category, m, y))))
  }

  /** The GET lists every budget of the user for that month and year, and no other. */
  lemma GetBudgetsComplete(rows: seq<Budget>, user: TM.Id, m: int, y: int, b: Budget)
    ensures b in Filter(rows, InPeriod(user, m, y)) <==> b in rows && b.user == user && b.month == m && b.year == y
  {
    FilterMembers(rows, InPeriod(user, m, y), b);
  }

  /** A reply: the HTTP status and the budget it carries, if any. */
  datatype Reply = Reply(status: int, body: Option<Budget>)

  /** The state after a request: the reply, the collection and the next fresh id. */
  datatype Outcome = Outcome(reply: Reply, rows: seq<Budget>, nextId: nat)

  /** What the unique index, the schema and id allocation guarantee of the collection. */
  predicate StoreValid(rows: seq<Budget>, nextId: nat) {
    UniqueKeys(rows) && forall i :: 0 <= i < |rows| ==> ValidBudget(rows[i]) && rows[i].id < nextId
  }

  /** The POST body as sent. */
  datatype BudgetBody = BudgetBody(
    category: Option<string>,
    amount: Param<real>,
    period: Option<string>,
    month: Param<int>,
    year: Param<int>)

  /** The POST validators: a non-empty category, an amount that is a number
      of at least 0, a period among weekly/monthly when sent, a month in 1..12
      and an integer year when sent. */
  predicate Rejected(q: BudgetBody) {
    q.category.None? || q.category.value == ""
    || !q.amount.Given? || q.amount.value < 0.0
    || (q.period.Some? && ParsePeriod(q.period.value).None?)
    || q.month.Malformed? || (q.month.Given? && !(1 <= q.month.value <= 12))
    || q.year.Malformed?
  }

  /** The key the POST looks up: period defaults to monthly, and month and
      year default to today's when falsy (so a year of 0 means this year). */
  function KeyFor(user: TM.Id, c: BudgetCategory, q: BudgetBody, today: CalDate): (k: BudgetKey)
    requires !Rejected(q) && ValidDate(today)
    ensures k.user == user && k.category == c && 1 <= k.month <= 12
    ensures q.period.None? ==> k.period == Monthly
    ensures q.period.Some? ==> ParsePeriod(q.period.value) == Some(k.period)
    ensures q.month.Given? ==> k.month == q.month.value
    ensures q.month.Absent? ==> k.month == today.month
    ensures q.year.Absent? || q.year == Given(0) ==> k.year == today.year
    ensures q.year.Given? && q.year.value != 0 ==> k.year == q.year.value
  {
    BudgetKey(user, c,
      if q.period.Some? then ParsePeriod(q.period.value).value else Monthly,
      if q.month.Given? then q.month.value else today.month,
      if q.year.Given? && q.year.value != 0 then q.year.value else today.year)
  }

  /** POST /api/budgets. `raced` says whether the store reports a
      duplicate-key error on insert, which happens only when a concurrent
      request inserted the same key after the lookup. */
  function Upsert(rows: seq<Budget>, nextId: nat, user: TM.Id, q: BudgetBody, today: CalDate, raced: bool): Outcome
    requires ValidDate(today)
  {
    if Rejected(q) then Outcome(Reply(400, None), rows, nextId)
    else
      match ParseBudgetCategory(q.category.value)
      case None => Outcome(Reply(500, None), rows, nextId)
      case Some(c) =>
        var k := KeyFor(user, c, q, today);
        match FindKey(rows, k)
        case Some(i) =>
          var b := rows[i].(amount := q.amount.value);
          Outcome(Reply(200, Some(b)), rows[i := b], nextId)
        case None =>
          if raced then Outcome(Reply(400, None), rows, nextId)
          else
            var b := Budget(nextId, user, c, q.amount.value, k.period, k.month, k.year);
            Outcome(Reply(201, Some(b)), rows + [b], nextId + 1)
  }

  /** The POST's outcomes: a rejected body gives 400, a category outside
      the enum fails at save with 500, an existing key has only its amount
      overwritten (200), a new key gets exactly one new row (201) unless a
      concurrent insert made it a duplicate (400); in every failing case the
      collection is unchanged. */
  lemma UpsertSpec(rows: seq<Budget>, nextId: nat, user: TM.Id, q: BudgetBody, today: CalDate, raced: bool)
    requires StoreValid(rows, nextId) && ValidDate(today)
    ensures var o := Upsert(rows, nextId, user, q, today, raced);
      StoreValid(o.rows, o.nextId)
      && o.reply.status in {400, 500, 200, 201}
      && (o.reply.status == 400 || o.reply.status == 500 <==> o.rows == rows && o.nextId == nextId && o.reply.body.None?)
      && (Rejected(q) ==> o.reply.status == 400)
      && (!Rejected(q) && ParseBudgetCategory(q.category.value).None? ==> o.reply.status == 500)
    ensures var o := Upsert(rows, nextId, user, q, today, raced);
      !Rejected(q) && ParseBudgetCategory(q.category.value).Some? ==>
        var k := KeyFor(user, ParseBudgetCategory(q.category.value).value, q, today);
        (o.reply.status == 200 <==> FindKey(rows, k).Some?)
        && (o.reply.status == 201 <==> FindKey(rows, k).None? && !raced)
        && (FindKey(rows, k).None? && raced ==> o.reply.status == 400)
        && (o.reply.status == 200 || o.reply.status == 201 ==>
              o.reply.body.Some? && KeyOf(o.reply.body.value) == k && o.reply.body.value.amount == q.amount.value
              && FindKey(o.rows, k) == Some(if o.reply.status == 200 then FindKey(rows, k).value else |rows|)
              && o.rows[FindKey(o.rows, k).value] == o.reply.body.value)
        && (o.reply.status == 200 ==>
              |o.rows| == |rows| && o.nextId == nextId
              && o.reply.body.value.id == rows[FindKey(rows, k).value].id
              && forall i :: 0 <= i < |rows| && i != FindKey(rows, k).value ==> o.rows[i] == rows[i])
        && (o.reply.status == 201 ==>
              o.rows == rows + [o.reply.body.value] && o.reply.body.value.id == nextId
              && o.nextId == nextId + 1)
  {
    if !Rejected(q) && ParseBudgetCategory(q.category.value).Some? {
      var c := ParseBudgetCategory(q.category.value).value;
      var k := KeyFor(user, c, q, today);
      match FindKey(rows, k)
      case Some(i) =>
        Overwrite(rows, nextId, i, q.amount.value);
      case None =>
        if !raced {
          Insert(rows, nextId, Budget(nextId, user, c, q.amount.value, k.period, k.month, k.year));
        }
    }
  }

  /** Overwriting one row's amount keeps the collection valid and every key
      where it was. */
  lemma Overwrite(rows: seq<Budget>, nextId: nat, i: nat, a: real)
    requires StoreValid(rows, nextId) && i < |rows| && a >= 0.0
    ensures var r := rows[i := rows[i].(amount := a)];
      StoreValid(r, nextId) && FindKey(r, KeyOf(rows[i])) == Some(i)
  {
    var r := rows[i := rows[i].(amount := a)];
    assert forall j :: 0 <= j < |r| ==> KeyOf(r[j]) == KeyOf(rows[j]) && r[j].id == rows[j].id;
    FindKeyUnique(r, KeyOf(rows[i]), i);
  }

  /** Appending a valid row with a fresh id and a new key keeps the
      collection valid, and the key is found at the end. */
  lemma Insert(rows: seq<Budget>, nextId: nat, b: Budget)
    requires StoreValid(rows, nextId) && FindKey(rows, KeyOf(b)).None? && b.id == nextId && ValidBudget(b)
    ensures StoreValid(rows + [b], nextId + 1) && FindKey(rows + [b], KeyOf(b)) == Some(|rows|)
  {
    FindKeyUnique(rows + [b], KeyOf(b), |rows|);
  }

  /** Under the unique index, a row holding key k is the one FindKey finds. */
  lemma FindKeyUnique(rows: seq<Budget>, k: BudgetKey, i: nat)
    requires UniqueKeys(rows) && i < |rows| && KeyOf(rows[i]) == k
    ensures FindKey(rows, k) == Some(i)
  {
  }

  /** Sending the same body twice with no concurrent insert leaves the
      collection as the first request left it, and the second reply is 200. */
  lemma UpsertIdempotent(rows: seq<Budget>, nextId: nat, user: TM.Id, q: BudgetBody, today: CalDate)
    requires StoreValid(rows, nextId) && ValidDate(today)
    requires !Rejected(q) && ParseBudgetCategory(q.category.value).Some?
    ensures var o := Upsert(rows, nextId, user, q, today, false);
      var o2 := Upsert(o.rows, o.nextId, user, q, today, false);
      o2.rows == o.rows && o2.nextId == o.nextId && o2.reply.status == 200
  {
    UpsertSpec(rows, nextId, user, q, today, false);
    var o := Upsert(rows, nextId, user, q, today, false);
    var k := KeyFor(user, ParseBudgetCategory(q.category.value).value, q, today);
    var j := FindKey(o.rows, k).value;
    assert o.rows[j].amount == q.amount.value;
    assert o.rows[j := o.rows[j].(amount := q.amount.value)] == o.rows;
  }

  /** The budget has this id and belongs to this user. */
  predicate Owned(id: TM.Id, user: TM.Id, b: Budget) {
    b.id == id && b.user == user
  }

  function OwnedFn(id: TM.Id, user: TM.Id): Budget -> bool {
    (b: Budget) => Owned(id, user, b)
  }

  /** The owner-scoped lookup `findOne({ _id, user })`: the first budget
      with that id and owner, or none. */
  function FindOwned(rows: seq<Budget>, id: TM.Id, user: TM.Id): (r: Option<nat>)
    ensures r.Some? ==> r.value < |rows| && rows[r.value].id == id && rows[r.value].user == user
    ensures r.Some? ==> forall j :: 0 <= j < r.value ==> !(rows[j].id == id && rows[j].user == user)
    ensures r.None? <==> forall i :: 0 <= i < |rows| ==> !(rows[i].id == id && rows[i].user == user)
  {
    FirstIndex(rows, OwnedFn(id, user))
  }

  /** PUT /api/budgets/:id: the amount is validated first (400), then a
      budget the user does not own gives 404; otherwise the amount is
      replaced when sent and the budget saved. */
  function UpdateAmount(rows: seq<Budget>, nextId: nat, id: TM.Id, user: TM.Id, amount: Param<real>): Outcome {
    if amount.Malformed? || (amount.Given? && amount.value < 0.0) then Outcome(Reply(400, None), rows, nextId)
    else
      match FindOwned(rows, id, user)
      case None => Outcome(Reply(404, None), rows, nextId)
      case Some(i) =>
        var b := if amount.Given? then rows[i].(amount := amount.value) else rows[i];
        Outcome(Reply(200, Some(b)), rows[i := b], nextId)
  }

  /** The PUT changes at most the amount of the one budget it found, and
      nothing at all when it fails or no amount was sent. */
  lemma UpdateAmountSpec(rows: seq<Budget>, nextId: nat, id: TM.Id, user: TM.Id, amount: Param<real>)
    requires StoreValid(rows, nextId)
    ensures var o := UpdateAmount(rows, nextId, id, user, amount);
      StoreValid(o.rows, o.nextId) && o.nextId == nextId && |o.rows| == |rows|
      && (o.reply.status == 400 <==> amount.Malformed? || (amount.Given? && amount.value < 0.0))
      && o.reply.status in {400, 404, 200}
      && (o.reply.status == 404 <==> o.reply.status != 400 && FindOwned(rows, id, user).None?)
      && (o.reply.status != 200 ==> o.rows == rows)
      && (o.reply.status == 200 ==>
            FindOwned(rows, id, user).Some? && o.reply.body.Some?
            && o.rows[FindOwned(rows, id, user).value] == o.reply.body.value)
      && (amount.Absent? ==> o.rows == rows)
      && (forall i :: 0 <= i < |rows| ==> KeyOf(o.rows[i]) == KeyOf(rows[i]) && o.rows[i].id == rows[i].id)
      && (forall i :: 0 <= i < |rows| && (rows[i].id != id || rows[i].user != user) ==> o.rows[i] == rows[i])
      && (o.reply.status == 200 && amount.Given? ==>
            o.reply.body.Some? && o.reply.body.value.id == id && o.reply.body.value.amount == amount.value)
  {
    var o := UpdateAmount(rows, nextId, id, user, amount);
    if o.reply.status == 200 {
      var i := FindOwned(rows, id, user).value;
      forall j | 0 <= j < |rows| && (rows[j].id != id || rows[j].user != user) ensures o.rows[j] == rows[j] {
        assert j != i;
      }
    }
  }

  /** DELETE /api/budgets/:id: 404 unless the user owns the budget, otherwise
      it is removed. */
  function Delete(rows: seq<Budget>, nextId: nat, id: TM.Id, user: TM.Id): Outcome {
    match FindOwned(rows, id, user)
    case None => Outcome(Reply(404, None), rows, nextId)
    case Some(i) => Outcome(Reply(200, None), RemoveAt(rows, i), nextId)
  }

  /** The DELETE removes exactly the budget it found and keeps the others in
      order; with no owned match it changes nothing. */
  lemma DeleteSpec(rows: seq<Budget>, nextId: nat, id: TM.Id, user: TM.Id)
    requires StoreValid(rows, nextId)
    ensures var o := Delete(rows, nextId, id, user);
      StoreValid(o.rows, o.nextId)
      && o.reply.status in {404, 200}
      && (o.reply.status == 404 <==> FindOwned(rows, id, user).None?)
      && (o.reply.status == 404 ==> o.rows == rows)
      && (o.reply.status == 200 ==>
            |o.rows| == |rows| - 1
            && multiset(o.rows) + multiset{rows[FindOwned(rows, id, user).value]} == multiset(rows)
            && forall i :: 0 <= i < |o.rows| ==> o.rows[i].id != id)
  {
    match FindOwned(rows, id, user)
    case None =>
    case Some(i) =>
      RemoveKeepsValid(rows, nextId, i);
      RemoveKeepsUnique(rows, i);
  }

  /** Removing a budget keeps every other budget valid, and none of them has
      the removed one's id. */
  lemma RemoveKeepsValid(rows: seq<Budget>, nextId: nat, i: nat)
    requires StoreValid(rows, nextId) && i < |rows|
    ensures forall j :: 0 <= j < |RemoveAt(rows, i)| ==>
      ValidBudget(RemoveAt(rows, i)[j]) && RemoveAt(rows, i)[j].id < nextId && RemoveAt(rows, i)[j].id != rows[i].id
  {
    var r := RemoveAt(rows, i);
    forall j | 0 <= j < |r| ensures ValidBudget(r[j]) && r[j].id < nextId && r[j].id != rows[i].id {
      var j' := if j < i then j else j + 1;
      assert r[j] == rows[j'];
    }
  }

  /** Removing a budget keeps keys and ids unique. */
  lemma RemoveKeepsUnique(rows: seq<Budget>, i: nat)
    requires UniqueKeys(rows) && i < |rows|
    ensures UniqueKeys(RemoveAt(rows, i))
  {
    var r := RemoveAt(rows, i);
    forall a, b | 0 <= a < b < |r|
      ensures KeyOf(r[a]) != KeyOf(r[b]) && r[a].id != r[b].id
    {
      var a' := if a < i then a else a + 1;
      var b' := if b < i then b else b + 1;
      assert r[a] == rows[a'] && r[b] == rows[b'];
    }
  }


  /** The budget collection, updated in place by the three mutating routes. */
  class BudgetStore {
    var rows: seq<Budget>
    var nextId: nat

    predicate Valid()
      reads this
    {
      StoreValid(rows, nextId)
    }

    constructor ()
      ensures Valid() && rows == [] && nextId == 0
    {
      rows := [];
      nextId := 0;
    }

    /** POST: `existingBudget.amount = amount; save()` or `Budget.create(...)`. */
    method Post(user: TM.Id, q: BudgetBody, today: CalDate, raced: bool) returns (r: Reply)
      requires Valid() && ValidDate(today)
      modifies this
      ensures Valid()
      ensures Outcome(r, rows, nextId) == Upsert(old(rows), old(nextId), user, q, today, raced)
    {
      UpsertSpec(rows, nextId, user, q, today, raced);
      if Rejected(q) {
        return Reply(400, None);
      }
      var c := ParseBudgetCategory(q.category.value);
      if c.None? {
        return Reply(500, None);
      }
      var k := KeyFor(user, c.value, q, today);
      var existing := FindKey(rows, k);
      if existing.Some? {
        var b := rows[existing.value].(amount := q.amount.value);
        rows := rows[existing.value := b];
        return Reply(200, Some(b));
      }
      if raced {
        return Reply(400, None);
      }
      var b := Budget(nextId, user, c.value, q.amount.value, k.period, k.month, k.year);
      rows := rows + [b];
      nextId := nextId + 1;
      r := Reply(201, Some(b));
    }

    /** PUT: `budget.amount = req.body.amount` when sent, then save. */
    method Put(id: TM.Id, user: TM.Id, amount: Param<real>) returns (r: Reply)
      requires Valid()
      modifies this
      ensures Valid()
      ensures Outcome(r, rows, nextId) == UpdateAmount(old(rows), old(nextId), id, user, amount)
    {
      UpdateAmountSpec(rows, nextId, id, user, amount);
      if amount.Malformed? || (amount.Given? && amount.value < 0.0) {
        return Reply(400, None);
      }
      var found := FindOwned(rows, id, user);
      if found.None? {
        return Reply(404, None);
      }
      var b := rows[found.value];
      if amount.Given? {
        b := b.(amount := amount.value);
      }
      rows := rows[found.value := b];
      r := Reply(200, Some(b));
    }

    /** DELETE: `Budget.deleteOne({ _id })` after the owner check. */
    method Remove(id: TM.Id, user: TM.Id) returns (r: Reply)
      requires Valid()
      modifies this
      ensures Valid()
      ensures Outcome(r, rows, nextId) == Delete(old(rows), old(nextId), id, user)
    {
      DeleteSpec(rows, nextId, id, user);
      var found := FindOwned(rows, id, user);
      if found.None? {
        return Reply(404, None);
      }
      rows := rows[..found.value] + rows[found.value + 1..];
      r := Reply(200, None);
    }
  }
}
