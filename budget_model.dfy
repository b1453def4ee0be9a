/** The budget schema: eight spending categories, a non-negative amount, a
    weekly or monthly period, a month in 1..12, and at most one budget per
    (user, category, period, month, year). */
module BudgetModel {
  import opened Base
  import TM = TransactionModel

  datatype BudgetCategory = Food | Travel | Bills | Shopping | Entertainment | Health | Education | Other

  /** The budget categories are transaction categories. */
  function ToCategory(b: BudgetCategory): (c: TM.Category)
    ensures c != TM.Salary && c != TM.Freelance && c != TM.Investment && c != TM.Debt
    ensures TM.ParseCategory(TM.CategoryName(c)) == Some(c)
  {
    match b
    case Food => TM.Food
    case Travel => TM.Travel
    case Bills => TM.Bills
    case Shopping => TM.Shopping
    case Entertainment => TM.Entertainment
    case Health => TM.Health
    case Education => TM.Education
    case Other => TM.Other
  }

  /** The budget category that is transaction category c, if any: the
      budget enum is exactly the transaction enum without Salary, Freelance,
      Investment and Debt. */
  function FromCategory(c: TM.Category): (r: Option<BudgetCategory>)
    ensures r.Some? <==> !(c == TM.Salary || c == TM.Freelance || c == TM.Investment || c == TM.Debt)
    ensures r.Some? ==> ToCategory(r.value) == c
  {
    match c
    case Food => Some(Food)
    case Travel => Some(Travel)
    case Bills => Some(Bills)
    case Shopping => Some(Shopping)
    case Entertainment => Some(Entertainment)
    case Health => Some(Health)
    case Education => Some(Education)
    case Other => Some(Other)
    case _ => None
  }

  /** Distinct budget categories are distinct transaction categories. */
  lemma ToCategoryInjective(b: BudgetCategory, b': BudgetCategory)
    ensures ToCategory(b) == ToCategory(b') ==> b == b'
  {
  }

  /** The budget category enum check. */
  function ParseBudgetCategory(s: string): (r: Option<BudgetCategory>)
    ensures r.Some? ==> TM.CategoryName(ToCategory(r.value)) == s
    ensures r.None? <==> s !in ["Food", "Travel", "Bills", "Shopping", "Entertainment", "Health", "Education", "Other"]
  {
    if s == "Food" then Some(Food)
    else if s == "Travel" then Some(Travel)
    else if s == "Bills" then Some(Bills)
    else if s == "Shopping" then Some(Shopping)
    else if s == "Entertainment" then Some(Entertainment)
    else if s == "Health" then Some(Health)
    else if s == "Education" then Some(Education)
    else if s == "Other" then Some(Other)
    else None
  }

  datatype Period = Weekly | Monthly

  /** The period enum check; `monthly` is the default. */
  function ParsePeriod(s: string): (r: Option<Period>)
    ensures r == Some(Weekly) <==> s == "weekly"
    ensures r == Some(Monthly) <==> s == "monthly"
    ensures r.None? <==> s != "weekly" && s != "monthly"
  {
    if s == "weekly" then Some(Weekly) else if s == "monthly" then Some(Monthly) else None
  }

  datatype Budget = Budget(
    id: TM.Id,
    user: TM.Id,
    category: BudgetCategory,
    amount: real,
    period: Period,
    month: int,
    year: int)

  /** The field constraints: an amount of 0 is an allowed ceiling. */
  predicate ValidBudget(b: Budget) {
    b.amount >= 0.0 && 1 <= b.month <= 12
  }

  /** The fields of the unique index. */
  datatype BudgetKey = BudgetKey(user: TM.Id, category: BudgetCategory, period: Period, month: int, year: int)

  function KeyOf(b: Budget): BudgetKey {
    BudgetKey(b.user, b.category, b.period, b.month, b.year)
  }

  /** What the unique index guarantees of the budget collection, with the
      distinct object ids every collection has. */
  predicate UniqueKeys(rows: seq<Budget>) {
    forall i, j :: 0 <= i < j < |rows| ==> KeyOf(rows[i]) != KeyOf(rows[j]) && rows[i].id != rows[j].id
  }

  /** The first row with key k, which under UniqueKeys is the only one. */
  function FindKey(rows: seq<Budget>, k: BudgetKey): (r: Option<nat>)
    ensures r.Some? ==> r.value < |rows| && KeyOf(rows[r.value]) == k
    ensures r.None? <==> forall i :: 0 <= i < |rows| ==> KeyOf(rows[i]) != k
    ensures r.Some? && UniqueKeys(rows) ==> forall i :: 0 <= i < |rows| && i != r.value ==> KeyOf(rows[i]) != k
    decreases |rows|
  {
    if |rows| == 0 then None
    else if KeyOf(rows[0]) == k then Some(0)
    else
      match FindKey(rows[1..], k)
      case None => None
      case Some(i) => Some(i + 1)
  }
}
