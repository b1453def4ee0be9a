/** The transaction schema: its two-valued type, twelve categories, the
    non-negative amount, the trimmed description and the defaults that
    document validation applies when a record is created or saved. */
module TransactionModel {
  import opened Base
  import opened Calendar
  import Text

  /** Database object ids. */
  type Id = nat

  datatype Kind = Income | Expense

  function KindName(k: Kind): string {
    match k
    case Income => "income"
    case Expense => "expense"
  }

  /** The `enum: ['income', 'expense']` check: the type named s, if any. */
  function ParseKind(s: string): (r: Option<Kind>)
    ensures r.Some? ==> KindName(r.value) == s
    ensures r.None? ==> forall k: Kind :: KindName(k) != s
  {
    if s == "income" then Some(Income)
    else if s == "expense" then Some(Expense)
    else None
  }

  datatype Category =
    | Food | Travel | Bills | Shopping | Entertainment | Health
    | Education | Salary | Freelance | Investment | Debt | Other

  /** The twelve category names, in declaration order. */
  const CategoryNames: seq<string> := [
    "Food", "Travel", "Bills", "Shopping", "Entertainment", "Health",
    "Education", "Salary", "Freelance", "Investment", "Debt", "Other"
  ]

  function CategoryName(c: Category): (r: string)
    ensures r in CategoryNames
  {
    match c
    case Food => "Food"
    case Travel => "Travel"
    case Bills => "Bills"
    case Shopping => "Shopping"
    case Entertainment => "Entertainment"
    case Health => "Health"
    case Education => "Education"
    case Salary => "Salary"
    case Freelance => "Freelance"
    case Investment => "Investment"
    case Debt => "Debt"
    case Other => "Other"
  }

  /** The category enum check: the category named s, if s is one of the twelve. */
  function ParseCategory(s: string): (r: Option<Category>)
    ensures r.Some? ==> CategoryName(r.value) == s
    ensures r.None? <==> s !in CategoryNames
  {
    if s == "Food" then Some(Food)
    else if s == "Travel" then Some(Travel)
    else if s == "Bills" then Some(Bills)
    else if s == "Shopping" then Some(Shopping)
    else if s == "Entertainment" then Some(Entertainment)
    else if s == "Health" then Some(Health)
    else if s == "Education" then Some(Education)
    else if s == "Salary" then Some(Salary)
    else if s == "Freelance" then Some(Freelance)
    else if s == "Investment" then Some(Investment)
    else if s == "Debt" then Some(Debt)
    else if s == "Other" then Some(Other)
    else None
  }

  /** Names identify categories: the enum's names are pairwise distinct. */
  lemma CategoryNameInjective(c: Category, d: Category)
    ensures CategoryName(c) == CategoryName(d) ==> c == d
  {
  }

  /** A stored transaction. The direction of money is carried by `kind`,
      never by the sign of `amount`. */
  datatype Transaction = Transaction(
    id: Id,
    user: Id,
    kind: Kind,
    amount: real,
    category: Category,
    description: string,
    date: Moment)

  /** What the schema guarantees of every stored record. */
  predicate ValidTransaction(t: Transaction) {
    t.amount >= 0.0 && Text.Trim(t.description) == t.description && ValidMoment(t.date)
  }

  /** The fields handed to the schema, as the caller supplied them. */
  datatype Draft = Draft(
    user: Option<Id>,
    kind: Option<string>,
    amount: Option<real>,
    category: Option<string>,
    description: Option<string>,
    date: Option<Moment>)

  /** The paths a validation error can name. */
  datatype FieldName = UserField | TypeField | AmountField | CategoryField

  /** The paths of d that fail `required`, `enum` or `min`. An empty string
      fails `required`. */
  function Failures(d: Draft): set<FieldName> {
    (if d.user.None? then {UserField} else {})
    + (if d.kind.None? || ParseKind(d.kind.value).None? then {TypeField} else {})
    + (if d.amount.None? || d.amount.value < 0.0 then {AmountField} else {})
    + (if d.category.None? || ParseCategory(d.category.value).None? then {CategoryField} else {})
  }

  /** Casting, defaulting and validating a draft, as document creation does:
      the description defaults to '' and is trimmed, the date defaults to
      `now`, and any failing path rejects the whole document. */
  function Validate(d: Draft, id: Id, now: Moment): (r: Result<Transaction, set<FieldName>>)
    requires ValidMoment(now)
    requires d.date.Some? ==> ValidMoment(d.date.value)
    ensures r.Err? <==> Failures(d) != {}
    ensures r.Err? ==> r.error == Failures(d)
    ensures r.Ok? ==> ValidTransaction(r.value) && r.value.id == id
    ensures r.Ok? ==> Some(r.value.user) == d.user && Some(KindName(r.value.kind)) == d.kind
    ensures r.Ok? ==> Some(r.value.amount) == d.amount
    ensures r.Ok? ==> Some(CategoryName(r.value.category)) == d.category
    ensures r.Ok? ==> r.value.description == Text.Trim(d.description.GetOr(""))
    ensures r.Ok? ==> r.value.date == d.date.GetOr(now)
  {
    if Failures(d) != {} then Err(Failures(d))
    else
      var desc := Text.Trim(d.description.GetOr(""));
      TrimIdempotent(d.description.GetOr(""));
      Ok(Transaction(id, d.user.value, ParseKind(d.kind.value).value, d.amount.value,
        ParseCategory(d.category.value).value, desc, d.date.GetOr(now)))
  }

  /** Trimming twice is trimming once, so the stored description is a fixed point. */
  lemma TrimIdempotent(s: string)
    ensures Text.Trim(Text.Trim(s)) == Text.Trim(s)
  {
    var t := Text.Trim(s);
    Text.TrimSpec(t);
    Text.TrimSpec(s);
    if |t| > 0 {
      assert Text.TrimStart(t) == t;
      assert Text.TrimEnd(t) == t;
    }
  }

  /** A stored record read back as a draft validates to itself. */
  lemma ValidateStored(t: Transaction, now: Moment)
    requires ValidTransaction(t) && ValidMoment(now)
    ensures Validate(Draft(Some(t.user), Some(KindName(t.kind)), Some(t.amount),
      Some(CategoryName(t.category)), Some(t.description), Some(t.date)), t.id, now) == Ok(t)
  {
    var d := Draft(Some(t.user), Some(KindName(t.kind)), Some(t.amount),
      Some(CategoryName(t.category)), Some(t.description), Some(t.date));
    assert ParseKind(KindName(t.kind)) == Some(t.kind) by {
      var k := ParseKind(KindName(t.kind));
      assert k.Some?;
    }
    assert ParseCategory(CategoryName(t.category)) == Some(t.category) by {
      var c := ParseCategory(CategoryName(t.category));
      assert c.Some?;
      CategoryNameInjective(c.value, t.category);
    }
    assert Failures(d) == {};
  }

  /** Sorting by date, newest first (`sort({ date: -1 })`); records with equal
      dates keep their relative order. */
  function SortByDateDesc(s: seq<Transaction>): (r: seq<Transaction>)
    ensures multiset(r) == multiset(s)
    decreases |s|
  {
    if |s| == 0 then []
    else
      assert s == [s[0]] + s[1..];
      InsertByDate(s[0], SortByDateDesc(s[1..]))
  }

  predicate NewestFirst(s: seq<Transaction>) {
    forall i, j :: 0 <= i < j < |s| ==> MomentLe(s[j].date, s[i].date)
  }

  /** Places t before the first record that is not newer than it. */
  function InsertByDate(t: Transaction, s: seq<Transaction>): (r: seq<Transaction>)
    ensures multiset(r) == multiset(s) + multiset{t}
    decreases |s|
  {
    if |s| == 0 then [t]
    else if MomentLe(s[0].date, t.date) then [t] + s
    else
      assert s == [s[0]] + s[1..];
      [s[0]] + InsertByDate(t, s[1..])
  }

  /** The sort's output is ordered newest first. */
  lemma {:induction false} SortByDateDescOrdered(s: seq<Transaction>)
    ensures NewestFirst(SortByDateDesc(s))
    decreases |s|
  {
    if |s| > 0 {
      SortByDateDescOrdered(s[1..]);
      InsertByDateOrdered(s[0], SortByDateDesc(s[1..]));
    }
  }

  /** Inserting into a newest-first list keeps it newest first, and the head
      of the result is either t or the old head. */
  lemma {:induction false} InsertByDateOrdered(t: Transaction, s: seq<Transaction>)
    requires NewestFirst(s)
    ensures NewestFirst(InsertByDate(t, s))
    ensures |s| > 0 ==> InsertByDate(t, s)[0] in {t, s[0]}
    decreases |s|
  {
    var r := InsertByDate(t, s);
    if |s| == 0 {
    } else if MomentLe(s[0].date, t.date) {
      forall i, j | 0 <= i < j < |r| ensures MomentLe(r[j].date, r[i].date) {
        if i == 0 && j > 1 { MomentLeTrans(s[j - 1].date, s[0].date, t.date); }
      }
    } else {
      var rest := InsertByDate(t, s[1..]);
      InsertByDateOrdered(t, s[1..]);
      MomentLeTotal(s[0].date, t.date);
      assert forall j :: 0 <= j < |rest| ==> MomentLe(rest[j].date, s[0].date) by {
        forall j | 0 <= j < |rest| ensures MomentLe(rest[j].date, s[0].date) {
          if |s| > 1 {
            assert rest[0] in {t, s[1]};
            if j > 0 { MomentLeTrans(rest[j].date, rest[0].date, s[0].date); }
          }
        }
      }
      assert r == [s[0]] + rest;
    }
  }
}
