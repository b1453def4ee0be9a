/** The report endpoints: the monthly summary with its top category and
    income breakdown, the CSV export of a date-bounded query, and the data
    the client turns into a PDF. */
module Reports {
  import opened Base
  import opened Calendar
  import opened TransactionModel
  import opened Aggregation
  import Text
  import Insights

  /** `Object.keys(m).reduce((a, b) => (m[a] > m[b] ? a : b), null) || null`:
      null for an empty object, otherwise a key with the largest total, the
      last such key in insertion order. */
  function TopCategory(m: seq<Entry>): (r: Option<Category>)
    ensures r.None? <==> |m| == 0
    ensures r.Some? ==> exists i :: (0 <= i < |m| && m[i].key == r.value
      && (forall j :: 0 <= j < |m| ==> m[j].total <= m[i].total)
      && (forall j :: i < j < |m| ==> m[j].total < m[i].total))
  {
    if |m| == 0 then None else Some(m[TopIndex(m)].key)
  }

  /** The `/monthly` response body. */
  datatype MonthlyReport = MonthlyReport(
    month: int,
    year: int,
    totalIncome: real,
    totalExpenses: real,
    balance: real,
    categoryExpenses: seq<Entry>,
    categoryIncome: seq<Entry>,
    topSpendingCategory: Option<Category>,
    transactionCount: nat)

  /** GET /api/reports/monthly: 400 on an invalid month or year; otherwise the
      figures of the user's transactions in the month's inclusive range. */
  method GetMonthly(s: seq<Transaction>, user: Id, month: Param<int>, year: Param<int>, today: CalDate)
    returns (r: Result<MonthlyReport, int>)
    requires ValidDate(today)
    ensures r.Err? <==> Insights.ResolvePeriod(month, year, today).Err?
    ensures r.Err? ==> r.error == 400
    ensures r.Ok? ==> (r.value.month, r.value.year) == Insights.ResolvePeriod(month, year, today).value
    ensures r.Ok? ==> var tx := Insights.MonthQuery(s, user, r.value.month, r.value.year);
      var summary := Summarize(tx);
      r.value.totalIncome == summary.income && r.value.totalExpenses == summary.expenses
      && r.value.balance == summary.balance
      && r.value.categoryExpenses == summary.categoryExpenses
      && r.value.categoryIncome == CategoryFold(Filter(tx, IsIncome))
      && r.value.topSpendingCategory == TopCategory(summary.categoryExpenses)
      && r.value.transactionCount == |tx|
  {
    var period := Insights.ResolvePeriod(month, year, today);
    if period.Err? {
      return Err(400);
    }
    var (m, y) := period.value;
    var tx := Insights.MonthQuery(s, user, m, y);
    var income := IncomeOf(tx);
    var expenses := ExpensesOf(tx);
    var categoryExpenses := CategoryTotals(Filter(tx, IsExpense));
    var top := TopCategory(categoryExpenses);
    var categoryIncome := CategoryTotals(Filter(tx, IsIncome));
    r := Ok(MonthlyReport(m, y, income, expenses, income - expenses, categoryExpenses, categoryIncome, top, |tx|));
  }

  /** There is no top spending category exactly when the month has no expense. */
  lemma TopCategoryNull(tx: seq<Transaction>)
    ensures TopCategory(Summarize(tx).categoryExpenses).None? <==> forall i :: 0 <= i < |tx| ==> tx[i].kind != Expense
  {
    var ex := Filter(tx, IsExpense);
    assert Summarize(tx).categoryExpenses == CategoryFold(ex);
    if |ex| > 0 {
      CategoryFoldHas(ex, ex[0].category);
      FilterMembers(tx, IsExpense, ex[0]);
    } else {
      forall i | 0 <= i < |tx| ensures tx[i].kind != Expense {
        FilterMembers(tx, IsExpense, tx[i]);
      }
    }
  }

  /** The CSV header line, without its newline. */
  const CsvHeaderLine: string := "Date,Type,Category,Amount,Description"

  const CsvHeader: string := CsvHeaderLine + "\n"

  /** The five fields of a row: date, type, category, amount and the quoted
      description. */
  function CsvFields(t: Transaction, amountText: real -> string): seq<string>
    requires ValidDate(t.date.date)
  {
    [DateText(t.date.date), KindName(t.kind), CategoryName(t.category), amountText(t.amount),
     "\"" + t.description + "\""]
  }

  /** One CSV row: the fields joined by commas. Quotes and commas inside the
      description are not escaped; the number-to-text conversion of the
      amount is the parameter `amountText`. */
  function CsvRow(t: Transaction, amountText: real -> string): string
    requires ValidDate(t.date.date)
  {
    Text.Join(CsvFields(t, amountText), ',')
  }

  function CsvRows(ts: seq<Transaction>, amountText: real -> string): (r: seq<string>)
    requires forall i :: 0 <= i < |ts| ==> ValidDate(ts[i].date.date)
    ensures |r| == |ts|
  {
    seq(|ts|, i requires 0 <= i < |ts| => CsvRow(ts[i], amountText))
  }

  /** The exported file: the header, then the rows joined with newlines and
      no trailing newline. */
  function Csv(ts: seq<Transaction>, amountText: real -> string): (r: string)
    requires forall i :: 0 <= i < |ts| ==> ValidDate(ts[i].date.date)
    ensures |r| >= |CsvHeader| && r[..|CsvHeader|] == CsvHeader
    ensures ts == [] ==> r == CsvHeader
  {
    CsvHeader + Text.Join(CsvRows(ts, amountText), '\n')
  }

  lemma NamesFree(k: Kind, c: Category, x: char)
    requires x == ',' || x == '\n'
    ensures x !in KindName(k) && x !in CategoryName(c)
  {
  }

  /** A row whose description and amount text hold no comma splits back
      into its five fields. */
  lemma CsvRowFields(t: Transaction, amountText: real -> string)
    requires ValidDate(t.date.date)
    requires ',' !in t.description && ',' !in amountText(t.amount)
    ensures Text.Split(CsvRow(t, amountText), ',') == CsvFields(t, amountText)
  {
    var f := CsvFields(t, amountText);
    NamesFree(t.kind, t.category, ',');
    assert ',' !in f[4];
    Text.SplitJoin(f, ',');
  }

  /** Since commas are not escaped, a description holding one comma makes the
      row split into six fields, the description's two halves becoming the
      fifth and sixth. */
  lemma CsvRowCommaInDescription(t: Transaction, amountText: real -> string, a: string, b: string)
    requires ValidDate(t.date.date)
    requires t.description == a + "," + b && ',' !in a && ',' !in b && ',' !in amountText(t.amount)
    ensures Text.Split(CsvRow(t, amountText), ',') ==
      [DateText(t.date.date), KindName(t.kind), CategoryName(t.category), amountText(t.amount),
       "\"" + a, b + "\""]
  {
    var f := CsvFields(t, amountText);
    var q1, q2 := "\"" + a, b + "\"";
    var g := f[..4] + [q1, q2];
    NamesFree(t.kind, t.category, ',');
    assert f[4] == q1 + [','] + q2;
    assert f == f[..4] + [q1 + [','] + q2];
    Text.JoinSplitLast(f[..4], q1, q2, ',');
    Text.SplitJoin(g, ',');
  }

  /** A row holds no newline when its description and amount text hold none. */
  lemma CsvRowOneLine(t: Transaction, amountText: real -> string)
    requires ValidDate(t.date.date)
    requires '\n' !in t.description && '\n' !in amountText(t.amount)
    ensures '\n' !in CsvRow(t, amountText)
  {
    NamesFree(t.kind, t.category, '\n');
    var f := CsvFields(t, amountText);
    assert '\n' !in f[4];
    Text.JoinFree(f, ',', '\n');
  }

  /** The header line holds no newline. */
  lemma HeaderOneLine()
    ensures '\n' !in CsvHeaderLine
  {
    forall i | 0 <= i < |CsvHeaderLine| ensures CsvHeaderLine[i] != '\n' {
    }
  }

  /** The file's lines are the header line and then one line per
      transaction, in order; with no transaction it is the header alone,
      whose newline leaves an empty last line. */
  lemma CsvLines(ts: seq<Transaction>, amountText: real -> string)
    requires forall i :: 0 <= i < |ts| ==> ValidDate(ts[i].date.date)
    requires forall i :: 0 <= i < |ts| ==> '\n' !in ts[i].description && '\n' !in amountText(ts[i].amount)
    ensures Text.Split(Csv(ts, amountText), '\n') ==
      [CsvHeaderLine] + if ts == [] then [""] else CsvRows(ts, amountText)
  {
    var rows := CsvRows(ts, amountText);
    assert Csv(ts, amountText) == CsvHeaderLine + ['\n'] + Text.Join(rows, '\n');
    HeaderOneLine();
    Text.SplitCons(CsvHeaderLine, Text.Join(rows, '\n'), '\n');
    if ts != [] {
      forall i | 0 <= i < |rows| ensures '\n' !in rows[i] {
        CsvRowOneLine(ts[i], amountText);
      }
      Text.SplitJoin(rows, '\n');
    }
  }

  /** The export filter: the user, and each date bound only when it was given. */
  function InBounds(user: Id, start: Option<Moment>, end: Option<Moment>): Transaction -> bool {
    (t: Transaction) => t.user == user
      && (start.Some? ==> MomentLe(start.value, t.date))
      && (end.Some? ==> MomentLe(t.date, end.value))
  }

  /** `Transaction.find(filter).sort({ date: -1 })`. */
  function CsvQuery(s: seq<Transaction>, user: Id, start: Option<Moment>, end: Option<Moment>): seq<Transaction> {
    SortByDateDesc(Filter(s, InBounds(user, start, end)))
  }

  /** The export holds exactly the user's transactions within the given
      bounds, each as often as it is stored, newest first. */
  lemma CsvQuerySpec(s: seq<Transaction>, user: Id, start: Option<Moment>, end: Option<Moment>)
    ensures NewestFirst(CsvQuery(s, user, start, end))
    ensures forall t :: t in CsvQuery(s, user, start, end) <==> t in s && InBounds(user, start, end)(t)
    ensures multiset(CsvQuery(s, user, start, end)) == multiset(Filter(s, InBounds(user, start, end)))
  {
    var f := Filter(s, InBounds(user, start, end));
    SortByDateDescOrdered(f);
    forall t ensures t in CsvQuery(s, user, start, end) <==> t in s && InBounds(user, start, end)(t) {
      FilterMembers(s, InBounds(user, start, end), t);
      assert t in CsvQuery(s, user, start, end) <==> t in multiset(CsvQuery(s, user, start, end));
      assert t in f <==> t in multiset(f);
    }
  }

  /** Every exported record is a stored one, so its date is valid. */
  lemma CsvQueryValid(s: seq<Transaction>, user: Id, start: Option<Moment>, end: Option<Moment>)
    requires forall i :: 0 <= i < |s| ==> ValidMoment(s[i].date)
    ensures forall i :: 0 <= i < |CsvQuery(s, user, start, end)| ==> ValidDate(CsvQuery(s, user, start, end)[i].date.date)
  {
    var q := CsvQuery(s, user, start, end);
    CsvQuerySpec(s, user, start, end);
    forall i | 0 <= i < |q| ensures ValidDate(q[i].date.date) {
      assert q[i] in q;
      var j :| 0 <= j < |s| && s[j] == q[i];
    }
  }

  /** A query parameter after `isISO8601`: its date, if it was given. */
  function Bound(p: Param<Moment>): Option<Moment> {
    if p.Given? then Some(p.value) else None
  }

  /** GET /api/reports/export/csv: 400 when a bound is not an ISO 8601 date,
      otherwise the file for the export query. */
  function ExportCsv(s: seq<Transaction>, user: Id, start: Param<Moment>, end: Param<Moment>,
                     amountText: real -> string): (r: Result<string, int>)
    requires forall i :: 0 <= i < |s| ==> ValidMoment(s[i].date)
    ensures r.Err? <==> start.Malformed? || end.Malformed?
    ensures r.Err? ==> r.error == 400
    ensures r.Ok? ==> forall i :: 0 <= i < |CsvQuery(s, user, Bound(start), Bound(end))| ==>
      ValidDate(CsvQuery(s, user, Bound(start), Bound(end))[i].date.date)
    ensures r.Ok? ==> r.value == Csv(CsvQuery(s, user, Bound(start), Bound(end)), amountText)
  {
    if start.Malformed? || end.Malformed? then Err(400)
    else
      var q := CsvQuery(s, user, Bound(start), Bound(end));
      CsvQueryValid(s, user, Bound(start), Bound(end));
      Ok(Csv(q, amountText))
  }

  /** One transaction of the PDF data. */
  datatype PdfRow = PdfRow(date: Moment, kind: Kind, category: Category, amount: real, description: string)

  function PdfRowOf(t: Transaction): PdfRow {
    PdfRow(t.date, t.kind, t.category, t.amount, t.description)
  }

  /** The `/export/pdf` response body. */
  datatype PdfReport = PdfReport(
    month: int,
    year: int,
    totalIncome: real,
    totalExpenses: real,
    balance: real,
    categoryExpenses: seq<Entry>,
    transactions: seq<PdfRow>)

  /** GET /api/reports/export/pdf: the monthly totals and expense breakdown,
      equal to those of `/monthly` though they are accumulated over the
      date-sorted list (so the breakdown's keys may come in another order),
      and the month's transactions newest first. */
  method GetPdf(s: seq<Transaction>, user: Id, month: Param<int>, year: Param<int>, today: CalDate)
    returns (r: Result<PdfReport, int>)
    requires ValidDate(today)
    ensures r.Err? <==> Insights.ResolvePeriod(month, year, today).Err?
    ensures r.Err? ==> r.error == 400
    ensures r.Ok? ==> (r.value.month, r.value.year) == Insights.ResolvePeriod(month, year, today).value
    ensures r.Ok? ==> var tx := Insights.MonthQuery(s, user, r.value.month, r.value.year);
      var summary := Summarize(tx);
      r.value.totalIncome == summary.income && r.value.totalExpenses == summary.expenses
      && r.value.balance == summary.balance
      && DistinctKeys(r.value.categoryExpenses)
      && (forall c :: Get(r.value.categoryExpenses, c) == Get(summary.categoryExpenses, c))
      && (forall c :: c in KeysOf(r.value.categoryExpenses) <==> c in KeysOf(summary.categoryExpenses))
    ensures r.Ok? ==> var sorted := SortByDateDesc(Insights.MonthQuery(s, user, r.value.month, r.value.year));
      |r.value.transactions| == |sorted|
      && forall i :: 0 <= i < |sorted| ==> r.value.transactions[i] == PdfRowOf(sorted[i])
  {
    var period := Insights.ResolvePeriod(month, year, today);
    if period.Err? {
      return Err(400);
    }
    var (m, y) := period.value;
    var tx := Insights.MonthQuery(s, user, m, y);
    var sorted := SortByDateDesc(tx);
    var income := IncomeOf(sorted);
    var expenses := ExpensesOf(sorted);
    var categoryExpenses := CategoryTotals(Filter(sorted, IsExpense));
    SortedSameFigures(tx);
    var rows := seq(|sorted|, i requires 0 <= i < |sorted| => PdfRowOf(sorted[i]));
    r := Ok(PdfReport(m, y, income, expenses, income - expenses, categoryExpenses, rows));
  }

  /** Sorting the month's transactions changes none of its figures. */
  lemma SortedSameFigures(tx: seq<Transaction>)
    ensures IncomeOf(SortByDateDesc(tx)) == IncomeOf(tx)
    ensures ExpensesOf(SortByDateDesc(tx)) == ExpensesOf(tx)
    ensures DistinctKeys(CategoryFold(Filter(SortByDateDesc(tx), IsExpense)))
    ensures forall c :: (Get(CategoryFold(Filter(SortByDateDesc(tx), IsExpense)), c)
      == Get(CategoryFold(Filter(tx, IsExpense)), c))
    ensures forall c :: (c in KeysOf(CategoryFold(Filter(SortByDateDesc(tx), IsExpense)))
      <==> c in KeysOf(CategoryFold(Filter(tx, IsExpense))))
  {
    var sorted := SortByDateDesc(tx);
    FilterPermutation(sorted, tx, IsIncome);
    FilterPermutation(sorted, tx, IsExpense);
    SumPermutation(Filter(sorted, IsIncome), Filter(tx, IsIncome), Amount);
    SumPermutation(Filter(sorted, IsExpense), Filter(tx, IsExpense), Amount);
    CategoryFoldPermutation(Filter(sorted, IsExpense), Filter(tx, IsExpense));
    CategoryFoldKeys(Filter(sorted, IsExpense));
  }
}
