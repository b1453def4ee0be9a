/** Aggregations of a month of transactions shared by the insight, report
    and dashboard computations: sums by type, the per-category totals object
    (its keys kept in insertion order), and the top-category reduction. */
module Aggregation {
  import opened Base
  import opened TransactionModel

  /** One key of a `{ [category]: total }` object. */
  datatype Entry = Entry(key: Category, total: real)

  function KeysOf(m: seq<Entry>): (r: seq<Category>)
    ensures |r| == |m| && forall i :: 0 <= i < |m| ==> r[i] == m[i].key
    decreases |m|
  {
    if |m| == 0 then [] else [m[0].key] + KeysOf(m[1..])
  }

  predicate DistinctKeys(m: seq<Entry>) {
    forall i, j :: 0 <= i < j < |m| ==> m[i].key != m[j].key
  }

  /** `m[c] || 0`: the total under c, or 0 when c is not a key. */
  function Get(m: seq<Entry>, c: Category): real
    decreases |m|
  {
    if |m| == 0 then 0.0 else if m[0].key == c then m[0].total else Get(m[1..], c)
  }

  /** With distinct keys, the total under a key is the one stored with it. */
  lemma {:induction false} GetAt(m: seq<Entry>, i: nat)
    requires DistinctKeys(m) && i < |m|
    ensures Get(m, m[i].key) == m[i].total
    decreases |m|
  {
    if i > 0 { GetAt(m[1..], i - 1); }
  }

  function EntryTotal(e: Entry): real { e.total }

  /** `m[c] = (m[c] || 0) + a`: an existing key is updated where it stands, a
      new key goes last. */
  function AddTo(m: seq<Entry>, c: Category, a: real): seq<Entry>
    decreases |m|
  {
    if |m| == 0 then [Entry(c, a)]
    else if m[0].key == c then [Entry(c, m[0].total + a)] + m[1..]
    else [m[0]] + AddTo(m[1..], c, a)
  }

  /** Adding a under c raises the total under c by a and leaves every other key's total alone. */
  lemma {:induction false} AddToGet(m: seq<Entry>, c: Category, a: real, d: Category)
    ensures Get(AddTo(m, c, a), d) == Get(m, d) + (if d == c then a else 0.0)
    decreases |m|
  {
    if |m| > 0 && m[0].key != c { AddToGet(m[1..], c, a, d); }
  }

  /** Adding under an existing key keeps the key order; a new key goes last. */
  lemma {:induction false} AddToKeys(m: seq<Entry>, c: Category, a: real)
    ensures KeysOf(AddTo(m, c, a)) == if c in KeysOf(m) then KeysOf(m) else KeysOf(m) + [c]
    decreases |m|
  {
    if |m| > 0 {
      assert KeysOf(m) == [m[0].key] + KeysOf(m[1..]);
      if m[0].key == c {
        assert KeysOf(AddTo(m, c, a)) == [c] + KeysOf(m[1..]);
      } else {
        AddToKeys(m[1..], c, a);
        assert KeysOf(AddTo(m, c, a)) == [m[0].key] + KeysOf(AddTo(m[1..], c, a));
      }
    }
  }

  /** Adding to a key keeps the keys distinct. */
  lemma AddToDistinct(m: seq<Entry>, c: Category, a: real)
    requires DistinctKeys(m)
    ensures DistinctKeys(AddTo(m, c, a))
  {
    AddToKeys(m, c, a);
    var r := AddTo(m, c, a);
    var k := KeysOf(r);
    assert forall i :: 0 <= i < |r| ==> r[i].key == k[i];
  }

  /** Adding a to a key adds a to the sum of the totals. */
  lemma {:induction false} AddToSum(m: seq<Entry>, c: Category, a: real)
    ensures Sum(AddTo(m, c, a), EntryTotal) == Sum(m, EntryTotal) + a
    decreases |m|
  {
    if |m| == 0 {
      assert [Entry(c, a)][..0] == [];
    } else {
      var head := if m[0].key == c then Entry(c, m[0].total + a) else m[0];
      var rest := if m[0].key == c then m[1..] else AddTo(m[1..], c, a);
      if m[0].key != c { AddToSum(m[1..], c, a); }
      SumAppend([m[0]], m[1..], EntryTotal);
      SumAppend([head], rest, EntryTotal);
      assert [m[0]] + m[1..] == m;
      assert [m[0]][..0] == [] && [head][..0] == [];
    }
  }

  /** The totals object built by the `forEach` over s: one key per category
      present, in order of first appearance. */
  function CategoryFold(s: seq<Transaction>): (m: seq<Entry>)
    decreases |s|
  {
    if |s| == 0 then [] else AddTo(CategoryFold(s[..|s| - 1]), s[|s| - 1].category, s[|s| - 1].amount)
  }

  /** The `forEach` loop that fills the totals object. */
  method CategoryTotals(s: seq<Transaction>) returns (m: seq<Entry>)
    ensures m == CategoryFold(s)
  {
    m := [];
    var i := 0;
    while i < |s|
      invariant 0 <= i <= |s|
      invariant m == CategoryFold(s[..i])
    {
      assert s[..i + 1][..i] == s[..i];
      m := AddTo(m, s[i].category, s[i].amount);
      i := i + 1;
    }
    assert s[..i] == s;
  }

  function Amount(t: Transaction): real { t.amount }

  predicate IsIncome(t: Transaction) { t.kind == Income }
  predicate IsExpense(t: Transaction) { t.kind == Expense }

  /** `.filter(t => t.type === 'income').reduce((sum, t) => sum + t.amount, 0)`. */
  function IncomeOf(s: seq<Transaction>): real {
    Sum(Filter(s, IsIncome), Amount)
  }

  function ExpensesOf(s: seq<Transaction>): real {
    Sum(Filter(s, IsExpense), Amount)
  }

  /** The categories of s with duplicates dropped, in order of first appearance. */
  function FirstAppearances(s: seq<Transaction>): (r: seq<Category>)
    decreases |s|
  {
    if |s| == 0 then []
    else
      var d := FirstAppearances(s[..|s| - 1]);
      if s[|s| - 1].category in d then d else d + [s[|s| - 1].category]
  }

  /** The totals object has distinct keys, one per category present, in
      order of first appearance. */
  lemma {:induction false} CategoryFoldKeys(s: seq<Transaction>)
    ensures DistinctKeys(CategoryFold(s))
    ensures KeysOf(CategoryFold(s)) == FirstAppearances(s)
    decreases |s|
  {
    if |s| > 0 {
      CategoryFoldKeys(s[..|s| - 1]);
      AddToKeys(CategoryFold(s[..|s| - 1]), s[|s| - 1].category, s[|s| - 1].amount);
      AddToDistinct(CategoryFold(s[..|s| - 1]), s[|s| - 1].category, s[|s| - 1].amount);
    }
  }

  /** The total under c is the sum of the amounts of the transactions in
      category c. */
  lemma {:induction false} CategoryFoldGet(s: seq<Transaction>, c: Category)
    ensures Get(CategoryFold(s), c) == Sum(Filter(s, InCategory(c)), Amount)
    decreases |s|
  {
    if |s| > 0 {
      var init, x := s[..|s| - 1], s[|s| - 1];
      CategoryFoldGet(init, c);
      AddToGet(CategoryFold(init), x.category, x.amount, c);
      var f := Filter(init, InCategory(c));
      assert Filter(s, InCategory(c)) == f + (if InCategory(c)(x) then [x] else []);
      if x.category == c {
        assert (f + [x])[..|f|] == f;
        assert Sum(f + [x], Amount) == Sum(f, Amount) + x.amount;
      } else {
        assert Filter(s, InCategory(c)) == f;
      }
    }
  }

  /** The test `t.category === c`. */
  function InCategory(c: Category): Transaction -> bool {
    (t: Transaction) => t.category == c
  }

  /** The totals sum to the sum of all amounts: the object partitions them. */
  lemma {:induction false} CategoryFoldSum(s: seq<Transaction>)
    ensures Sum(CategoryFold(s), EntryTotal) == Sum(s, Amount)
    decreases |s|
  {
    if |s| > 0 {
      CategoryFoldSum(s[..|s| - 1]);
      AddToSum(CategoryFold(s[..|s| - 1]), s[|s| - 1].category, s[|s| - 1].amount);
      assert s[..|s| - 1] + [s[|s| - 1]] == s;
    }
  }

  /** A category is a key exactly when some transaction has it. */
  lemma {:induction false} CategoryFoldHas(s: seq<Transaction>, c: Category)
    ensures c in KeysOf(CategoryFold(s)) <==> exists i :: 0 <= i < |s| && s[i].category == c
    decreases |s|
  {
    if |s| > 0 {
      CategoryFoldHas(s[..|s| - 1], c);
      AddToKeys(CategoryFold(s[..|s| - 1]), s[|s| - 1].category, s[|s| - 1].amount);
      if exists i :: 0 <= i < |s| && s[i].category == c {
        var i :| 0 <= i < |s| && s[i].category == c;
        if i < |s| - 1 { assert s[..|s| - 1][i] == s[i]; }
      }
    }
  }

  /** `keys.reduce((a, b) => (m[a] > m[b] ? a : b), null)` over a non-empty
      object: the index of the key it returns. The accumulator survives only
      when strictly greater, so the LAST maximal key wins. */
  function TopIndex(m: seq<Entry>): (r: nat)
    requires |m| > 0
    ensures r < |m|
    ensures forall i :: 0 <= i < |m| ==> m[i].total <= m[r].total
    ensures forall i :: r < i < |m| ==> m[i].total < m[r].total
    decreases |m|
  {
    if |m| == 1 then 0
    else
      var a := TopIndex(m[..|m| - 1]);
      assert m[..|m| - 1][a] == m[a];
      if m[a].total > m[|m| - 1].total then a else |m| - 1
  }

  /** The test `t.type === 'expense' && t.category === c`. */
  function ExpenseIn(c: Category): Transaction -> bool {
    (t: Transaction) => t.kind == Expense && t.category == c
  }

  /** The test `t.type === 'income' && t.category === c`. */
  function IncomeIn(c: Category): Transaction -> bool {
    (t: Transaction) => t.kind == Income && t.category == c
  }

  /** The income breakdown: distinct keys, one total per income category,
      each the sum of that category's income, all of them summing to the income. */
  lemma IncomeBreakdown(s: seq<Transaction>)
    ensures DistinctKeys(CategoryFold(Filter(s, IsIncome)))
    ensures Sum(CategoryFold(Filter(s, IsIncome)), EntryTotal) == IncomeOf(s)
    ensures forall c :: Get(CategoryFold(Filter(s, IsIncome)), c) == Sum(Filter(s, IncomeIn(c)), Amount)
  {
    var inc := Filter(s, IsIncome);
    CategoryFoldSum(inc);
    CategoryFoldKeys(inc);
    forall c ensures Get(CategoryFold(inc), c) == Sum(Filter(s, IncomeIn(c)), Amount) {
      CategoryFoldGet(inc, c);
      FilterFilter(s, IsIncome, InCategory(c), IncomeIn(c));
    }
  }

  /** One month reduced to totals, as the insight and report routes build it.
      The month and year the routes echo beside these figures are their own
      inputs; the response datatypes of those routes carry them. */
  datatype Summary = Summary(income: real, expenses: real, balance: real, categoryExpenses: seq<Entry>)

  /** The summary of a month's transactions. */
  function Summarize(s: seq<Transaction>): (r: Summary)
    ensures r.balance == r.income - r.expenses
    ensures r.income == IncomeOf(s) && r.expenses == ExpensesOf(s)
    ensures Sum(r.categoryExpenses, EntryTotal) == r.expenses
    ensures DistinctKeys(r.categoryExpenses)
    ensures forall c :: Get(r.categoryExpenses, c) == Sum(Filter(s, ExpenseIn(c)), Amount)
    ensures s == [] ==> r == Summary(0.0, 0.0, 0.0, [])
  {
    var ex := Filter(s, IsExpense);
    CategoryFoldSum(ex);
    CategoryFoldKeys(ex);
    forall c ensures Get(CategoryFold(ex), c) == Sum(Filter(s, ExpenseIn(c)), Amount) {
      CategoryFoldGet(ex, c);
      FilterFilter(s, IsExpense, InCategory(c), ExpenseIn(c));
    }
    var inc := IncomeOf(s);
    var exp := ExpensesOf(s);
    Summary(inc, exp, inc - exp, CategoryFold(ex))
  }

  /** Filtering by p and then by q is filtering by their conjunction. */
  lemma {:induction false} FilterFilter<T>(s: seq<T>, p: T -> bool, q: T -> bool, pq: T -> bool)
    requires forall x :: pq(x) == (p(x) && q(x))
    ensures Filter(Filter(s, p), q) == Filter(s, pq)
    decreases |s|
  {
    if |s| > 0 {
      var init, x := s[..|s| - 1], s[|s| - 1];
      FilterFilter(init, p, q, pq);
      var fp := Filter(init, p);
      assert Filter(s, pq) == Filter(init, pq) + (if pq(x) then [x] else []);
      if p(x) {
        var y := fp + [x];
        assert Filter(s, p) == y;
        assert y[..|y| - 1] == fp && y[|y| - 1] == x;
        assert Filter(y, q) == Filter(fp, q) + (if q(x) then [x] else []);
      } else {
        assert Filter(s, p) == fp;
      }
    }
  }

  /** Reordering the transactions reorders the totals object's keys but
      changes neither its key set nor any total. */
  lemma CategoryFoldPermutation(s: seq<Transaction>, t: seq<Transaction>)
    requires multiset(s) == multiset(t)
    ensures forall c :: Get(CategoryFold(s), c) == Get(CategoryFold(t), c)
    ensures forall c :: c in KeysOf(CategoryFold(s)) <==> c in KeysOf(CategoryFold(t))
  {
    forall c ensures Get(CategoryFold(s), c) == Get(CategoryFold(t), c) {
      CategoryFoldGet(s, c);
      CategoryFoldGet(t, c);
      FilterPermutation(s, t, InCategory(c));
      SumPermutation(Filter(s, InCategory(c)), Filter(t, InCategory(c)), Amount);
    }
    forall c ensures c in KeysOf(CategoryFold(s)) <==> c in KeysOf(CategoryFold(t)) {
      CategoryFoldHas(s, c);
      CategoryFoldHas(t, c);
      if exists i :: 0 <= i < |s| && s[i].category == c {
        var i :| 0 <= i < |s| && s[i].category == c;
        assert s[i] in multiset(t);
        var j :| 0 <= j < |t| && t[j] == s[i];
      }
      if exists j :: 0 <= j < |t| && t[j].category == c {
        var j :| 0 <= j < |t| && t[j].category == c;
        assert t[j] in multiset(s);
        var i :| 0 <= i < |s| && s[i] == t[j];
      }
    }
  }
}
