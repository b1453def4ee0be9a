/** The smart-suggestion list: an income rule, one tip per heavy spending
    category, and a "balanced" message when nothing else applies. */
module Suggestions {
  import opened Base
  import TM = TransactionModel
  import Agg = Aggregation

  datatype Suggestion =
    | Overspending
    | SavingPraise
    | CategoryTip(category: TM.Category, percentage: Num, saving: int)
    | Balanced

  /** The income rule: a warning above 80% spending, otherwise praise for
      saving more than 30%, otherwise nothing. */
  function IncomeRule(income: real, expenses: real): seq<Suggestion> {
    if expenses > income * 0.8 then [Overspending]
    else if income - expenses > income * 0.3 then [SavingPraise]
    else []
  }

  /** `(amount / expenses) * 100` as JavaScript computes it. */
  function Share(amount: real, expenses: real): Num {
    Scale(Div(amount, expenses), 100.0)
  }

  /** A category's share is above 25%. */
  predicate Fires(expenses: real, e: Agg.Entry) {
    Gt(Share(e.total, expenses), 25.0)
  }

  function FiresFn(expenses: real): Agg.Entry -> bool {
    (e: Agg.Entry) => Fires(expenses, e)
  }

  /** The tip for a category: its share and a tenth of its amount, rounded. */
  function Tip(expenses: real, e: Agg.Entry): Suggestion {
    CategoryTip(e.key, Share(e.total, expenses), Round(e.total * 0.1))
  }

  /** The tips, in the key order of the category object. */
  function Tips(expenses: real, cats: seq<Agg.Entry>): seq<Suggestion>
    decreases |cats|
  {
    if |cats| == 0 then []
    else Tips(expenses, cats[..|cats| - 1]) + (if Fires(expenses, cats[|cats| - 1]) then [Tip(expenses, cats[|cats| - 1])] else [])
  }

  /** The list the component renders. */
  function SuggestionsOf(income: real, expenses: real, cats: seq<Agg.Entry>): seq<Suggestion> {
    var s := IncomeRule(income, expenses) + Tips(expenses, cats);
    if |s| == 0 then [Balanced] else s
  }

  /** The component's list, built by pushes as the source does. */
  method Build(income: real, expenses: real, cats: seq<Agg.Entry>) returns (suggestions: seq<Suggestion>)
    ensures suggestions == SuggestionsOf(income, expenses, cats)
  {
    suggestions := [];
    if expenses > income * 0.8 {
      suggestions := suggestions + [Overspending];
    } else if income - expenses > income * 0.3 {
      suggestions := suggestions + [SavingPraise];
    }
    var i := 0;
    while i < |cats|
      invariant 0 <= i <= |cats|
      invariant suggestions == IncomeRule(income, expenses) + Tips(expenses, cats[..i])
    {
      var percentage := Share(cats[i].total, expenses);
      if Gt(percentage, 25.0) {
        suggestions := suggestions + [CategoryTip(cats[i].key, percentage, Round(cats[i].total * 0.1))];
      }
      assert cats[..i + 1][..i] == cats[..i];
      i := i + 1;
    }
    assert cats[..|cats|] == cats;
    if |suggestions| == 0 {
      suggestions := suggestions + [Balanced];
    }
  }

  /** One tip per category above 25%, in key order, each carrying a tenth of
      its amount rounded to the nearest whole rupee. */
  lemma {:induction false} TipsSpec(expenses: real, cats: seq<Agg.Entry>)
    ensures |Tips(expenses, cats)| == |Filter(cats, FiresFn(expenses))|
    ensures forall k :: 0 <= k < |Tips(expenses, cats)| ==>
      Tips(expenses, cats)[k] == Tip(expenses, Filter(cats, FiresFn(expenses))[k])
    ensures forall k :: 0 <= k < |Tips(expenses, cats)| ==>
      var t := Tips(expenses, cats)[k];
      t.CategoryTip? && t.saving as real - 0.5 <= Filter(cats, FiresFn(expenses))[k].total * 0.1 < t.saving as real + 0.5
    decreases |cats|
  {
    if |cats| > 0 {
      TipsSpec(expenses, cats[..|cats| - 1]);
    }
  }

  /** With positive expenses a category fires exactly above a quarter of
      them; with none, exactly when its amount is positive (x/0 is Infinity,
      0/0 is NaN). */
  lemma FiresSpec(expenses: real, e: Agg.Entry)
    ensures expenses > 0.0 ==> (Fires(expenses, e) <==> e.total > 0.25 * expenses)
    ensures expenses == 0.0 ==> (Fires(expenses, e) <==> e.total > 0.0)
  {
    if expenses > 0.0 {
      var v := e.total / expenses;
      assert v * expenses == e.total;
      assert (v - 0.25) * expenses == e.total - 0.25 * expenses;
      if v > 0.25 {
        MulLt(0.25, v, expenses);
      } else {
        MulLe(v, 0.25, expenses);
      }
    }
  }

  /** The income rule gives a warning or a praise, never both, and the list
      is never empty: the balanced message appears exactly when nothing else
      does, and then alone. */
  lemma SuggestionsSpec(income: real, expenses: real, cats: seq<Agg.Entry>)
    ensures var r := SuggestionsOf(income, expenses, cats);
      |r| >= 1
      && (Overspending in r <==> expenses > income * 0.8)
      && (SavingPraise in r <==> !(expenses > income * 0.8) && income - expenses > income * 0.3)
      && !(Overspending in r && SavingPraise in r)
      && (Balanced in r <==> r == [Balanced])
      && (r == [Balanced] <==> IncomeRule(income, expenses) == [] && |Filter(cats, FiresFn(expenses))| == 0)
      && (r != [Balanced] ==> r == IncomeRule(income, expenses) + Tips(expenses, cats))
  {
    TipsSpec(expenses, cats);
    var t := Tips(expenses, cats);
    assert forall k :: 0 <= k < |t| ==> t[k].CategoryTip?;
    var s := IncomeRule(income, expenses) + t;
    assert forall k :: 0 <= k < |s| ==> !s[k].Balanced?;
    if |s| > 0 {
      assert Balanced !in s;
      assert Overspending in s <==> expenses > income * 0.8;
      assert SavingPraise in s <==> !(expenses > income * 0.8) && income - expenses > income * 0.3;
    }
  }

  /** Four quarters of a non-negative amount make up at least the amount. */
  lemma QuarterCount(n: nat, e: real)
    requires e >= 0.0
    ensures n >= 4 ==> n as real * (0.25 * e) >= e
  {
    if n >= 4 && e > 0.0 {
      assert n as real * (0.25 * e) == (n as real * 0.25) * e;
      MulLe(1.0, n as real * 0.25, e);
    }
  }

  /** When the category amounts are non-negative and add up to the
      expenses, as the dashboard supplies them, at most three tips fire. */
  lemma AtMostThreeTips(expenses: real, cats: seq<Agg.Entry>)
    requires forall i :: 0 <= i < |cats| ==> cats[i].total >= 0.0
    requires Sum(cats, Agg.EntryTotal) == expenses
    ensures |Tips(expenses, cats)| <= 3
  {
    TipsSpec(expenses, cats);
    SumNonNegative(cats, Agg.EntryTotal);
    forall i | 0 <= i < |cats|
      ensures Fires(expenses, cats[i]) ==> cats[i].total > 0.25 * expenses
    {
      FiresSpec(expenses, cats[i]);
    }
    SumAboveCount(cats, Agg.EntryTotal, FiresFn(expenses), 0.25 * expenses);
    QuarterCount(|Filter(cats, FiresFn(expenses))|, expenses);
  }
}
