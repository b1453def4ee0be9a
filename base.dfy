/** Shared vocabulary: optional values, results, the outcome of a JavaScript
    number division, and folds over sequences (sums and filters). */
module Base {

  datatype Option<T> = None | Some(value: T) {
    function GetOr(default: T): T {
      match this
      case Some(v) => v
      case None => default
    }
  }

  datatype Result<T, E> = Ok(value: T) | Err(error: E)

  /** A request field: not sent, sent and well-formed, or sent but rejected
      by the route's validator (wrong format or out of range). */
  datatype Param<T> = Absent | Given(value: T) | Malformed

  /** What a JavaScript division `a / b` of two finite numbers can produce. */
  datatype Num = Fin(v: real) | PosInf | NegInf | NaN

  /** `a / b` as JavaScript evaluates it: a zero divisor gives Infinity,
      -Infinity or NaN according to the sign of the dividend. */
  function Div(a: real, b: real): (r: Num)
    ensures r.Fin? <==> b != 0.0
    ensures r.Fin? ==> r.v * b == a
    ensures r.PosInf? <==> b == 0.0 && a > 0.0
    ensures r.NaN? <==> b == 0.0 && a == 0.0
  {
    if b != 0.0 then Fin(a / b)
    else if a > 0.0 then PosInf
    else if a < 0.0 then NegInf
    else NaN
  }

  /** `n * k` for a positive constant k. */
  function Scale(n: Num, k: real): Num
    requires k > 0.0
  {
    match n
    case Fin(v) => Fin(v * k)
    case _ => n
  }

  /** `n > c`; false for NaN, as every JavaScript comparison with NaN. */
  predicate Gt(n: Num, c: real) {
    match n
    case Fin(v) => v > c
    case PosInf => true
    case NegInf => false
    case NaN => false
  }

  /** `n >= c`. */
  predicate Ge(n: Num, c: real) {
    match n
    case Fin(v) => v >= c
    case PosInf => true
    case NegInf => false
    case NaN => false
  }

  /** `Math.min(n, c)`: NaN stays NaN, +Infinity becomes c. */
  function MinNum(n: Num, c: real): (r: Num)
    ensures Gt(r, c) == false
    ensures n.NaN? <==> r.NaN?
    ensures n.Fin? ==> r.Fin? && r.v <= n.v && r.v <= c && (r.v == n.v || r.v == c)
    ensures n.PosInf? ==> r == Fin(c)
    ensures n.NegInf? ==> r == NegInf
  {
    match n
    case Fin(v) => Fin(if v <= c then v else c)
    case PosInf => Fin(c)
    case NegInf => NegInf
    case NaN => NaN
  }

  function Max(a: real, b: real): real { if a >= b then a else b }
  function Min(a: real, b: real): real { if a <= b then a else b }

  /** `Math.ceil`. */
  function Ceil(x: real): (r: int)
    ensures r as real >= x && (r - 1) as real < x
  {
    -((-x).Floor)
  }

  /** `Math.round`: halves go towards +Infinity. */
  function Round(x: real): (r: int)
    ensures r as real - 0.5 <= x < r as real + 0.5
  {
    (x + 0.5).Floor
  }

  /** The sum of f over s, accumulated from the left as `reduce` does. */
  function Sum<T>(s: seq<T>, f: T -> real): real
    decreases |s|
  {
    if |s| == 0 then 0.0 else Sum(s[..|s| - 1], f) + f(s[|s| - 1])
  }

  /** The elements of s that satisfy p, in order (`Array.prototype.filter`). */
  function Filter<T>(s: seq<T>, p: T -> bool): (r: seq<T>)
    ensures |r| <= |s|
    ensures forall i :: 0 <= i < |r| ==> p(r[i])
    decreases |s|
  {
    if |s| == 0 then []
    else Filter(s[..|s| - 1], p) + (if p(s[|s| - 1]) then [s[|s| - 1]] else [])
  }

  /** r is obtained from s by deleting elements (order is preserved). */
  ghost predicate IsSubsequence<T>(r: seq<T>, s: seq<T>) {
    exists idx: seq<int> ::
      |idx| == |r|
      && (forall k :: 0 <= k < |idx| ==> 0 <= idx[k] < |s| && s[idx[k]] == r[k])
      && (forall k, l :: 0 <= k < l < |idx| ==> idx[k] < idx[l])
  }

  lemma {:induction false} SumAppend<T>(s: seq<T>, t: seq<T>, f: T -> real)
    ensures Sum(s + t, f) == Sum(s, f) + Sum(t, f)
    decreases |t|
  {
    if |t| == 0 {
      assert s + t == s;
    } else {
      assert (s + t)[..|s + t| - 1] == s + t[..|t| - 1];
      SumAppend(s, t[..|t| - 1], f);
    }
  }

  lemma {:induction false} SumNonNegative<T>(s: seq<T>, f: T -> real)
    requires forall x :: x in s ==> f(x) >= 0.0
    ensures Sum(s, f) >= 0.0
    decreases |s|
  {
    if |s| > 0 {
      assert forall x :: x in s[..|s| - 1] ==> x in s;
      SumNonNegative(s[..|s| - 1], f);
    }
  }

  /** Summing over a filter never exceeds summing everything, for non-negative terms. */
  lemma {:induction false} SumFilterLe<T>(s: seq<T>, p: T -> bool, f: T -> real)
    requires forall x :: x in s ==> f(x) >= 0.0
    ensures 0.0 <= Sum(Filter(s, p), f) <= Sum(s, f)
    decreases |s|
  {
    if |s| > 0 {
      var init := s[..|s| - 1];
      assert forall x :: x in init ==> x in s;
      SumFilterLe(init, p, f);
      var last := if p(s[|s| - 1]) then [s[|s| - 1]] else [];
      SumAppend(Filter(init, p), last, f);
      assert Sum(last, f) == (if p(s[|s| - 1]) then f(s[|s| - 1]) else 0.0) by {
        if p(s[|s| - 1]) { assert last[..0] == []; }
      }
    }
  }

  /** A filter keeps an order-preserving subsequence of its input. */
  lemma {:induction false} FilterIsSubsequence<T>(s: seq<T>, p: T -> bool)
    ensures IsSubsequence(Filter(s, p), s)
    decreases |s|
  {
    if |s| == 0 {
      var idx: seq<int> := [];
      assert |idx| == |Filter(s, p)|;
    } else {
      var init := s[..|s| - 1];
      FilterIsSubsequence(init, p);
      var idx: seq<int> :| |idx| == |Filter(init, p)|
        && (forall k :: 0 <= k < |idx| ==> 0 <= idx[k] < |init| && init[idx[k]] == Filter(init, p)[k])
        && (forall k, l :: 0 <= k < l < |idx| ==> idx[k] < idx[l]);
      var r := Filter(s, p);
      if p(s[|s| - 1]) {
        var idx' := idx + [|s| - 1];
        assert r == Filter(init, p) + [s[|s| - 1]];
        assert forall k :: 0 <= k < |idx'| ==> 0 <= idx'[k] < |s| && s[idx'[k]] == r[k];
        assert IsSubsequence(r, s);
      } else {
        assert r == Filter(init, p);
        assert forall k :: 0 <= k < |idx| ==> 0 <= idx[k] < |s| && s[idx[k]] == r[k];
        assert IsSubsequence(r, s);
      }
    }
  }

  /** The filter keeps exactly the elements of s that satisfy p. */
  lemma {:induction false} FilterMembers<T>(s: seq<T>, p: T -> bool, x: T)
    ensures x in Filter(s, p) <==> x in s && p(x)
    decreases |s|
  {
    if |s| > 0 {
      FilterMembers(s[..|s| - 1], p, x);
      assert s == s[..|s| - 1] + [s[|s| - 1]];
    }
  }

  /** Filtering with a predicate that holds everywhere changes nothing. */
  lemma {:induction false} FilterAll<T>(s: seq<T>, p: T -> bool)
    requires forall i :: 0 <= i < |s| ==> p(s[i])
    ensures Filter(s, p) == s
    decreases |s|
  {
    if |s| > 0 {
      FilterAll(s[..|s| - 1], p);
      assert s[..|s| - 1] + [s[|s| - 1]] == s;
    }
  }

  /** Filtering twice with the same predicate is filtering once. */
  lemma FilterIdempotent<T>(s: seq<T>, p: T -> bool)
    ensures Filter(Filter(s, p), p) == Filter(s, p)
  {
    FilterAll(Filter(s, p), p);
  }

  /** Two predicates that agree on s filter it the same way. */
  lemma {:induction false} FilterCongruent<T>(s: seq<T>, p: T -> bool, q: T -> bool)
    requires forall x :: x in s ==> p(x) == q(x)
    ensures Filter(s, p) == Filter(s, q)
    decreases |s|
  {
    if |s| > 0 {
      assert forall x :: x in s[..|s| - 1] ==> x in s;
      FilterCongruent(s[..|s| - 1], p, q);
    }
  }

  /** Two term functions that agree on s give the same sum. */
  lemma {:induction false} SumCongruent<T>(s: seq<T>, f: T -> real, g: T -> real)
    requires forall x :: x in s ==> f(x) == g(x)
    ensures Sum(s, f) == Sum(s, g)
    decreases |s|
  {
    if |s| > 0 {
      assert forall x :: x in s[..|s| - 1] ==> x in s;
      SumCongruent(s[..|s| - 1], f, g);
    }
  }

  /** The index of the first element of s that passes p. */
  function FirstIndex<T>(s: seq<T>, p: T -> bool): (r: Option<nat>)
    ensures r.Some? ==> r.value < |s| && p(s[r.value])
    ensures r.Some? ==> forall j :: 0 <= j < r.value ==> !p(s[j])
    ensures r.None? ==> forall j :: 0 <= j < |s| ==> !p(s[j])
    decreases |s|
  {
    if |s| == 0 then None
    else if p(s[0]) then Some(0)
    else
      match FirstIndex(s[1..], p)
      case None => None
      case Some(i) => Some(i + 1)
  }

  /** One more element of s adds its term to the filtered sum when it
      passes the test. */
  lemma FilterSumStep<T>(s: seq<T>, i: nat, p: T -> bool, f: T -> real)
    requires i < |s|
    ensures Sum(Filter(s[..i + 1], p), f) == Sum(Filter(s[..i], p), f) + (if p(s[i]) then f(s[i]) else 0.0)
  {
    assert s[..i + 1][..i] == s[..i];
    SumAppend(Filter(s[..i], p), if p(s[i]) then [s[i]] else [], f);
    assert [s[i]][..0] == [];
  }

  /** Two sequences whose elements agree pointwise on the test and on the
      term give the same filtered sum. */
  lemma {:induction false} FilterSumPointwise<T>(s: seq<T>, t: seq<T>, p: T -> bool, f: T -> real)
    requires |s| == |t|
    requires forall i :: 0 <= i < |s| ==> p(s[i]) == p(t[i]) && f(s[i]) == f(t[i])
    ensures Sum(Filter(s, p), f) == Sum(Filter(t, p), f)
    decreases |s|
  {
    if |s| > 0 {
      var n := |s| - 1;
      FilterSumPointwise(s[..n], t[..n], p, f);
      SumAppend(Filter(s[..n], p), if p(s[n]) then [s[n]] else [], f);
      SumAppend(Filter(t[..n], p), if p(t[n]) then [t[n]] else [], f);
    }
  }

  /** Filtering a concatenation filters each part. */
  lemma {:induction false} FilterAppend<T>(a: seq<T>, b: seq<T>, p: T -> bool)
    ensures Filter(a + b, p) == Filter(a, p) + Filter(b, p)
    decreases |b|
  {
    if |b| == 0 {
      assert a + b == a;
    } else {
      assert (a + b)[..|a + b| - 1] == a + b[..|b| - 1];
      FilterAppend(a, b[..|b| - 1], p);
    }
  }

  /** Filtering two permutations of each other gives permutations of each other. */
  lemma {:induction false} FilterPermutation<T>(s: seq<T>, t: seq<T>, p: T -> bool)
    requires multiset(s) == multiset(t)
    ensures multiset(Filter(s, p)) == multiset(Filter(t, p))
    decreases |s|
  {
    if |s| == 0 {
      assert |t| == |multiset(t)| == 0;
    } else {
      var x := s[|s| - 1];
      var k := RemovalIndex(s, t);
      var t' := t[..k] + t[k + 1..];
      FilterPermutation(s[..|s| - 1], t', p);
      var mid := if p(x) then [x] else [];
      var a, b := Filter(t[..k], p), Filter(t[k + 1..], p);
      assert Filter([x], p) == mid by {
        assert [x][..0] == [];
      }
      FilterAppend(t[..k] + [x], t[k + 1..], p);
      FilterAppend(t[..k], [x], p);
      FilterAppend(t[..k], t[k + 1..], p);
      assert Filter(t, p) == a + mid + b;
      assert Filter(t', p) == a + b;
      assert Filter(s, p) == Filter(s[..|s| - 1], p) + mid;
      calc {
        multiset(Filter(s, p));
        multiset(Filter(s[..|s| - 1], p)) + multiset(mid);
        multiset(a + b) + multiset(mid);
        multiset(a + mid + b);
      }
    }
  }

  /** An index of t holding the last element of s, whose removal leaves a
      permutation of the rest of s. */
  lemma RemovalIndex<T>(s: seq<T>, t: seq<T>) returns (k: nat)
    requires multiset(s) == multiset(t) && |s| > 0
    ensures k < |t| && t[k] == s[|s| - 1]
    ensures t == t[..k] + [t[k]] + t[k + 1..]
    ensures multiset(s[..|s| - 1]) == multiset(t[..k] + t[k + 1..])
  {
    var x := s[|s| - 1];
    assert s == s[..|s| - 1] + [x];
    assert x in multiset(t);
    k :| 0 <= k < |t| && t[k] == x;
    assert t == t[..k] + [x] + t[k + 1..];
    calc {
      multiset(s[..|s| - 1]);
      multiset(s) - multiset{x};
      multiset(t) - multiset{x};
      multiset(t[..k] + t[k + 1..]);
    }
  }

  /** A sum does not depend on the order of its terms. */
  lemma {:induction false} SumPermutation<T>(s: seq<T>, t: seq<T>, f: T -> real)
    requires multiset(s) == multiset(t)
    ensures Sum(s, f) == Sum(t, f)
    decreases |s|
  {
    if |s| == 0 {
      assert |t| == |multiset(t)| == 0;
    } else {
      var x := s[|s| - 1];
      var k := RemovalIndex(s, t);
      SumPermutation(s[..|s| - 1], t[..k] + t[k + 1..], f);
      SumAppend(t[..k] + [x], t[k + 1..], f);
      SumAppend(t[..k], [x], f);
      SumAppend(t[..k], t[k + 1..], f);
      assert s == s[..|s| - 1] + [x];
      assert [x][..0] == [];
    }
  }

  /** s with the element at index i taken out, the others kept in order. */
  function RemoveAt<T>(s: seq<T>, i: nat): (r: seq<T>)
    requires i < |s|
    ensures |r| == |s| - 1
    ensures forall j :: 0 <= j < |r| ==> r[j] == s[if j < i then j else j + 1]
    ensures multiset(r) + multiset{s[i]} == multiset(s)
  {
    assert s == s[..i] + [s[i]] + s[i + 1..];
    s[..i] + s[i + 1..]
  }

  /** Replacing one term changes the sum by the difference of the terms. */
  lemma SumUpdate<T>(s: seq<T>, i: nat, x: T, f: T -> real)
    requires i < |s|
    ensures Sum(s[i := x], f) == Sum(s, f) - f(s[i]) + f(x)
  {
    assert s == s[..i] + [s[i]] + s[i + 1..];
    assert s[i := x] == s[..i] + [x] + s[i + 1..];
    SumAppend(s[..i] + [s[i]], s[i + 1..], f);
    SumAppend(s[..i], [s[i]], f);
    SumAppend(s[..i] + [x], s[i + 1..], f);
    SumAppend(s[..i], [x], f);
    assert [x][..0] == [] && [s[i]][..0] == [];
  }

  /** With a positive whole, the percentage `part / whole * 100` reaches
      c * 100 exactly when part reaches c times whole. */
  lemma ShareAtLeast(part: real, whole: real, c: real)
    requires whole > 0.0
    ensures part / whole * 100.0 >= c * 100.0 <==> part >= c * whole
  {
    var v := part / whole;
    assert v * whole == part;
    assert (v - c) * whole == part - c * whole;
    if v >= c {
      assert (v - c) * whole >= 0.0;
    } else {
      assert (c - v) * whole > 0.0;
    }
  }

  /** With a positive whole, the percentage `part / whole * 100` exceeds
      c * 100 exactly when part exceeds c times whole. */
  lemma ShareAbove(part: real, whole: real, c: real)
    requires whole > 0.0
    ensures part / whole * 100.0 > c * 100.0 <==> part > c * whole
  {
    var v := part / whole;
    assert v * whole == part;
    assert (v - c) * whole == part - c * whole;
    if v > c {
      assert (v - c) * whole > 0.0;
    } else {
      assert (c - v) * whole >= 0.0;
    }
  }

  /** Multiplying by a positive factor keeps a non-strict order. */
  lemma MulLe(a: real, b: real, c: real)
    requires a <= b && c > 0.0
    ensures a * c <= b * c
  {
    assert b * c - a * c == (b - a) * c;
  }

  /** Multiplying by a positive factor keeps a strict order. */
  lemma MulLt(a: real, b: real, c: real)
    requires a < b && c > 0.0
    ensures a * c < b * c
  {
    assert b * c - a * c == (b - a) * c;
  }

  /** When every term is non-negative and every selected term exceeds c,
      the sum exceeds c times the number of selected terms. */
  lemma {:induction false} SumAboveCount<T>(s: seq<T>, f: T -> real, p: T -> bool, c: real)
    requires c >= 0.0
    requires forall i :: 0 <= i < |s| ==> f(s[i]) >= 0.0
    requires forall i :: 0 <= i < |s| && p(s[i]) ==> f(s[i]) > c
    ensures Sum(s, f) >= |Filter(s, p)| as real * c
    ensures |Filter(s, p)| > 0 ==> Sum(s, f) > |Filter(s, p)| as real * c
    decreases |s|
  {
    if |s| > 0 {
      var init := s[..|s| - 1];
      SumAboveCount(init, f, p, c);
      var m := |Filter(init, p)|;
      if p(s[|s| - 1]) {
        assert |Filter(s, p)| == m + 1;
        assert (m + 1) as real * c == m as real * c + c;
      }
    }
  }
}
