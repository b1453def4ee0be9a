/** String operations of the JavaScript runtime that the application relies
    on: `toLowerCase` (ASCII letters), `includes`, `trim`, `split` on one
    character, `join`, and zero-padded decimal digits. */
module Text {

  function LowerChar(c: char): char {
    if 'A' <= c <= 'Z' then (c as int + 32) as char else c
  }

  /** `toLowerCase`, restricted to the ASCII letters. */
  function Lower(s: string): (r: string)
    ensures |r| == |s|
    ensures forall i :: 0 <= i < |s| ==> r[i] == LowerChar(s[i])
  {
    seq(|s|, i requires 0 <= i < |s| => LowerChar(s[i]))
  }

  /** `s.includes(t)`. */
  function Contains(s: string, t: string): bool
    decreases |s|
  {
    if t <= s then true
    else if |s| == 0 then false
    else Contains(s[1..], t)
  }

  /** t occurs in s starting at position i. */
  predicate OccursAt(s: string, t: string, i: int) {
    0 <= i && i + |t| <= |s| && s[i..i + |t|] == t
  }

  /** `includes` finds t exactly when t occurs at some position of s. */
  lemma {:induction false} ContainsIff(s: string, t: string)
    ensures Contains(s, t) <==> exists i :: OccursAt(s, t, i)
    decreases |s|
  {
    if t <= s {
      assert OccursAt(s, t, 0);
    } else if |s| == 0 {
    } else {
      ContainsIff(s[1..], t);
      if exists i :: OccursAt(s, t, i) {
        var i :| OccursAt(s, t, i);
        assert s[1..][i - 1..i - 1 + |t|] == t;
        assert OccursAt(s[1..], t, i - 1);
      }
      if Contains(s[1..], t) {
        var i :| OccursAt(s[1..], t, i);
        assert s[i + 1..i + 1 + |t|] == t;
        assert OccursAt(s, t, i + 1);
      }
    }
  }

  /** Whatever surrounds t, the result contains t. */
  lemma ContainsInfix(a: string, t: string, b: string)
    ensures Contains(a + t + b, t)
  {
    ContainsIff(a + t + b, t);
    assert (a + t + b)[|a|..|a| + |t|] == t;
    assert OccursAt(a + t + b, t, |a|);
  }

  /** The characters `String.prototype.trim` removes: WhiteSpace and LineTerminator. */
  predicate IsJsSpace(c: char) {
    var n := c as int;
    n == 0x09 || n == 0x0A || n == 0x0B || n == 0x0C || n == 0x0D || n == 0x20
    || n == 0xA0 || n == 0x1680 || (0x2000 <= n <= 0x200A) || n == 0x2028 || n == 0x2029
    || n == 0x202F || n == 0x205F || n == 0x3000 || n == 0xFEFF
  }

  function TrimStart(s: string): (r: string)
    ensures |r| <= |s| && r == s[|s| - |r|..]
    ensures |r| > 0 ==> !IsJsSpace(r[0])
    ensures forall i :: 0 <= i < |s| - |r| ==> IsJsSpace(s[i])
    decreases |s|
  {
    if |s| > 0 && IsJsSpace(s[0]) then TrimStart(s[1..]) else s
  }

  function TrimEnd(s: string): (r: string)
    ensures |r| <= |s| && r == s[..|r|]
    ensures |r| > 0 ==> !IsJsSpace(r[|r| - 1])
    ensures forall i :: |r| <= i < |s| ==> IsJsSpace(s[i])
    decreases |s|
  {
    if |s| > 0 && IsJsSpace(s[|s| - 1]) then TrimEnd(s[..|s| - 1]) else s
  }

  /** `trim`: white space removed at both ends. */
  function Trim(s: string): string {
    TrimEnd(TrimStart(s))
  }

  /** `trim` keeps an infix of s that neither starts nor ends with white
      space, and returns "" exactly when s is nothing but white space. */
  lemma TrimSpec(s: string)
    ensures exists i :: OccursAt(s, Trim(s), i)
    ensures |Trim(s)| > 0 ==> !IsJsSpace(Trim(s)[0]) && !IsJsSpace(Trim(s)[|Trim(s)| - 1])
    ensures Trim(s) == "" <==> forall i :: 0 <= i < |s| ==> IsJsSpace(s[i])
  {
    var a := TrimStart(s);
    var r := TrimEnd(a);
    assert r == s[|s| - |a|..|s| - |a| + |r|];
    assert r == Trim(s);
    assert OccursAt(s, Trim(s), |s| - |a|);
    if |r| > 0 { assert r[0] == a[0]; }
  }

  /** `s.split(sep)` for a one-character separator: always at least one piece. */
  function Split(s: string, sep: char): (r: seq<string>)
    ensures |r| >= 1
    ensures forall i :: 0 <= i < |r| ==> sep !in r[i]
    decreases |s|
  {
    if |s| == 0 then [""]
    else
      var rest := Split(s[1..], sep);
      if s[0] == sep then [""] + rest
      else [[s[0]] + rest[0]] + rest[1..]
  }

  /** `parts.join(sep)` for a one-character separator. */
  function Join(parts: seq<string>, sep: char): string
    decreases |parts|
  {
    if |parts| == 0 then ""
    else if |parts| == 1 then parts[0]
    else parts[0] + [sep] + Join(parts[1..], sep)
  }

  /** Joining one more piece appends the separator and that piece. */
  lemma {:induction false} JoinSnoc(parts: seq<string>, x: string, sep: char)
    requires |parts| >= 1
    ensures Join(parts + [x], sep) == Join(parts, sep) + [sep] + x
    decreases |parts|
  {
    if |parts| == 1 {
      assert (parts + [x])[1..] == [x];
    } else {
      assert (parts + [x])[1..] == parts[1..] + [x];
      JoinSnoc(parts[1..], x, sep);
    }
  }

  /** A last piece holding the separator joins like two pieces. */
  lemma JoinSplitLast(parts: seq<string>, x: string, y: string, sep: char)
    requires |parts| >= 1
    ensures Join(parts + [x + [sep] + y], sep) == Join(parts + [x, y], sep)
  {
    JoinSnoc(parts, x + [sep] + y, sep);
    JoinSnoc(parts, x, sep);
    assert parts + [x, y] == (parts + [x]) + [y];
    JoinSnoc(parts + [x], y, sep);
  }

  /** A character other than the separator occurs in a join only if it
      occurs in one of the pieces. */
  lemma {:induction false} JoinFree(parts: seq<string>, sep: char, x: char)
    requires x != sep
    requires forall i :: 0 <= i < |parts| ==> x !in parts[i]
    ensures x !in Join(parts, sep)
    decreases |parts|
  {
    if |parts| > 1 {
      JoinFree(parts[1..], sep, x);
    }
  }

  /** Joining the pieces of a split gives the original string back. */
  lemma {:induction false} JoinSplit(s: string, sep: char)
    ensures Join(Split(s, sep), sep) == s
    decreases |s|
  {
    if |s| > 0 {
      var rest := Split(s[1..], sep);
      JoinSplit(s[1..], sep);
      if s[0] == sep {
        assert Split(s, sep) == [""] + rest;
        assert ([""] + rest)[1..] == rest;
        assert s == [sep] + s[1..];
      } else {
        var r := Split(s, sep);
        assert r == [[s[0]] + rest[0]] + rest[1..];
        if |rest| == 1 {
          assert s == [s[0]] + s[1..];
        } else {
          assert r[1..] == rest[1..];
          assert Join(rest, sep) == rest[0] + [sep] + Join(rest[1..], sep);
          assert s == [s[0]] + s[1..];
        }
      }
    }
  }

  /** A string without the separator is a single piece. */
  lemma {:induction false} SplitNoSep(s: string, sep: char)
    requires sep !in s
    ensures Split(s, sep) == [s]
    decreases |s|
  {
    if |s| > 0 {
      assert sep !in s[1..];
      SplitNoSep(s[1..], sep);
      assert s == [s[0]] + s[1..];
    }
  }

  /** Splitting `a + sep + b` where a has no separator cuts exactly at that separator. */
  lemma {:induction false} SplitCons(a: string, b: string, sep: char)
    requires sep !in a
    ensures Split(a + [sep] + b, sep) == [a] + Split(b, sep)
    decreases |a|
  {
    if |a| == 0 {
      assert a + [sep] + b == [sep] + b;
      assert ([sep] + b)[1..] == b;
    } else {
      assert (a + [sep] + b)[1..] == a[1..] + [sep] + b;
      assert sep !in a[1..];
      SplitCons(a[1..], b, sep);
      assert a == [a[0]] + a[1..];
    }
  }

  /** Splitting a join of separator-free pieces gives the pieces back. */
  lemma {:induction false} SplitJoin(parts: seq<string>, sep: char)
    requires |parts| >= 1
    requires forall i :: 0 <= i < |parts| ==> sep !in parts[i]
    ensures Split(Join(parts, sep), sep) == parts
    decreases |parts|
  {
    if |parts| == 1 {
      SplitNoSep(parts[0], sep);
    } else {
      SplitJoin(parts[1..], sep);
      SplitCons(parts[0], Join(parts[1..], sep), sep);
      assert [parts[0]] + parts[1..] == parts;
    }
  }

  function DigitChar(d: int): char
    requires 0 <= d < 10
  {
    ['0', '1', '2', '3', '4', '5', '6', '7', '8', '9'][d]
  }

  predicate IsDigit(c: char) { '0' <= c <= '9' }

  /** The decimal digits of n, without leading zeros. */
  function Digits(n: nat): (r: string)
    ensures |r| >= 1
    ensures forall i :: 0 <= i < |r| ==> IsDigit(r[i])
    ensures n < 10 ==> |r| == 1
    ensures n < 100 ==> |r| <= 2
    ensures n < 10000 ==> |r| <= 4
    ensures n < 1000000 ==> |r| <= 6
  {
    if n < 10 then [DigitChar(n)] else Digits(n / 10) + [DigitChar(n % 10)]
  }

  /** n in decimal, left-padded with zeros to at least w digits (`padStart`). */
  function Padded(n: nat, w: nat): (r: string)
    ensures |r| >= w
    ensures |Digits(n)| <= w ==> |r| == w
    ensures forall i :: 0 <= i < |r| ==> IsDigit(r[i])
  {
    var d := Digits(n);
    if |d| >= w then d else seq(w - |d|, _ => '0') + d
  }

  /** The number a character stands for as a decimal digit. */
  function DigitValue(c: char): int {
    c as int - '0' as int
  }

  /** The number a string denotes read as decimal digits, most significant
      first (the empty string reads as 0). */
  function Value(s: string): int {
    if |s| == 0 then 0 else Value(s[..|s| - 1]) * 10 + DigitValue(s[|s| - 1])
  }

  lemma DigitCharValue(k: int)
    requires 0 <= k < 10
    ensures DigitValue(DigitChar(k)) == k
  {
  }

  /** Reading the digits of n gives back n. */
  lemma {:induction false} DigitsValue(n: nat)
    ensures Value(Digits(n)) == n
  {
    var d := Digits(n);
    if n < 10 {
      assert d[..|d| - 1] == [];
      DigitCharValue(n);
    } else {
      assert d[..|d| - 1] == Digits(n / 10);
      DigitsValue(n / 10);
      DigitCharValue(n % 10);
    }
  }

  lemma {:induction false} ZerosValue(k: nat)
    ensures Value(seq(k, _ => '0')) == 0
  {
    if k > 0 {
      assert seq(k, _ => '0')[..k - 1] == seq(k - 1, _ => '0');
      ZerosValue(k - 1);
    }
  }

  /** Leading zeros do not change what a string reads as. */
  lemma {:induction false} LeadingZerosValue(k: nat, s: string)
    ensures Value(seq(k, _ => '0') + s) == Value(s)
  {
    var z := seq(k, _ => '0');
    if |s| == 0 {
      assert z + s == z;
      ZerosValue(k);
    } else {
      assert (z + s)[..|z + s| - 1] == z + s[..|s| - 1];
      LeadingZerosValue(k, s[..|s| - 1]);
    }
  }

  /** Padding keeps the value: `padStart` only adds leading zeros. */
  lemma PaddedValue(n: nat, w: nat)
    ensures Value(Padded(n, w)) == n
  {
    DigitsValue(n);
    if |Digits(n)| < w {
      LeadingZerosValue(w - |Digits(n)|, Digits(n));
    }
  }
}
