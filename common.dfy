/** Shared vocabulary of the model: optional values, the scalar cells of a
    feature row, and the few string operations the Python code relies on
    (`str.isalpha`, `str.isdigit`, `str.upper`, `str.lower`, `in` on strings,
    and `<` on strings). Only ASCII letters are treated as letters. */
module Common {

  datatype Option<+T> = None | Some(value: T)

  /** One cell of a feature row or of a model input: a string, an integer,
      a real, or Python's `None` (pandas' NaN). */
  datatype Value = VStr(s: string) | VInt(i: int) | VReal(r: real) | VNone

  /** `int(b)` for a Python bool. */
  function B2I(b: bool): (r: int)
    ensures r == 1 <==> b
    ensures r == 0 <==> !b
  {
    if b then 1 else 0
  }

  function Abs(x: real): (r: real)
    ensures r >= 0.0
    ensures r == x || r == -x
  {
    if x < 0.0 then -x else x
  }

  predicate IsAsciiLetter(c: char) {
    ('a' <= c <= 'z') || ('A' <= c <= 'Z')
  }

  predicate IsAsciiDigit(c: char) {
    '0' <= c <= '9'
  }

  /** `s.isalpha()`: non-empty and every character a letter. */
  predicate IsAlpha(s: string) {
    |s| > 0 && forall i :: 0 <= i < |s| ==> IsAsciiLetter(s[i])
  }

  /** `s.isdigit()`: non-empty and every character a digit. */
  predicate IsDigits(s: string) {
    |s| > 0 && forall i :: 0 <= i < |s| ==> IsAsciiDigit(s[i])
  }

  function UpperChar(c: char): (r: char)
    ensures 'a' <= c <= 'z' ==> r as int == c as int - 32
    ensures !('a' <= c <= 'z') ==> r == c
  {
    if 'a' <= c <= 'z' then (c as int - 32) as char else c
  }

  function LowerChar(c: char): (r: char)
    ensures 'A' <= c <= 'Z' ==> r as int == c as int + 32
    ensures !('A' <= c <= 'Z') ==> r == c
  {
    if 'A' <= c <= 'Z' then (c as int + 32) as char else c
  }

  /** `s.upper()` on ASCII letters. */
  function Upper(s: string): (r: string)
    ensures |r| == |s|
    ensures forall i :: 0 <= i < |s| ==> r[i] == UpperChar(s[i])
  {
    seq(|s|, i requires 0 <= i < |s| => UpperChar(s[i]))
  }

  /** `s.lower()` on ASCII letters. */
  function Lower(s: string): (r: string)
    ensures |r| == |s|
    ensures forall i :: 0 <= i < |s| ==> r[i] == LowerChar(s[i])
  {
    seq(|s|, i requires 0 <= i < |s| => LowerChar(s[i]))
  }

  /** `s[:n]` for a non-negative `n`: at most the first `n` characters. */
  function Take(s: string, n: nat): (r: string)
    ensures |r| == if n <= |s| then n else |s|
    ensures r <= s
  {
    if n <= |s| then s[..n] else s
  }

  /** `needle in hay` for strings: `needle` occurs at some position. */
  predicate OccursAt(hay: string, needle: string, i: nat) {
    i + |needle| <= |hay| && hay[i..i + |needle|] == needle
  }

  function SubstringFrom(hay: string, needle: string, i: nat): (r: bool)
    requires i <= |hay|
    ensures r <==> exists k :: i <= k <= |hay| && OccursAt(hay, needle, k)
    decreases |hay| - i
  {
    if OccursAt(hay, needle, i) then true
    else if i == |hay| then false
    else SubstringFrom(hay, needle, i + 1)
  }

  function Contains(hay: string, needle: string): (r: bool)
    ensures r <==> exists k :: 0 <= k <= |hay| && OccursAt(hay, needle, k)
  {
    SubstringFrom(hay, needle, 0)
  }

  /** `" ".join(parts)`. */
  function JoinSpace(parts: seq<string>): (r: string)
    ensures parts == [] ==> r == ""
    ensures |parts| == 1 ==> r == parts[0]
    ensures |parts| >= 2 ==> |r| > |parts[0]| && r[..|parts[0]|] == parts[0] && r[|parts[0]|] == ' '
  {
    if parts == [] then ""
    else if |parts| == 1 then parts[0]
    else parts[0] + " " + JoinSpace(parts[1..])
  }

  /** An occurrence in `a` is one in `a + mid + b` at the same place, and an
      occurrence in `b` one shifted by `|a + mid|`. */
  lemma OccursInConcat(a: string, mid: string, b: string, needle: string, k: nat)
    ensures OccursAt(a, needle, k) ==> OccursAt(a + mid + b, needle, k)
    ensures OccursAt(b, needle, k) ==> OccursAt(a + mid + b, needle, |a| + |mid| + k)
  {
    var h := a + mid + b;
    if OccursAt(a, needle, k) {
      assert h[k..k + |needle|] == a[k..k + |needle|];
    }
    if OccursAt(b, needle, k) {
      var o := |a| + |mid|;
      assert h[o + k..o + k + |needle|] == b[k..k + |needle|];
    }
  }

  /** An occurrence in `a + " " + b` of a needle without spaces lies in `a`
      or in `b`. */
  lemma OccursSplit(a: string, b: string, needle: string, k: nat)
    requires ' ' !in needle && OccursAt(a + " " + b, needle, k)
    ensures k + |needle| <= |a| ==> OccursAt(a, needle, k)
    ensures k > |a| ==> OccursAt(b, needle, k - |a| - 1)
    ensures k + |needle| <= |a| || k > |a|
  {
    var h := a + " " + b;
    if k <= |a| < k + |needle| {
      StraddleChar(a, b, needle, k);
    }
    if k + |needle| <= |a| {
      assert a[k..k + |needle|] == h[k..k + |needle|];
    } else if k > |a| {
      assert b[k - |a| - 1..k - |a| - 1 + |needle|] == h[k..k + |needle|];
    }
  }

  /** An occurrence that covers the separator has a space in it. */
  lemma StraddleChar(a: string, b: string, needle: string, k: nat)
    requires OccursAt(a + " " + b, needle, k) && k <= |a| < k + |needle|
    ensures needle[|a| - k] == ' '
  {
    var h := a + " " + b;
    assert needle[|a| - k] == h[k..k + |needle|][|a| - k] == h[|a|];
  }

  /** An occurrence of a needle without spaces cannot straddle the
      separator, so it lies on one side. */
  lemma ContainsAroundSpace(a: string, b: string, needle: string)
    requires ' ' !in needle
    ensures Contains(a + " " + b, needle) <==> Contains(a, needle) || Contains(b, needle)
  {
    var h := a + " " + b;
    if Contains(h, needle) {
      var k :| 0 <= k <= |h| && OccursAt(h, needle, k);
      OccursSplit(a, b, needle, k);
      if k > |a| {
        assert 0 <= k - |a| - 1 <= |b|;
      }
    }
    if Contains(a, needle) {
      var k :| 0 <= k <= |a| && OccursAt(a, needle, k);
      OccursInConcat(a, " ", b, needle, k);
    }
    if Contains(b, needle) {
      var k :| 0 <= k <= |b| && OccursAt(b, needle, k);
      OccursInConcat(a, " ", b, needle, k);
    }
  }

  /** A needle without spaces occurs in the joined text exactly when it
      occurs in one of the parts. */
  lemma {:induction false} JoinSpaceContains(parts: seq<string>, needle: string)
    requires needle != [] && ' ' !in needle
    ensures Contains(JoinSpace(parts), needle) <==> exists i :: 0 <= i < |parts| && Contains(parts[i], needle)
  {
    if parts == [] {
      assert !OccursAt("", needle, 0);
    } else if |parts| > 1 {
      JoinSpaceContains(parts[1..], needle);
      ContainsAroundSpace(parts[0], JoinSpace(parts[1..]), needle);
      assert forall i :: 1 <= i < |parts| ==> parts[i] == parts[1..][i - 1];
      if Contains(JoinSpace(parts[1..]), needle) {
        var i :| 0 <= i < |parts[1..]| && Contains(parts[1..][i], needle);
        assert Contains(parts[i + 1], needle);
      }
    }
  }

  /** Python's `a < b` on strings: lexicographic by code point. */
  predicate LexLess(a: string, b: string) {
    if a == [] then b != []
    else if b == [] then false
    else if a[0] != b[0] then a[0] < b[0]
    else LexLess(a[1..], b[1..])
  }

  lemma {:induction false} LexLessIrreflexive(a: string)
    ensures !LexLess(a, a)
  {
    if a != [] {
      LexLessIrreflexive(a[1..]);
    }
  }

  lemma {:induction false} LexLessTransitive(a: string, b: string, c: string)
    requires LexLess(a, b) && LexLess(b, c)
    ensures LexLess(a, c)
  {
    if a != [] && b != [] && c != [] && a[0] == b[0] && b[0] == c[0] {
      LexLessTransitive(a[1..], b[1..], c[1..]);
    }
  }

  lemma {:induction false} LexLessTotal(a: string, b: string)
    ensures a == b || LexLess(a, b) || LexLess(b, a)
  {
    if a != [] && b != [] && a[0] == b[0] {
      LexLessTotal(a[1..], b[1..]);
      if a[1..] == b[1..] {
        assert a == [a[0]] + a[1..] && b == [b[0]] + b[1..];
      }
    }
  }
}
