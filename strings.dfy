/**
 * String helpers that stand in for the Python built-ins the core relies on:
 * `str(int)`, `int(str)` on digit strings, ASCII `upper()`/`lower()`,
 * the `in` operator on strings and `repr` of a list of strings.
 */
module Strings {

  predicate IsDigit(c: char) {
    '0' <= c <= '9'
  }

  predicate IsDigitString(s: string) {
    forall i :: 0 <= i < |s| ==> IsDigit(s[i])
  }

  function DigitValue(c: char): (d: nat)
    requires IsDigit(c)
    ensures d < 10
  {
    c as int - '0' as int
  }

  function DigitChar(d: nat): (c: char)
    requires d < 10
    ensures IsDigit(c) && DigitValue(c) == d
  {
    ('0' as int + d) as char
  }

  /** Decimal form of a natural number, as Python's `str(n)`: digits only, no leading zero. */
  function NatToString(n: nat): (s: string)
    ensures |s| > 0 && IsDigitString(s)
    ensures n > 0 ==> s[0] != '0'
    decreases n
  {
    if n < 10 then [DigitChar(n)] else NatToString(n / 10) + [DigitChar(n % 10)]
  }

  /** Decimal form of an integer, as Python's `str(i)` or an f-string `{i}`. */
  function IntToString(i: int): (s: string)
    ensures |s| > 0
    ensures i >= 0 ==> IsDigitString(s)
    ensures i < 0 ==> s[0] == '-' && IsDigitString(s[1..])
  {
    if i < 0 then "-" + NatToString(-i) else NatToString(i)
  }

  /** Python's `int(s)` for a string of ASCII digits (leading zeros allowed, `int("")` is never asked). */
  function ParseNat(s: string): nat
    requires IsDigitString(s)
  {
    if s == [] then 0 else ParseNat(s[..|s| - 1]) * 10 + DigitValue(s[|s| - 1])
  }

  /** Reading back the decimal form of `n` yields `n`. */
  lemma {:induction false} ParseNatToString(n: nat)
    ensures ParseNat(NatToString(n)) == n
    decreases n
  {
    var s := NatToString(n);
    if n < 10 {
      assert s[..|s| - 1] == [];
    } else {
      assert s[..|s| - 1] == NatToString(n / 10);
      ParseNatToString(n / 10);
    }
  }

  /** Distinct integers have distinct decimal forms. */
  lemma IntToStringInjective(a: int, b: int)
    requires IntToString(a) == IntToString(b)
    ensures a == b
  {
    if a < 0 && b < 0 {
      assert NatToString(-a) == IntToString(a)[1..] == IntToString(b)[1..] == NatToString(-b);
      ParseNatToString(-a);
      ParseNatToString(-b);
    } else if a >= 0 && b >= 0 {
      ParseNatToString(a);
      ParseNatToString(b);
    }
  }

  function UpperChar(c: char): char {
    if 'a' <= c <= 'z' then (c as int - 32) as char else c
  }

  function LowerChar(c: char): char {
    if 'A' <= c <= 'Z' then (c as int + 32) as char else c
  }

  /** ASCII `s.upper()`: same length, no lower-case ASCII letter left, every other character kept. */
  function Upper(s: string): (r: string)
    ensures |r| == |s|
    ensures forall i :: 0 <= i < |r| ==> !('a' <= r[i] <= 'z')
    ensures forall i :: 0 <= i < |r| && !('a' <= s[i] <= 'z') ==> r[i] == s[i]
    ensures forall i :: 0 <= i < |r| && 'a' <= s[i] <= 'z' ==> r[i] as int == s[i] as int - 32
  {
    seq(|s|, i requires 0 <= i < |s| => UpperChar(s[i]))
  }

  /** ASCII `s.lower()`: same length, no upper-case ASCII letter left, every other character kept. */
  function Lower(s: string): (r: string)
    ensures |r| == |s|
    ensures forall i :: 0 <= i < |r| ==> !('A' <= r[i] <= 'Z')
    ensures forall i :: 0 <= i < |r| && !('A' <= s[i] <= 'Z') ==> r[i] == s[i]
    ensures forall i :: 0 <= i < |r| && 'A' <= s[i] <= 'Z' ==> r[i] as int == s[i] as int + 32
  {
    seq(|s|, i requires 0 <= i < |s| => LowerChar(s[i]))
  }

  /** Python's `sub in s` on strings. */
  predicate Contains(s: string, sub: string)
    decreases |s|
  {
    if |sub| > |s| then false
    else if s[..|sub|] == sub then true
    else |s| > 0 && Contains(s[1..], sub)
  }

  /** `sub in s` holds whenever `sub` occurs in `s` at some position `i`. */
  lemma {:induction false} ContainsAt(s: string, sub: string, i: nat)
    requires i + |sub| <= |s| && s[i..i + |sub|] == sub
    ensures Contains(s, sub)
    decreases i
  {
    if i > 0 && s[..|sub|] != sub {
      assert s[1..][i - 1..i - 1 + |sub|] == s[i..i + |sub|];
      ContainsAt(s[1..], sub, i - 1);
    }
  }

  /** A string occurs in any string it starts. */
  lemma ContainsStart(a: string, b: string)
    ensures Contains(a + b, a)
  {
  }

  /** Lower-casing keeps every occurrence, as the lower-cased occurrence. */
  lemma LowerKeepsOccurrence(s: string, sub: string)
    requires Contains(s, sub)
    ensures Contains(Lower(s), Lower(sub))
  {
    var i := ContainsWitness(s, sub);
    assert Lower(s)[i..i + |sub|] == Lower(sub) by {
      forall j | 0 <= j < |sub| ensures Lower(s)[i + j] == Lower(sub)[j] {
        assert s[i + j] == s[i..i + |sub|][j];
      }
    }
    ContainsAt(Lower(s), Lower(sub), i);
  }

  /** A string occurs in any concatenation that has it as a middle part. */
  lemma ContainsInfix(a: string, sub: string, b: string)
    ensures Contains(a + sub + b, sub)
  {
    assert (a + sub + b)[|a|..|a| + |sub|] == sub;
    ContainsAt(a + sub + b, sub, |a|);
  }

  /** Python's `repr` of a `str` without quotes or backslashes in it. */
  function ReprStr(s: string): string {
    "'" + s + "'"
  }

  /** The items of `repr(xs)` for a list of strings, separated by `", "`. */
  function ReprItems(xs: seq<string>): string
    decreases |xs|
  {
    if xs == [] then ""
    else if |xs| == 1 then ReprStr(xs[0])
    else ReprStr(xs[0]) + ", " + ReprItems(xs[1..])
  }

  /** Python's `repr` (and so `str`) of a list of plain strings: `['123', '456']`. */
  function ReprList(xs: seq<string>): string {
    "[" + ReprItems(xs) + "]"
  }

  /** Every element of a list shows up in the list's `repr`. */
  lemma {:induction false} ReprItemsContains(xs: seq<string>, k: nat)
    requires k < |xs|
    ensures Contains(ReprItems(xs), xs[k])
    decreases |xs|
  {
    if |xs| == 1 {
      ContainsInfix("'", xs[0], "'");
    } else if k == 0 {
      ContainsInfix("'", xs[0], "'" + ", " + ReprItems(xs[1..]));
      assert "'" + xs[0] + ("'" + ", " + ReprItems(xs[1..])) == ReprItems(xs);
    } else {
      ReprItemsContains(xs[1..], k - 1);
      ContainsSuffix(ReprStr(xs[0]) + ", ", ReprItems(xs[1..]), xs[k]);
    }
  }

  lemma ContainsSuffix(a: string, s: string, sub: string)
    requires Contains(s, sub)
    ensures Contains(a + s, sub)
  {
    var i := ContainsWitness(s, sub);
    assert (a + s)[|a| + i..|a| + i + |sub|] == s[i..i + |sub|];
    ContainsAt(a + s, sub, |a| + i);
  }

  lemma ContainsPrefix(s: string, b: string, sub: string)
    requires Contains(s, sub)
    ensures Contains(s + b, sub)
  {
    var i := ContainsWitness(s, sub);
    assert (s + b)[i..i + |sub|] == s[i..i + |sub|];
    ContainsAt(s + b, sub, i);
  }

  /** A position at which `sub` occurs in `s`. */
  lemma {:induction false} ContainsWitness(s: string, sub: string) returns (i: nat)
    requires Contains(s, sub)
    ensures i + |sub| <= |s| && s[i..i + |sub|] == sub
    decreases |s|
  {
    if s[..|sub|] == sub {
      i := 0;
    } else {
      var j := ContainsWitness(s[1..], sub);
      assert s[1..][j..j + |sub|] == s[j + 1..j + 1 + |sub|];
      i := j + 1;
    }
  }

  lemma ReprListContains(xs: seq<string>, k: nat)
    requires k < |xs|
    ensures Contains(ReprList(xs), xs[k])
  {
    ReprItemsContains(xs, k);
    ContainsSuffix("[", ReprItems(xs), xs[k]);
    ContainsPrefix("[" + ReprItems(xs), "]", xs[k]);
  }
}
