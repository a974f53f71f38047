/**
  Character classes, whitespace trimming, substring search and the decimal and
  hexadecimal number conversions that the symbol-file reader and writer rely on.
  Whitespace here is the four characters of `IsSpace` (blank, tab, carriage
  return, line feed); numerals are plain digit runs, with an optional `-` on
  integers.  Both are narrower than Python's str.strip() and int().
*/
module Text {
  import opened Wrappers

  predicate IsSpace(c: char) {
    c == ' ' || c == '\t' || c == '\r' || c == '\n'
  }

  predicate AllSpace(s: string) {
    forall i :: 0 <= i < |s| ==> IsSpace(s[i])
  }

  /** A string with no leading and no trailing whitespace. */
  predicate IsTrimmed(s: string) {
    s == [] || (!IsSpace(s[0]) && !IsSpace(s[|s| - 1]))
  }

  /** Drops leading whitespace, as `IsSpace` defines it. */
  function TrimStart(s: string): (r: string)
    ensures |r| <= |s|
    ensures r == [] || !IsSpace(r[0])
  {
    if s != [] && IsSpace(s[0]) then TrimStart(s[1..]) else s
  }

  /** Drops trailing whitespace, as `IsSpace` defines it. */
  function TrimEnd(s: string): (r: string)
    ensures r <= s
    ensures r == [] || !IsSpace(r[|r| - 1])
  {
    if s != [] && IsSpace(s[|s| - 1]) then TrimEnd(s[..|s| - 1]) else s
  }

  /** Drops whitespace at both ends, as `IsSpace` defines it. */
  function Trim(s: string): string {
    TrimEnd(TrimStart(s))
  }

  // Small facts about concatenation, each proved on its own so that the
  // proofs that use them need no reasoning about sequence equality.

  /** Dropping a prefix of the first part of a concatenation. */
  lemma DropAppend<T>(a: seq<T>, b: seq<T>, k: nat)
    requires k <= |a|
    ensures (a + b)[k..] == a[k..] + b
  {
  }

  lemma TakeAppend<T>(a: seq<T>, b: seq<T>)
    ensures (a + b)[..|a|] == a
  {
  }

  lemma AppendAssoc<T>(a: seq<T>, b: seq<T>, c: seq<T>)
    ensures a + b + c == a + (b + c)
  {
  }

  lemma AppendEmpty<T>(a: seq<T>)
    ensures [] + a == a && a + [] == a
  {
  }

  lemma HeadTail<T>(s: seq<T>)
    requires s != []
    ensures [s[0]] + s[1..] == s
  {
  }

  /** A sequence is what comes before position `k`, the element there, and
      what comes after it. */
  lemma SplitAt<T>(s: seq<T>, k: nat)
    requires k < |s|
    ensures s == s[..k] + [s[k]] + s[k + 1..]
  {
  }

  /** What follows a separator that comes after `a`. */
  lemma AfterSeparator<T>(a: seq<T>, x: T, b: seq<T>)
    ensures (a + [x] + b)[..|a|] == a
    ensures (a + [x] + b)[|a| + 1..] == b
  {
  }

  lemma TrimResult(s: string)
    ensures IsTrimmed(Trim(s))
  {
    var t := TrimStart(s);
    var r := TrimEnd(t);
    if r != [] {
      assert r[0] == t[0];
    }
  }

  lemma {:induction false} TrimStartOfSpaces(p: string, s: string)
    requires AllSpace(p)
    requires s == [] || !IsSpace(s[0])
    ensures TrimStart(p + s) == s
  {
    if p != [] {
      assert (p + s)[1..] == p[1..] + s;
      TrimStartOfSpaces(p[1..], s);
    } else {
      assert p + s == s;
    }
  }

  lemma {:induction false} TrimEndOfSpaces(s: string, q: string)
    requires AllSpace(q)
    requires s == [] || !IsSpace(s[|s| - 1])
    ensures TrimEnd(s + q) == s
  {
    if q != [] {
      assert (s + q)[..|s + q| - 1] == s + q[..|q| - 1];
      TrimEndOfSpaces(s, q[..|q| - 1]);
    } else {
      assert s + q == s;
    }
  }

  /** Surrounding whitespace is exactly what strip() removes. */
  lemma TrimPadded(p: string, s: string, q: string)
    requires AllSpace(p) && AllSpace(q) && IsTrimmed(s)
    ensures Trim(p + s + q) == s
  {
    if s == [] {
      assert p + s + q == p + q;
      assert AllSpace(p + q);
      AllSpaceTrim(p + q);
    } else {
      assert p + s + q == p + (s + q);
      TrimStartOfSpaces(p, s + q);
      TrimEndOfSpaces(s, q);
    }
  }

  lemma AllSpaceTrim(s: string)
    requires AllSpace(s)
    ensures Trim(s) == []
  {
    TrimStartOfSpaces(s, []);
    assert s + [] == s;
  }

  lemma TrimTrimmed(s: string)
    requires IsTrimmed(s)
    ensures Trim(s) == s
  {
    TrimPadded([], s, []);
    assert [] + s + [] == s;
  }

  /** `sub` occurs somewhere in `s` (Python's `sub in s`). */
  predicate IsInfix(sub: string, s: string)
    decreases |s|
  {
    sub <= s || (s != [] && IsInfix(sub, s[1..]))
  }

  lemma {:induction false} InfixOfSuffix(sub: string, a: string, b: string)
    requires IsInfix(sub, b)
    ensures IsInfix(sub, a + b)
    decreases |a|
  {
    if a == [] {
      assert a + b == b;
    } else {
      assert (a + b)[1..] == a[1..] + b;
      InfixOfSuffix(sub, a[1..], b);
    }
  }

  lemma InfixOfPrefix(sub: string, a: string, b: string)
    requires sub <= b
    ensures IsInfix(sub, a + b)
  {
    assert IsInfix(sub, b);
    InfixOfSuffix(sub, a, b);
  }

  /** Index of the first occurrence of `c` in `s`, or |s| if there is none. */
  function IndexOf(s: string, c: char): (k: nat)
    ensures k <= |s|
    ensures k < |s| ==> s[k] == c
    ensures forall i :: 0 <= i < k ==> s[i] != c
  {
    if s == [] then 0 else if s[0] == c then 0 else 1 + IndexOf(s[1..], c)
  }

  lemma IndexOfAfter(a: string, c: char, b: string)
    requires c !in a
    ensures IndexOf(a + [c] + b, c) == |a|
  {
    var s := a + [c] + b;
    var k := IndexOf(s, c);
    assert s[|a|] == c;
  }

  // ---------------------------------------------------------------------
  // Digits in base 10 and base 16.

  predicate IsDigit(c: char, base: nat) {
    if base == 16 then
      ('0' <= c <= '9') || ('a' <= c <= 'f') || ('A' <= c <= 'F')
    else
      '0' <= c <= '9'
  }

  function DigitValue(c: char): (d: nat)
    ensures d < 16
  {
    if '0' <= c <= '9' then (c - '0') as nat
    else if 'a' <= c <= 'f' then (c - 'a') as nat + 10
    else if 'A' <= c <= 'F' then (c - 'A') as nat + 10
    else 0
  }

  /** Upper-case digit character, as Python's "{:X}" format writes it. */
  function DigitChar(d: nat): (c: char)
    requires d < 16
    ensures IsDigit(c, 16) && DigitValue(c) == d
    ensures d < 10 ==> IsDigit(c, 10)
  {
    if d < 10 then ('0' as int + d) as char else ('A' as int + d - 10) as char
  }

  predicate AllDigits(s: string, base: nat) {
    forall i :: 0 <= i < |s| ==> IsDigit(s[i], base)
  }

  /** Value of a digit string, most significant digit first. */
  function DigitsValue(s: string, base: nat): nat
    decreases |s|
  {
    if s == [] then 0 else DigitsValue(s[..|s| - 1], base) * base + DigitValue(s[|s| - 1])
  }

  /** A non-empty run of digits of the base, most significant first; no
      sign, blanks or underscores. */
  function ParseNatBase(s: string, base: nat): (r: Option<nat>)
    ensures r.Some? <==> |s| > 0 && AllDigits(s, base)
  {
    if |s| > 0 && AllDigits(s, base) then Some(DigitsValue(s, base)) else None
  }

  /** The digits of `n` in `base`, without leading zeros. */
  function NatToBase(n: nat, base: nat): (s: string)
    requires base == 10 || base == 16
    ensures |s| > 0 && AllDigits(s, base)
    decreases n
  {
    if n < base then [DigitChar(n)] else NatToBase(n / base, base) + [DigitChar(n % base)]
  }

  lemma {:induction false} NatToBaseValue(n: nat, base: nat)
    requires base == 10 || base == 16
    ensures DigitsValue(NatToBase(n, base), base) == n
    decreases n
  {
    var s := NatToBase(n, base);
    if n < base {
      assert s[..|s| - 1] == [];
    } else {
      NatToBaseValue(n / base, base);
      assert s[..|s| - 1] == NatToBase(n / base, base);
      assert DigitValue(s[|s| - 1]) == n % base;
    }
  }

  lemma ParseNatBaseRoundTrip(n: nat, base: nat)
    requires base == 10 || base == 16
    ensures ParseNatBase(NatToBase(n, base), base) == Some(n)
  {
    NatToBaseValue(n, base);
  }

  function ParseNat(s: string): Option<nat> {
    ParseNatBase(s, 10)
  }

  function NatToString(n: nat): (s: string)
    ensures |s| > 0 && AllDigits(s, 10)
  {
    NatToBase(n, 10)
  }

  function ParseHex(s: string): Option<nat> {
    ParseNatBase(s, 16)
  }

  function HexString(n: nat): (s: string)
    ensures |s| > 0 && AllDigits(s, 16)
  {
    NatToBase(n, 16)
  }

  lemma ParseNatRoundTrip(n: nat)
    ensures ParseNat(NatToString(n)) == Some(n)
  {
    ParseNatBaseRoundTrip(n, 10);
  }

  lemma ParseHexRoundTrip(n: nat)
    ensures ParseHex(HexString(n)) == Some(n)
  {
    ParseNatBaseRoundTrip(n, 16);
  }

  /** A decimal literal with an optional leading `-`; unlike Python's
      int(text), no `+`, blanks or underscores. */
  function ParseInt(s: string): (r: Option<int>)
    ensures r.Some? && r.value < 0 ==> |s| > 1 && s[0] == '-'
  {
    if |s| > 0 && s[0] == '-' then
      match ParseNat(s[1..])
      case Some(n) => Some(-(n as int))
      case None => None
    else
      match ParseNat(s)
      case Some(n) => Some(n as int)
      case None => None
  }

  function IntToString(i: int): (s: string)
    ensures |s| > 0 && !IsSpace(s[0]) && !IsSpace(s[|s| - 1])
  {
    if i < 0 then "-" + NatToString(-i) else NatToString(i)
  }

  lemma ParseIntRoundTrip(i: int)
    ensures ParseInt(IntToString(i)) == Some(i)
  {
    if i < 0 {
      var s := IntToString(i);
      assert s[1..] == NatToString(-i);
      ParseNatRoundTrip(-i);
    } else {
      ParseNatRoundTrip(i);
      assert NatToString(i)[0] != '-';
    }
  }
}
