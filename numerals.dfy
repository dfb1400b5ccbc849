/**
 * Decimal text conversions of the C++ standard library as the core uses them:
 * std::to_string for integers, and std::stoi / std::stoul, which accept what
 * strtol / strtoul accept (leading white space, an optional sign, decimal
 * digits, and any trailing text) and throw when there is no digit or the value
 * is out of range.
 */
module Numerals {
  import opened Wrappers

  /** 2^64: size_t and unsigned long arithmetic wraps modulo this. */
  const SIZE_T_MOD: nat := 0x1_0000_0000_0000_0000
  const INT32_MIN: int := -0x8000_0000
  const INT32_MAX: int := 0x7fff_ffff

  predicate IsDigit(c: char) { '0' <= c <= '9' }

  predicate AllDigits(s: string) { forall i :: 0 <= i < |s| ==> IsDigit(s[i]) }

  /** White space as isspace() sees it in the "C" locale. */
  predicate IsSpace(c: char)
  {
    c == ' ' || c == '\t' || c == '\n' || c == '\r' || c == '\U{B}' || c == '\U{C}'
  }

  function DigitChar(d: nat): (c: char)
    requires d < 10
    ensures IsDigit(c)
  {
    ('0' as int + d) as char
  }

  function DigitValue(c: char): (d: nat)
    requires IsDigit(c)
    ensures d < 10 && DigitChar(d) == c
  {
    c as int - '0' as int
  }

  /** std::to_string of a non-negative value: decimal digits without leading zeros. */
  function NatToString(n: nat): (s: string)
    ensures |s| >= 1 && AllDigits(s)
    ensures n > 0 ==> s[0] != '0'
    decreases n
  {
    if n < 10 then [DigitChar(n)] else NatToString(n / 10) + [DigitChar(n % 10)]
  }

  /** std::to_string of a signed value. */
  function IntToString(n: int): (s: string)
    ensures |s| >= 1 && (IsDigit(s[0]) || s[0] == '-')
    ensures ':' !in s
  {
    if n < 0 then "-" + NatToString(-n) else NatToString(n)
  }

  /** The value of a string of decimal digits. */
  function DigitsValue(s: string): nat
    requires AllDigits(s)
  {
    if s == [] then 0 else 10 * DigitsValue(s[..|s| - 1]) + DigitValue(s[|s| - 1])
  }

  lemma {:induction false} NatToStringValue(n: nat)
    ensures DigitsValue(NatToString(n)) == n
    decreases n
  {
    if n >= 10 {
      NatToStringValue(n / 10);
      var s := NatToString(n);
      assert s[..|s| - 1] == NatToString(n / 10);
    }
  }

  /** The length of the run of digits at the front of s. */
  function DigitRun(s: string): (k: nat)
    ensures k <= |s| && AllDigits(s[..k]) && (k < |s| ==> !IsDigit(s[k]))
  {
    if s == [] || !IsDigit(s[0]) then 0
    else
      var k := DigitRun(s[1..]);
      assert s[..k + 1] == [s[0]] + s[1..][..k];
      k + 1
  }

  /** The length of the run of white space at the front of s. */
  function SpaceRun(s: string): (k: nat)
    ensures k <= |s| && (k < |s| ==> !IsSpace(s[k]))
  {
    if s == [] || !IsSpace(s[0]) then 0 else 1 + SpaceRun(s[1..])
  }

  lemma {:induction false} DigitRunOfDigits(s: string)
    requires AllDigits(s)
    ensures DigitRun(s) == |s|
  {
    if s != [] {
      DigitRunOfDigits(s[1..]);
    }
  }

  /** What strtol and strtoul read from the front of a string. */
  datatype Numeral = Numeral(negative: bool, magnitude: nat)

  function ScanNumeral(s: string): Option<Numeral>
  {
    var t := s[SpaceRun(s)..];
    var signed := |t| > 0 && (t[0] == '-' || t[0] == '+');
    var u := if signed then t[1..] else t;
    var k := DigitRun(u);
    if k == 0 then None else Some(Numeral(signed && t[0] == '-', DigitsValue(u[..k])))
  }

  /** std::stoi; None where it throws (no digits, or a value outside int). */
  function Stoi(s: string): (r: Option<int>)
    ensures r.Some? ==> INT32_MIN <= r.value <= INT32_MAX
    ensures r.Some? <==> ScanNumeral(s).Some? && (var n := ScanNumeral(s).value;
                          if n.negative then n.magnitude <= -INT32_MIN else n.magnitude <= INT32_MAX)
  {
    match ScanNumeral(s)
    case None => None
    case Some(n) =>
      var v: int := if n.negative then -(n.magnitude as int) else n.magnitude;
      if INT32_MIN <= v <= INT32_MAX then Some(v) else None
  }

  /** std::stoul; None where it throws. A minus sign negates modulo 2^64, as strtoul does. */
  function Stoul(s: string): (r: Option<nat>)
    ensures r.Some? ==> r.value < SIZE_T_MOD
  {
    match ScanNumeral(s)
    case None => None
    case Some(n) =>
      if n.magnitude >= SIZE_T_MOD then None
      else if n.negative then Some((SIZE_T_MOD - n.magnitude) % SIZE_T_MOD)
      else Some(n.magnitude)
  }

  /** std::stoul succeeds exactly on a number within unsigned long, and reads an unsigned one as it is. */
  lemma StoulReadsNumeral(s: string)
    ensures Stoul(s).Some? <==> ScanNumeral(s).Some? && ScanNumeral(s).value.magnitude < SIZE_T_MOD
    ensures Stoul(s).Some? && !ScanNumeral(s).value.negative ==> Stoul(s).value == ScanNumeral(s).value.magnitude
  {
  }

  /** std::stoul reads back what std::to_string wrote. */
  lemma StoulOfNatToString(n: nat)
    requires n < SIZE_T_MOD
    ensures Stoul(NatToString(n)) == Some(n)
  {
    var s := NatToString(n);
    DigitRunOfDigits(s);
    NatToStringValue(n);
    assert s[SpaceRun(s)..] == s;
    assert s[..|s|] == s;
  }

  /** Leading white space is skipped before the number is read. */
  lemma ScanSkipsSpace(c: char, s: string)
    requires IsSpace(c)
    ensures ScanNumeral([c] + s) == ScanNumeral(s)
  {
    var cs := [c] + s;
    assert cs[1..] == s;
    assert cs[SpaceRun(cs)..] == s[SpaceRun(s)..];
  }

  /** std::stoi reads back what std::to_string wrote. */
  lemma StoiOfIntToString(n: int)
    requires INT32_MIN <= n <= INT32_MAX
    ensures Stoi(IntToString(n)) == Some(n)
  {
    var s := IntToString(n);
    var m: nat := if n < 0 then -n else n;
    var d := NatToString(m);
    DigitRunOfDigits(d);
    NatToStringValue(m);
    assert s[SpaceRun(s)..] == s;
    assert d[..|d|] == d;
    if n < 0 {
      assert s[1..] == d;
    }
  }

  /** part occurs in whole starting at index i. */
  predicate OccursAt(part: string, whole: string, i: int)
  {
    0 <= i <= |whole| - |part| && whole[i..i + |part|] == part
  }

  predicate IsInfix(part: string, whole: string)
  {
    exists i | 0 <= i <= |whole| :: OccursAt(part, whole, i)
  }
}
