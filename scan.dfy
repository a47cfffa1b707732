/**
 * The kernel's `sscanf(arg, "%llu", &start)` as the constructor uses it:
 * white space is skipped, at least one decimal digit must follow, the
 * longest run of digits is converted (wrapping modulo 2^64, as the kernel's
 * integer parser does) and whatever follows the digits is ignored.  The call
 * returns 1 exactly when a number was converted; here that is `Some`.
 * Each byte of the argument is read as one `char` (Latin-1), as the kernel's
 * `isspace` tests bytes: a UTF-8 no-break space, the two bytes C2 A0, is two
 * chars and is not skipped as a whole.
 */
module Scan {
  import opened Types

  /** The kernel's `isspace`: tab, line feed, vertical tab, form feed,
      carriage return, space and the Latin-1 no-break space. */
  predicate IsSpace(c: char) {
    ('\t' <= c <= '\r') || c == ' ' || c == '\U{A0}'
  }

  predicate IsDigit(c: char) {
    '0' <= c <= '9'
  }

  function DigitValue(c: char): (d: nat)
    requires IsDigit(c)
    ensures d < 10
  {
    (c as int) - ('0' as int)
  }

  function DigitChar(d: nat): (c: char)
    requires d < 10
    ensures IsDigit(c) && DigitValue(c) == d
  {
    (('0' as int) + d) as char
  }

  /** The suffix of `s` left after its leading white space. */
  function SkipSpaces(s: string): (t: string)
    ensures |t| <= |s|
    ensures t == [] || !IsSpace(t[0])
  {
    if s != [] && IsSpace(s[0]) then SkipSpaces(s[1..]) else s
  }

  /** What `SkipSpaces` drops is white space, and what it keeps is the rest of `s`. */
  lemma {:induction false} SkippedAreSpaces(s: string)
    ensures var t := SkipSpaces(s);
      t == s[|s| - |t|..] && forall i :: 0 <= i < |s| - |t| ==> IsSpace(s[i])
  {
    if s != [] && IsSpace(s[0]) {
      SkippedAreSpaces(s[1..]);
    }
  }

  /** The length of the run of decimal digits that starts `s`. */
  function DigitRun(s: string): (n: nat)
    ensures n <= |s|
    ensures forall i :: 0 <= i < n ==> IsDigit(s[i])
    ensures n == |s| || !IsDigit(s[n])
  {
    if s != [] && IsDigit(s[0]) then 1 + DigitRun(s[1..]) else 0
  }

  predicate AllDigits(s: string) {
    forall i :: 0 <= i < |s| ==> IsDigit(s[i])
  }

  /** The number a string of decimal digits denotes, most significant first. */
  function DecimalValue(ds: string): (n: nat)
    requires AllDigits(ds)
  {
    if ds == [] then 0
    else 10 * DecimalValue(ds[..|ds| - 1]) + DigitValue(ds[|ds| - 1])
  }

  /** `%llu` rendering of a number: its decimal digits, no leading zeros. */
  function Decimal(n: nat): (s: string)
    ensures |s| >= 1 && AllDigits(s)
  {
    if n < 10 then [DigitChar(n)] else Decimal(n / 10) + [DigitChar(n % 10)]
  }

  /** `sscanf(s, "%llu", &v) == 1` with `v` the value stored. */
  function ParseULL(s: string): (r: Option<u64>)
    ensures r.Some? <==> (var t := SkipSpaces(s); t != [] && IsDigit(t[0]))
  {
    var t := SkipSpaces(s);
    var n := DigitRun(t);
    if n == 0 then None else Some(Wrap64(DecimalValue(t[..n])))
  }

  lemma {:induction false} DecimalValueOfDecimal(n: nat)
    ensures DecimalValue(Decimal(n)) == n
  {
    if n >= 10 {
      var s := Decimal(n);
      assert s[..|s| - 1] == Decimal(n / 10);
      DecimalValueOfDecimal(n / 10);
    }
  }

  lemma {:induction false} DigitRunOfDigits(ds: string, rest: string)
    requires AllDigits(ds)
    requires rest == [] || !IsDigit(rest[0])
    ensures DigitRun(ds + rest) == |ds|
  {
    if ds != [] {
      assert (ds + rest)[1..] == ds[1..] + rest;
      DigitRunOfDigits(ds[1..], rest);
    }
  }

  lemma {:induction false} SkipSpacesOfPadding(pad: string, t: string)
    requires forall i :: 0 <= i < |pad| ==> IsSpace(pad[i])
    requires t == [] || !IsSpace(t[0])
    ensures SkipSpaces(pad + t) == t
  {
    if pad != [] {
      assert (pad + t)[1..] == pad[1..] + t;
      SkipSpacesOfPadding(pad[1..], t);
    }
  }

  /** Round trip: a 64-bit number written in decimal, after any white space
      and before anything that is not a digit, is read back unchanged. */
  lemma ParseDecimal(pad: string, n: u64, rest: string)
    requires forall i :: 0 <= i < |pad| ==> IsSpace(pad[i])
    requires rest == [] || !IsDigit(rest[0])
    ensures ParseULL(pad + Decimal(n) + rest) == Some(n)
  {
    var ds := Decimal(n);
    var t := ds + rest;
    assert t[0] == ds[0];
    assert pad + ds + rest == pad + t;
    SkipSpacesOfPadding(pad, t);
    DigitRunOfDigits(ds, rest);
    assert t[..|ds|] == ds;
    DecimalValueOfDecimal(n);
    assert DecimalValue(t[..DigitRun(t)]) == n;
  }

  /** Text that does not start, after white space, with a digit is refused. */
  lemma ParseRejects(pad: string, rest: string)
    requires forall i :: 0 <= i < |pad| ==> IsSpace(pad[i])
    requires rest == [] || (!IsDigit(rest[0]) && !IsSpace(rest[0]))
    ensures ParseULL(pad + rest) == None
  {
    SkipSpacesOfPadding(pad, rest);
  }
}
