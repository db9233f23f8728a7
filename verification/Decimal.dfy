/** Decimal text as strconv prints and reads it (FormatInt/FormatUint, ParseInt/ParseUint in base 10). */
module Decimal {

  import opened Basics

  predicate IsDigit(c: char) {
    '0' <= c <= '9'
  }

  predicate AllDigits(s: string) {
    forall i | 0 <= i < |s| :: IsDigit(s[i])
  }

  function DigitChar(d: nat): (c: char)
    requires d < 10
    ensures IsDigit(c)
  {
    '0' + d as char
  }

  function FormatNat(n: nat): (s: string)
    ensures |s| > 0 && AllDigits(s)
  {
    if n < 10 then [DigitChar(n)] else FormatNat(n / 10) + [DigitChar(n % 10)]
  }

  function FormatInt(i: int): (s: string)
    ensures |s| > 0
    ensures forall k | 0 <= k < |s| :: IsDigit(s[k]) || s[k] == '-'
  {
    if i < 0 then "-" + FormatNat(-i) else FormatNat(i)
  }

  /** The value of a digit string, most significant digit first. */
  function DigitsValue(s: string): nat
    requires AllDigits(s)
  {
    if s == [] then 0
    else 10 * DigitsValue(s[..|s| - 1]) + (s[|s| - 1] - '0') as nat
  }

  /** strconv.ParseUint(s, 10, bits) with limit == 2^bits; None stands for a syntax or range error. */
  function ParseUint(s: string, limit: nat): (r: Option<nat>)
    ensures r.Some? ==> r.value < limit
  {
    if s == [] || !AllDigits(s) then None
    else if DigitsValue(s) < limit then Some(DigitsValue(s)) else None
  }

  /** strconv.ParseInt(s, 10, bits) with half == 2^(bits-1). */
  function ParseInt(s: string, half: int): (r: Option<int>)
    requires half > 0
    ensures r.Some? ==> -half <= r.value < half
  {
    if s == [] then None
    else
      var signed := s[0] == '-' || s[0] == '+';
      var digits := if signed then s[1..] else s;
      if digits == [] || !AllDigits(digits) then None
      else
        var v: int := DigitsValue(digits);
        if s[0] == '-' then (if v <= half then Some(-v) else None)
        else if v < half then Some(v) else None
  }

  lemma {:induction false} DigitsOfFormat(n: nat)
    ensures DigitsValue(FormatNat(n)) == n
  {
    if n < 10 {
      assert FormatNat(n)[..0] == "";
    } else {
      DigitsOfFormat(n / 10);
      var s := FormatNat(n);
      assert s[..|s| - 1] == FormatNat(n / 10);
    }
  }

  lemma ParseFormatUint(n: nat, limit: nat)
    requires n < limit
    ensures ParseUint(FormatNat(n), limit) == Some(n)
  {
    DigitsOfFormat(n);
  }

  lemma ParseFormatInt(i: int, half: int)
    requires -half <= i < half
    ensures ParseInt(FormatInt(i), half) == Some(i)
  {
    if i < 0 {
      DigitsOfFormat(-i);
      assert FormatInt(i)[1..] == FormatNat(-i);
    } else {
      DigitsOfFormat(i);
      assert IsDigit(FormatNat(i)[0]);
    }
  }

  /** Different integers print differently. */
  lemma FormatIntInjective(i: int, j: int)
    requires FormatInt(i) == FormatInt(j)
    ensures i == j
  {
    var half := (if i < 0 then -i else i) + (if j < 0 then -j else j) + 1;
    ParseFormatInt(i, half);
    ParseFormatInt(j, half);
  }
}
