/** Decimal text of int64 values: strconv.FormatInt, strconv.Itoa, strconv.ParseInt and strconv.Atoi in base 10. */
module Decimal {
  import opened Jobs
  import Binary64

  predicate IsDigit(c: char) {
    '0' <= c <= '9'
  }

  function DigitValue(c: char): (d: nat)
    requires IsDigit(c)
    ensures d < 10
  {
    c as int - '0' as int
  }

  function DigitChar(d: nat): (c: char)
    requires d < 10
    ensures IsDigit(c) && DigitValue(c) == d
  {
    (d + '0' as int) as char
  }

  function FormatNat(n: nat): (s: string)
    ensures |s| > 0
  {
    if n < 10 then [DigitChar(n)] else FormatNat(n / 10) + [DigitChar(n % 10)]
  }

  function FormatInt(x: int): (s: string)
    ensures s != ""
  {
    if x < 0 then "-" + FormatNat(-x) else FormatNat(x)
  }

  predicate AllDigits(s: string) {
    forall i :: 0 <= i < |s| ==> IsDigit(s[i])
  }

  function NatValue(s: string): (n: int)
    requires AllDigits(s)
    ensures n >= 0
  {
    if s == "" then 0 else 10 * NatValue(s[..|s| - 1]) + DigitValue(s[|s| - 1])
  }

  predicate HasSign(s: string) {
    s != "" && (s[0] == '-' || s[0] == '+')
  }

  /** A sign is optional, at least one digit is not, and the value must fit in an int64. */
  function ParseInt(s: string): (r: Option<int>)
    ensures r.Some? ==> Int64(r.value)
  {
    var digits := if HasSign(s) then s[1..] else s;
    if digits == "" || !AllDigits(digits) then None
    else
      var v: int := if HasSign(s) && s[0] == '-' then -NatValue(digits) else NatValue(digits);
      if Int64(v) then Some(v) else None
  }

  lemma {:induction false} FormatNatParses(n: nat)
    ensures AllDigits(FormatNat(n)) && NatValue(FormatNat(n)) == n
  {
    if n >= 10 {
      FormatNatParses(n / 10);
      var s := FormatNat(n);
      assert s[..|s| - 1] == FormatNat(n / 10);
    }
  }

  /** Printing an integer and reading it back gives the integer, or a range error outside int64. */
  lemma ParseFormat(x: int)
    ensures ParseInt(FormatInt(x)) ==
            if -9223372036854775808 <= x <= 9223372036854775807 then Some(x) else None
  {
    FormatNatParses(if x < 0 then -x else x);
    if x < 0 {
      assert FormatInt(x)[1..] == FormatNat(-x);
    } else {
      assert IsDigit(FormatInt(x)[0]);
    }
  }

  // ----- the text itself

  function Pow10(n: nat): (p: nat)
    ensures p >= 1
  {
    if n == 0 then 1 else 10 * Pow10(n - 1)
  }

  lemma DropDigit(a: nat, d: nat, p: nat)
    requires d < 10 && p >= 1
    ensures (10 * a + d) / (10 * p) == a / p
  {
    Binary64.DivMod(a, p);
    assert (a / p) * (10 * p) == 10 * ((a / p) * p);
    Binary64.DivisionUnique(10 * a + d, 10 * p, a / p, 10 * (a % p) + d);
  }

  /** The digit of a number at place i, which stands for 10^i. */
  function Place(n: nat, i: nat): (d: nat)
    ensures d < 10
  {
    n / Pow10(i) % 10
  }

  lemma NextPlace(a: nat, d: nat, i: nat)
    requires d < 10
    ensures Place(10 * a + d, 0) == d && Place(10 * a + d, i + 1) == Place(a, i)
  {
    DropDigit(a, d, Pow10(i));
  }

  lemma {:induction false} DigitAt(s: string, i: nat)
    requires AllDigits(s) && i < |s|
    ensures DigitValue(s[|s| - 1 - i]) == Place(NatValue(s), i)
  {
    var n := |s| - 1;
    NextPlace(NatValue(s[..n]), DigitValue(s[n]), if i > 0 then i - 1 else 0);
    if i > 0 {
      DigitAt(s[..n], i - 1);
    }
  }

  /** Character codes and places written out. */
  lemma NatValueAt(s: string, i: nat)
    requires AllDigits(s) && i < |s|
    ensures s[|s| - 1 - i] as int == 48 + NatValue(s) / Pow10(i) % 10
  {
    DigitAt(s, i);
  }

  lemma {:induction false} NoLeadingZero(n: nat)
    ensures n == 0 <==> FormatNat(n)[0] == '0'
    ensures n < 10 <==> |FormatNat(n)| == 1
  {
    if n >= 10 {
      NoLeadingZero(n / 10);
    }
  }

  /** Decimal text is canonical: the digits of the number, the highest not zero unless the number is, and a minus sign
      before those of a negative number. */
  lemma FormatCanonical(x: int)
    requires x >= 0
    ensures forall i :: 0 <= i < |FormatInt(x)| ==>
              FormatInt(x)[|FormatInt(x)| - 1 - i] as int == 48 + x / Pow10(i) % 10
    ensures FormatInt(x) != "" && (FormatInt(x)[0] == '0' ==> x == 0 && FormatInt(x) == "0")
    ensures x > 0 ==> FormatInt(-x) == "-" + FormatInt(x)
  {
    FormatNatParses(x);
    NoLeadingZero(x);
    forall i | 0 <= i < |FormatInt(x)|
      ensures FormatInt(x)[|FormatInt(x)| - 1 - i] as int == 48 + x / Pow10(i) % 10
    {
      NatValueAt(FormatNat(x), i);
    }
  }

  predicate Digits(s: string) {
    s != "" && forall i :: 0 <= i < |s| ==> 48 <= s[i] as int <= 57
  }

  /** What is read: digits in any number, leading zeros included, after at most one sign, within the range of int64. */
  lemma ParseMeans(s: string)
    requires Digits(s)
    ensures AllDigits(s)
    ensures var v := NatValue(s);
      && ParseInt(s) == (if v <= 9223372036854775807 then Some(v) else None)
      && ParseInt("+" + s) == (if v <= 9223372036854775807 then Some(v) else None)
      && ParseInt("-" + s) == (if v <= 9223372036854775808 then Some(-v) else None)
  {
    assert ("+" + s)[1..] == s && ("-" + s)[1..] == s;
  }

  lemma NothingElseParses(s: string)
    requires ParseInt(s).Some?
    ensures Digits(s) || (s != "" && (s[0] == '+' || s[0] == '-') && Digits(s[1..]))
  {
  }
}
