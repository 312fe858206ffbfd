/** Decimal text for integers, and the prefix parsers `parseInt` and
    `parseFloat` that the forms apply to their string fields. */
module Text {
  import opened Wrappers

  predicate IsDigit(c: char)
  {
    '0' <= c <= '9'
  }

  predicate AllDigits(s: string)
  {
    forall i :: 0 <= i < |s| ==> IsDigit(s[i])
  }

  function DigitChar(d: nat): (c: char)
    requires d < 10
    ensures IsDigit(c)
  {
    ('0' as int + d) as char
  }

  function DigitValue(c: char): (d: nat)
    requires IsDigit(c)
    ensures d < 10 && DigitChar(d) == c
  {
    c as int - '0' as int
  }

  /** The decimal digits of `n`, most significant first, without leading zeros. */
  function NatToString(n: nat): (s: string)
    ensures |s| > 0 && AllDigits(s)
  {
    if n < 10 then [DigitChar(n)] else NatToString(n / 10) + [DigitChar(n % 10)]
  }

  /** Only zero is written with a leading zero. */
  lemma {:induction false} NatToStringLeadingZero(n: nat)
    ensures NatToString(n)[0] == '0' <==> n == 0
  {
    if n >= 10 {
      NatToStringLeadingZero(n / 10);
      assert NatToString(n)[0] == NatToString(n / 10)[0];
    }
  }

  /** `String(n)` / template interpolation of an integer. */
  function IntToString(n: int): (s: string)
    ensures |s| > 0
    ensures n < 0 <==> s[0] == '-'
  {
    if n < 0 then "-" + NatToString(-n) else NatToString(n)
  }

  /** The value of a run of decimal digits. */
  function DigitsValue(ds: string): nat
    requires AllDigits(ds)
  {
    if ds == [] then 0 else DigitsValue(ds[..|ds| - 1]) * 10 + DigitValue(ds[|ds| - 1])
  }

  lemma {:induction false} NatToStringValue(n: nat)
    ensures DigitsValue(NatToString(n)) == n
  {
    if n >= 10 {
      NatToStringValue(n / 10);
      var s := NatToString(n);
      assert s[..|s| - 1] == NatToString(n / 10);
    }
  }

  /** The longest prefix of `s` made of digits. */
  function LeadingDigits(s: string): (p: string)
    ensures |p| <= |s| && p == s[..|p|] && AllDigits(p)
    ensures |p| < |s| ==> !IsDigit(s[|p|])
  {
    if s != [] && IsDigit(s[0]) then [s[0]] + LeadingDigits(s[1..]) else []
  }

  lemma {:induction false} LeadingDigitsOf(ds: string, rest: string)
    requires AllDigits(ds)
    requires rest == [] || !IsDigit(rest[0])
    ensures LeadingDigits(ds + rest) == ds
  {
    if ds != [] {
      assert (ds + rest)[1..] == ds[1..] + rest;
      LeadingDigitsOf(ds[1..], rest);
    } else {
      assert ds + rest == rest;
    }
  }

  /** A leading '+' or '-' and the text after it, as both parsers read it. */
  function SplitSign(s: string): (r: (bool, string))
    ensures r.1 == if s != [] && (s[0] == '-' || s[0] == '+') then s[1..] else s
    ensures r.0 <==> s != [] && s[0] == '-'
  {
    if s != [] && s[0] == '-' then (true, s[1..])
    else if s != [] && s[0] == '+' then (false, s[1..])
    else (false, s)
  }

  /** `parseInt(s)` for text without leading whitespace or a "0x" prefix
      (the only text the forms give it): an optional sign and the decimal
      digits after it, ignoring whatever follows them; `None` stands for NaN
      (no digit at all). */
  function ParseIntPrefix(s: string): (r: Option<int>)
    ensures r.None? <==> LeadingDigits(SplitSign(s).1) == []
  {
    var (negative, body) := SplitSign(s);
    var ds := LeadingDigits(body);
    if ds == [] then None
    else if negative then Some(0 - DigitsValue(ds) as int)
    else Some(DigitsValue(ds))
  }

  function Pow10(k: nat): (p: nat)
    ensures p >= 1
  {
    if k == 0 then 1 else 10 * Pow10(k - 1)
  }

  /** `parseFloat(s)` for plain decimal text: an optional sign, integer digits and
      an optional '.' with fraction digits, ignoring whatever follows; `None`
      stands for NaN (no digit on either side of the point). */
  function ParseFloatPrefix(s: string): Option<real>
  {
    var (negative, body) := SplitSign(s);
    var whole := LeadingDigits(body);
    var afterWhole := body[|whole|..];
    var fraction := if afterWhole != [] && afterWhole[0] == '.' then LeadingDigits(afterWhole[1..]) else [];
    if whole == [] && fraction == [] then None
    else
      var magnitude := DigitsValue(whole) as real + DigitsValue(fraction) as real / Pow10(|fraction|) as real;
      Some(if negative then -magnitude else magnitude)
  }

  /** `parseInt` reads back every integer written by `String(n)`. */
  lemma ParseIntRoundTrip(n: int)
    ensures ParseIntPrefix(IntToString(n)) == Some(n)
  {
    var m: nat := if n < 0 then -n else n;
    var ds := NatToString(m);
    assert SplitSign(IntToString(n)).1 == ds;
    LeadingDigitsOf(ds, []);
    assert ds + [] == ds;
    NatToStringValue(m);
  }

  /** `parseFloat` reads back every integer written by `String(n)`. */
  lemma ParseFloatOfInt(n: int)
    ensures ParseFloatPrefix(IntToString(n)) == Some(n as real)
  {
    var m: nat := if n < 0 then -n else n;
    var ds := NatToString(m);
    assert SplitSign(IntToString(n)).1 == ds;
    LeadingDigitsOf(ds, []);
    assert ds + [] == ds;
    NatToStringValue(m);
    assert ds[|ds|..] == [];
  }
}
