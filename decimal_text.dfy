/** Decimal text of a natural number, as Swift's string interpolation `"\(n)"`
    writes it, and the reader that recovers the number from a "n: text" label. */
module DecimalText {
  import opened ChatModel

  predicate IsDigit(c: char) {
    '0' <= c <= '9'
  }

  predicate AllDigits(s: string) {
    forall i :: 0 <= i < |s| ==> IsDigit(s[i])
  }

  function DigitValue(c: char): (d: nat)
    requires IsDigit(c)
    ensures d < 10
  {
    c as int - '0' as int
  }

  function DigitChar(d: nat): (c: char)
    requires d < 10
    ensures IsDigit(c) && DigitValue(c) == d
  {
    ('0' as int + d) as char
  }

  /** The decimal digits of `n`, most significant first, without leading zeros. */
  function NatToString(n: nat): (s: string)
    ensures |s| >= 1 && AllDigits(s)
    ensures s[0] == '0' ==> n == 0
    ensures n < 10 <==> |s| == 1
  {
    if n < 10 then [DigitChar(n)] else NatToString(n / 10) + [DigitChar(n % 10)]
  }

  /** The value of a string of decimal digits; the empty string reads as 0. */
  function ParseDecimal(s: string): nat
    requires AllDigits(s)
  {
    if s == [] then 0 else ParseDecimal(s[..|s| - 1]) * 10 + DigitValue(s[|s| - 1])
  }

  lemma {:induction false} ParseNatToString(n: nat)
    ensures ParseDecimal(NatToString(n)) == n
  {
    if n >= 10 {
      var s := NatToString(n);
      assert s[..|s| - 1] == NatToString(n / 10);
      ParseNatToString(n / 10);
    }
  }

  /** Different numbers never share a decimal text. */
  lemma NatToStringInjective(m: nat, n: nat)
    requires NatToString(m) == NatToString(n)
    ensures m == n
  {
    ParseNatToString(m);
    ParseNatToString(n);
  }

  /** The longest prefix of `s` made of digits. */
  function LeadingDigits(s: string): (ds: string)
    ensures ds <= s && AllDigits(ds)
    ensures |ds| < |s| ==> !IsDigit(s[|ds|])
  {
    if s == [] || !IsDigit(s[0]) then [] else [s[0]] + LeadingDigits(s[1..])
  }

  lemma {:induction false} LeadingDigitsOfConcat(ds: string, rest: string)
    requires AllDigits(ds)
    requires rest == [] || !IsDigit(rest[0])
    ensures LeadingDigits(ds + rest) == ds
  {
    if ds != [] {
      assert (ds + rest)[1..] == ds[1..] + rest;
      LeadingDigitsOfConcat(ds[1..], rest);
    }
  }

  /** The label the sample-data generator puts in front of message number `n`. */
  function NumberLabel(n: nat): string {
    NatToString(n) + ": "
  }

  /** Reads a leading "n: " label: the number and the text after the label,
      or None when the text does not start with one. */
  function ReadNumberLabel(text: string): (r: Option<(nat, string)>)
    ensures r.Some? ==> |r.value.1| < |text| && r.value.1 == text[|text| - |r.value.1|..]
  {
    var ds := LeadingDigits(text);
    if ds != [] && |ds| + 2 <= |text| && text[|ds|] == ':' && text[|ds| + 1] == ' ' then
      Some((ParseDecimal(ds), text[|ds| + 2..]))
    else
      None
  }

  /** A labelled text reads back as the number and the original text. */
  lemma NumberLabelRoundTrip(n: nat, text: string)
    ensures ReadNumberLabel(NumberLabel(n) + text) == Some((n, text))
  {
    var s := NatToString(n);
    assert NumberLabel(n) + text == s + (": " + text);
    LeadingDigitsOfConcat(s, ": " + text);
    ParseNatToString(n);
    assert (s + (": " + text))[|s| + 2..] == text;
  }
}
