/** Decimal rendering of numbers inside f-strings such as `f"Case {i}"`
    and `f"value ({value}) ..."`, with a parser as its inverse. */
module Labels {

  predicate IsDigit(c: char) {
    '0' <= c <= '9'
  }

  function Digit(d: nat): (c: char)
    requires d < 10
    ensures IsDigit(c) && c as int - '0' as int == d
  {
    ('0' as int + d) as char
  }

  function DigitValue(c: char): (d: nat)
    requires IsDigit(c)
    ensures d < 10 && Digit(d) == c
  {
    c as int - '0' as int
  }

  /** Decimal digits of `n`, most significant first, without leading zeros. */
  function NatToString(n: nat): (s: string)
    ensures |s| > 0
    ensures forall k :: 0 <= k < |s| ==> IsDigit(s[k])
    ensures |s| > 1 ==> s[0] != '0'
    decreases n
  {
    if n < 10 then [Digit(n)] else NatToString(n / 10) + [Digit(n % 10)]
  }

  /** Python's `str` of an int: a minus sign before the digits of the magnitude. */
  function IntToString(i: int): (s: string)
    ensures |s| > 0
    ensures (s[0] == '-') <==> i < 0
    ensures i >= 0 ==> (forall k :: 0 <= k < |s| ==> IsDigit(s[k])) && ParseNat(s) == i
    ensures i < 0 ==> (forall k :: 1 <= k < |s| ==> IsDigit(s[k])) && ParseNat(s[1..]) == -i
    ensures i >= 0 && |s| > 1 ==> s[0] != '0'
    ensures i < 0 ==> |s| > 1 && (|s| > 2 ==> s[1] != '0')
  {
    if i < 0 then
      var s := "-" + NatToString(-i);
      assert s[1..] == NatToString(-i);
      ParseNatToString(-i);
      s
    else
      ParseNatToString(i);
      NatToString(i)
  }

  /** Reads a string of decimal digits back as a number. */
  function ParseNat(s: string): (n: nat)
    requires forall k :: 0 <= k < |s| ==> IsDigit(s[k])
    decreases |s|
  {
    if s == [] then 0
    else 10 * ParseNat(s[..|s| - 1]) + DigitValue(s[|s| - 1])
  }

  lemma {:induction false} ParseNatToString(n: nat)
    ensures ParseNat(NatToString(n)) == n
    decreases n
  {
    if n >= 10 {
      var prefix := NatToString(n / 10);
      var s := prefix + [Digit(n % 10)];
      assert s[..|s| - 1] == prefix;
      ParseNatToString(n / 10);
    }
  }

  /** The label of the `i`-th case (counting from 1) on the chart's x axis
      and at the head of its data item. */
  function CaseLabel(i: nat): (caption: string)
    ensures |caption| > 5 && caption[..5] == "Case "
    ensures forall k :: 5 <= k < |caption| ==> IsDigit(caption[k])
    ensures ParseNat(caption[5..]) == i
    ensures |caption| > 6 ==> caption[5] != '0'
  {
    var caption := "Case " + NatToString(i);
    assert caption[5..] == NatToString(i);
    ParseNatToString(i);
    caption
  }

  lemma CaseLabelsDistinct(i: nat, j: nat)
    requires i != j
    ensures CaseLabel(i) != CaseLabel(j)
  {
  }
}
