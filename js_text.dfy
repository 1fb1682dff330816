/**
 * The text JavaScript produces when a template literal interpolates a number
 * (`${n}px`), for the integral values the popover works with, and parsers
 * that read such text back. The parsers are the printers' inverses: each
 * printed form is proved to parse back to exactly the number printed.
 */
module JsText {
  import opened Options

  predicate IsDigit(c: char) { '0' <= c <= '9' }

  predicate AllDigits(s: string) { forall i :: 0 <= i < |s| ==> IsDigit(s[i]) }

  function DigitValue(c: char): nat
    requires IsDigit(c)
  {
    c as int - '0' as int
  }

  function DigitChar(d: nat): (c: char)
    requires d < 10
    ensures IsDigit(c) && DigitValue(c) == d
  {
    ('0' as int + d) as char
  }

  /** Decimal digits of `n`, most significant first, without leading zeros. */
  function NatText(n: nat): (s: string)
    ensures |s| >= 1 && AllDigits(s)
    ensures n > 0 ==> s[0] != '0'
    ensures n == 0 ==> s == "0"
    decreases n
  {
    if n < 10 then [DigitChar(n)] else NatText(n / 10) + [DigitChar(n % 10)]
  }

  /** The value of a string of decimal digits (the empty string reads as 0). */
  function DigitsValue(s: string): nat
    requires AllDigits(s)
    decreases |s|
  {
    if s == [] then 0 else 10 * DigitsValue(s[..|s| - 1]) + DigitValue(s[|s| - 1])
  }

  lemma {:induction false} NatTextValue(n: nat)
    ensures DigitsValue(NatText(n)) == n
    decreases n
  {
    var s := NatText(n);
    if n < 10 {
      assert s[..|s| - 1] == [];
    } else {
      NatTextValue(n / 10);
      assert s[..|s| - 1] == NatText(n / 10);
    }
  }

  /** Reads an optionally negative decimal integer; anything else is None. */
  function ParseInteger(s: string): Option<int> {
    if |s| >= 2 && s[0] == '-' && AllDigits(s[1..]) then Some(-(DigitsValue(s[1..]) as int))
    else if |s| >= 1 && AllDigits(s) then Some(DigitsValue(s))
    else None
  }

  /** `String(n)` for an integral number `n`: a minus sign for negatives, then the digits. */
  function NumberText(n: int): (s: string)
    ensures |s| >= 1
    ensures forall i :: 0 <= i < |s| ==> s[i] == '-' || IsDigit(s[i])
    ensures s[0] == '-' <==> n < 0
    ensures forall i :: 1 <= i < |s| ==> IsDigit(s[i])
    ensures n >= 0 ==> IsDigit(s[0]) && (s[0] == '0' ==> s == "0")
    ensures n < 0 ==> |s| >= 2 && s[1] != '0'
    ensures ParseInteger(s) == Some(n)
  {
    if n < 0 then
      NatTextValue(-n);
      assert ("-" + NatText(-n))[1..] == NatText(-n);
      "-" + NatText(-n)
    else
      NatTextValue(n);
      NatText(n)
  }

  /** The CSS length `${n}px`. */
  function PxText(n: int): string {
    NumberText(n) + "px"
  }

  /** Reads a CSS length written as an integer followed by `px`. */
  function ParsePx(s: string): Option<int> {
    if |s| >= 2 && s[|s| - 2..] == "px" then ParseInteger(s[..|s| - 2]) else None
  }

  lemma PxRoundTrip(n: int)
    ensures ParsePx(PxText(n)) == Some(n)
  {
  }

  /** Index of the first comma of `s`, or `|s|` when there is none. */
  function CommaIndex(s: string): (i: nat)
    ensures i <= |s|
    ensures i < |s| ==> s[i] == ','
    ensures forall j :: 0 <= j < i ==> s[j] != ','
  {
    if s == [] then 0
    else if s[0] == ',' then 0
    else 1 + CommaIndex(s[1..])
  }

  /** The popper.js offset text `${x}px, ${y}px`. */
  function OffsetText(x: int, y: int): string {
    PxText(x) + ", " + PxText(y)
  }

  /** Reads an offset text back into its two components. */
  function ParseOffset(s: string): Option<(int, int)> {
    var i := CommaIndex(s);
    if i + 2 <= |s| && s[i..i + 2] == ", " then
      match (ParsePx(s[..i]), ParsePx(s[i + 2..]))
      case (Some(x), Some(y)) => Some((x, y))
      case _ => None
    else None
  }

  lemma OffsetRoundTrip(x: int, y: int)
    ensures ParseOffset(OffsetText(x, y)) == Some((x, y))
  {
    var a, b := PxText(x), PxText(y);
    var s := OffsetText(x, y);
    assert s == a + ", " + b;
    forall j | 0 <= j < |a|
      ensures s[j] != ','
    {
      assert s[j] == a[j];
      if j < |a| - 2 {
        assert a[j] == NumberText(x)[j];
      }
    }
    assert s[|a|] == ',';
    var i := CommaIndex(s);
    assert i == |a|;
    assert s[..i] == a;
    assert s[i..i + 2] == ", ";
    assert s[i + 2..] == b;
    PxRoundTrip(x);
    PxRoundTrip(y);
  }
}
