/** Decimal rendering of integers, as JavaScript's `Number.prototype.toString()`
    and template literals produce it for the safe integers, those of magnitude at
    most 2^53 - 1 (`Number.MAX_SAFE_INTEGER`), `String.prototype.padStart`, and
    the reading back of such text. */
module Decimal {

  import opened Options

  predicate IsDigit(c: char)
  {
    '0' <= c <= '9'
  }

  predicate AllDigits(s: string)
  {
    forall i :: 0 <= i < |s| ==> IsDigit(s[i])
  }

  function DigitChar(d: nat): (c: char)
    requires d < 10
    ensures IsDigit(c)
  {
    (48 + d) as char
  }

  function DigitValue(c: char): (d: nat)
    requires IsDigit(c)
  {
    c as int - 48
  }

  /** The shortest decimal numeral of `n`, as `n.toString()` renders a safe integer `n`. */
  function NatToString(n: nat): (s: string)
    ensures 1 <= |s| && AllDigits(s)
    ensures (s[0] == '0') == (n == 0)
    ensures n < 10 ==> |s| == 1
    ensures n < 100 ==> |s| <= 2
  {
    if n < 10 then [DigitChar(n)] else NatToString(n / 10) + [DigitChar(n % 10)]
  }

  /** The value of a string of decimal digits (the empty string reads as 0). */
  function ParseDigits(s: string): nat
    requires AllDigits(s)
  {
    if s == [] then 0 else 10 * ParseDigits(s[..|s| - 1]) + DigitValue(s[|s| - 1])
  }

  /** `i.toString()` for a safe integer `i`: a minus sign before negative values. */
  function IntToString(i: int): (s: string)
    ensures 1 <= |s|
    ensures (s[0] == '-') == (i < 0)
  {
    if i < 0 then "-" + NatToString(-i) else NatToString(i)
  }

  /** Reads an optionally signed decimal integer (`+12`, `-3`, `7`). */
  function ParseInteger(s: string): (r: Option<int>)
  {
    if |s| >= 2 && s[0] == '-' && AllDigits(s[1..]) then Some(-(ParseDigits(s[1..]) as int))
    else if |s| >= 2 && s[0] == '+' && AllDigits(s[1..]) then Some(ParseDigits(s[1..]))
    else if |s| >= 1 && AllDigits(s) then Some(ParseDigits(s))
    else None
  }

  /** `s.padStart(width, fill)`: `fill` repeated before `s` up to `width` characters. */
  function PadStart(s: string, width: nat, fill: char): (r: string)
    ensures |r| == if |s| < width then width else |s|
    ensures r[|r| - |s|..] == s
    ensures forall i :: 0 <= i < |r| - |s| ==> r[i] == fill
  {
    if |s| < width then seq(width - |s|, _ => fill) + s else s
  }

  lemma {:induction false} ParseNatToString(n: nat)
    ensures ParseDigits(NatToString(n)) == n
  {
    if n >= 10 {
      ParseNatToString(n / 10);
      var s := NatToString(n);
      assert s[..|s| - 1] == NatToString(n / 10);
    }
  }

  /** Leading zeros do not change the value of a numeral. */
  lemma {:induction false} ParseLeadingZeros(z: string, s: string)
    requires forall i :: 0 <= i < |z| ==> z[i] == '0'
    requires AllDigits(s)
    ensures AllDigits(z + s) && ParseDigits(z + s) == ParseDigits(s)
  {
    if s == [] {
      assert z + s == z;
      ZerosReadAsZero(z);
    } else {
      var t := z + s;
      assert t[..|t| - 1] == z + s[..|s| - 1];
      ParseLeadingZeros(z, s[..|s| - 1]);
    }
  }

  lemma {:induction false} ZerosReadAsZero(z: string)
    requires forall i :: 0 <= i < |z| ==> z[i] == '0'
    ensures AllDigits(z) && ParseDigits(z) == 0
  {
    if z != [] {
      ZerosReadAsZero(z[..|z| - 1]);
    }
  }

  /** Zero-padding a numeral keeps its value. */
  lemma PadStartKeepsValue(n: nat, width: nat)
    ensures AllDigits(PadStart(NatToString(n), width, '0'))
    ensures ParseDigits(PadStart(NatToString(n), width, '0')) == n
  {
    var s := NatToString(n);
    var r := PadStart(s, width, '0');
    ParseNatToString(n);
    if |s| < width {
      var z := seq(width - |s|, _ => '0');
      assert r == z + s;
      ParseLeadingZeros(z, s);
    }
  }

  /** A number below 100, rendered and zero-padded to two places, is its tens digit then its units digit. */
  lemma TwoDigits(m: nat)
    requires m < 100
    ensures PadStart(NatToString(m), 2, '0') == [DigitChar(m / 10), DigitChar(m % 10)]
  {
    if m < 10 {
      assert PadStart(NatToString(m), 2, '0') == ['0'] + [DigitChar(m)];
    } else {
      assert NatToString(m) == [DigitChar(m / 10)] + [DigitChar(m % 10)];
    }
  }

  /** The rendering of every integer reads back as that integer. */
  lemma IntToStringRoundTrip(i: int)
    ensures ParseInteger(IntToString(i)) == Some(i)
  {
    var s := IntToString(i);
    if i < 0 {
      assert s[1..] == NatToString(-i);
      ParseNatToString(-i);
    } else {
      ParseNatToString(i);
    }
  }

  /** A "+" written before a non-negative rendering still reads back as the number. */
  lemma PlusSignedRoundTrip(n: nat)
    ensures ParseInteger("+" + IntToString(n)) == Some(n)
  {
    var s := "+" + IntToString(n);
    assert s[1..] == NatToString(n);
    ParseNatToString(n);
  }
}
