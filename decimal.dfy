/**
 * Decimal text of integers, as JavaScript's `Number.prototype.toString()` and
 * `String.prototype.padStart` produce it, together with the value of a digit
 * string so that rendered numbers can be read back.
 */
module Decimal {

  predicate IsDigit(c: char) {
    '0' <= c <= '9'
  }

  predicate AllDigits(s: string) {
    forall i :: 0 <= i < |s| ==> IsDigit(s[i])
  }

  function DigitChar(d: nat): (c: char)
    requires d < 10
    ensures IsDigit(c)
  {
    ('0' as int + d) as char
  }

  function DigitValue(c: char): (d: nat)
    requires IsDigit(c)
    ensures d < 10
  {
    c as int - '0' as int
  }

  /** `n.toString()` for a non-negative integer: no leading zero except for 0 itself. */
  function NatToString(n: nat): (r: string)
    ensures |r| >= 1 && AllDigits(r)
    ensures r[0] == '0' <==> n == 0
    decreases n
  {
    if n < 10 then [DigitChar(n)] else NatToString(n / 10) + [DigitChar(n % 10)]
  }

  /** `i.toString()` for any integer. */
  function IntToString(i: int): (r: string)
    ensures i >= 0 ==> r == NatToString(i)
    ensures i < 0 ==> r == "-" + NatToString(-i)
  {
    if i < 0 then "-" + NatToString(-i) else NatToString(i)
  }

  /** The number a string of decimal digits denotes (leading zeros allowed). */
  function Value(s: string): nat
    requires AllDigits(s)
  {
    if s == [] then 0 else Value(s[..|s| - 1]) * 10 + DigitValue(s[|s| - 1])
  }

  /** Reading back what `NatToString` wrote gives the number again. */
  lemma {:induction false} ValueOfNatToString(n: nat)
    ensures Value(NatToString(n)) == n
    decreases n
  {
    var r := NatToString(n);
    if n >= 10 {
      ValueOfNatToString(n / 10);
      assert r[..|r| - 1] == NatToString(n / 10);
    }
  }

  /** `NatToString` is injective: different numbers never render the same. */
  lemma NatToStringInjective(m: nat, n: nat)
    requires NatToString(m) == NatToString(n)
    ensures m == n
  {
    ValueOfNatToString(m);
    ValueOfNatToString(n);
  }

  /** `s.padStart(width, fill)`: `s` itself when it is already `width` long, else `fill`s in front. */
  function PadStart(s: string, width: nat, fill: char): (r: string)
    ensures |r| == if |s| >= width then |s| else width
    ensures r[|r| - |s|..] == s
    ensures forall i :: 0 <= i < |r| - |s| ==> r[i] == fill
  {
    if |s| >= width then s else seq(width - |s|, _ => fill) + s
  }

  lemma {:induction false} ValueOfZeros(z: string)
    requires forall i :: 0 <= i < |z| ==> z[i] == '0'
    ensures AllDigits(z) && Value(z) == 0
    decreases |z|
  {
    if z != [] {
      ValueOfZeros(z[..|z| - 1]);
    }
  }

  /** Leading zeros do not change the value of a digit string. */
  lemma {:induction false} ValueIgnoresLeadingZeros(z: string, s: string)
    requires forall i :: 0 <= i < |z| ==> z[i] == '0'
    requires AllDigits(s)
    ensures AllDigits(z + s) && Value(z + s) == Value(s)
    decreases |s|
  {
    ValueOfZeros(z);
    assert AllDigits(z + s) by {
      forall i | 0 <= i < |z + s| ensures IsDigit((z + s)[i]) {
        if i < |z| { assert (z + s)[i] == z[i]; } else { assert (z + s)[i] == s[i - |z|]; }
      }
    }
    if s == [] {
      assert z + s == z;
    } else {
      var t := s[..|s| - 1];
      assert (z + s)[..|z + s| - 1] == z + t;
      ValueIgnoresLeadingZeros(z, t);
    }
  }

  /** Zero-padding a rendered number keeps it readable as the same number. */
  lemma PaddedNatValue(n: nat, width: nat)
    ensures AllDigits(PadStart(NatToString(n), width, '0'))
    ensures Value(PadStart(NatToString(n), width, '0')) == n
  {
    var s := NatToString(n);
    var r := PadStart(s, width, '0');
    ValueOfNatToString(n);
    var z := r[..|r| - |s|];
    assert r == z + s;
    ValueIgnoresLeadingZeros(z, s);
  }

  /** A number below 100 has at most two digits, so padding it to two gives exactly two. */
  lemma TwoDigitPadReadsBack(n: nat)
    ensures var t := PadStart(NatToString(n), 2, '0');
      AllDigits(t) && Value(t) == n && |t| >= 2 && (n < 100 ==> |t| == 2)
  {
    PaddedNatValue(n, 2);
    if 10 <= n < 100 {
      assert NatToString(n) == NatToString(n / 10) + [DigitChar(n % 10)];
    }
  }

  /**
   * Digits, one separator character, then two digits: the text splits back
   * into both parts three and two places from its end.
   */
  lemma SplitReadsBack(a: string, sep: string, b: string)
    requires |sep| == 1 && |b| == 2 && AllDigits(a) && AllDigits(b)
    ensures var t := a + sep + b;
      && |t| == |a| + 3 && t[|t| - 3] == sep[0]
      && t[..|t| - 3] == a && t[|t| - 2..] == b
      && AllDigits(t[..|t| - 3]) && AllDigits(t[|t| - 2..])
      && Value(t[..|t| - 3]) == Value(a) && Value(t[|t| - 2..]) == Value(b)
  {
    var t := a + sep + b;
    assert t[..|t| - 3] == a;
    assert t[|t| - 2..] == b;
  }
}
