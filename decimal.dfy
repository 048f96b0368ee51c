/** Python's integer formatting with the `05d` specification, as the snapshot
    file names use it, and its inverse on digit strings. */
module Decimal {

  function DigitChar(d: nat): (c: char)
    requires d < 10
    ensures '0' <= c <= '9'
  {
    (48 + d) as char
  }

  predicate IsDigit(c: char) { '0' <= c <= '9' }

  function DigitValue(c: char): nat
    requires IsDigit(c)
  {
    c as int - 48
  }

  /** The shortest decimal representation of t ("0" for zero). */
  function Digits(t: nat): (s: string)
    ensures |s| > 0
    ensures forall x :: 0 <= x < |s| ==> IsDigit(s[x])
  {
    if t < 10 then [DigitChar(t)] else Digits(t / 10) + [DigitChar(t % 10)]
  }

  /** s padded on the left with '0' to at least w characters. */
  function PadZeros(s: string, w: nat): (r: string)
    ensures |r| == if |s| >= w then |s| else w
    ensures r[|r| - |s|..] == s
    ensures forall x :: 0 <= x < |r| - |s| ==> r[x] == '0'
  {
    if |s| >= w then s else seq(w - |s|, x => '0') + s
  }

  /** f'{t:05d}': zero-padded to five characters, the sign counting as one. */
  function Format05(t: int): (s: string)
    ensures |s| >= 5
  {
    if t >= 0 then PadZeros(Digits(t), 5) else "-" + PadZeros(Digits(-t), 4)
  }

  /** The sign comes first and only for negative t; digits follow. */
  lemma Format05Shape(t: int)
    ensures Format05(t)[0] == '-' <==> t < 0
    ensures forall x :: 0 < x < |Format05(t)| ==> IsDigit(Format05(t)[x])
  {
  }

  /** The number a string of decimal digits denotes. */
  function Value(s: string): nat
    requires forall x :: 0 <= x < |s| ==> IsDigit(s[x])
  {
    if |s| == 0 then 0 else Value(s[..|s| - 1]) * 10 + DigitValue(s[|s| - 1])
  }

  /** Reading back the digits of t gives t. */
  lemma {:induction false} ValueOfDigits(t: nat)
    ensures Value(Digits(t)) == t
  {
    if t >= 10 {
      var s := Digits(t);
      assert s[..|s| - 1] == Digits(t / 10);
      ValueOfDigits(t / 10);
    }
  }

  /** Leading zeros do not change the value of a digit string. */
  lemma {:induction false} ValueIgnoresLeadingZeros(z: nat, s: string)
    requires forall x :: 0 <= x < |s| ==> IsDigit(s[x])
    ensures Value(seq(z, x => '0') + s) == Value(s)
  {
    var zs := seq(z, x => '0');
    if |s| == 0 {
      assert zs + s == zs;
      ZerosHaveNoValue(z);
    } else {
      var init := s[..|s| - 1];
      assert (zs + s)[..|zs + s| - 1] == zs + init;
      ValueIgnoresLeadingZeros(z, init);
    }
  }

  lemma {:induction false} ZerosHaveNoValue(z: nat)
    ensures Value(seq(z, x => '0')) == 0
  {
    if z > 0 {
      assert seq(z, x => '0')[..z - 1] == seq(z - 1, x => '0');
      ZerosHaveNoValue(z - 1);
    }
  }

  /** The format of a non-negative number is all digits and denotes it. */
  lemma Format05Value(t: nat)
    ensures forall x :: 0 <= x < |Format05(t)| ==> IsDigit(Format05(t)[x])
    ensures Value(Format05(t)) == t
  {
    var s := Digits(t);
    ValueOfDigits(t);
    if |s| < 5 {
      assert Format05(t) == seq(5 - |s|, x => '0') + s;
      ValueIgnoresLeadingZeros(5 - |s|, s);
    }
  }

  /** Distinct non-negative numbers have distinct formats. */
  lemma Format05Injective(t1: nat, t2: nat)
    requires Format05(t1) == Format05(t2)
    ensures t1 == t2
  {
    Format05Value(t1);
    Format05Value(t2);
  }

  function Pow10(k: nat): nat
  {
    if k == 0 then 1 else 10 * Pow10(k - 1)
  }

  lemma {:induction false} DigitsShort(t: nat, k: nat)
    requires 0 < k && t < Pow10(k)
    ensures |Digits(t)| <= k
  {
    if t >= 10 {
      assert k > 1;
      DigitsShort(t / 10, k - 1);
    }
  }

  /** Numbers below 100000 take exactly five characters; negative ones start with '-'. */
  lemma Format05Length(t: int)
    ensures 0 <= t < 100000 ==> |Format05(t)| == 5
    ensures t < 0 ==> |Format05(t)| >= 5 && Format05(t)[0] == '-'
  {
    if 0 <= t < 100000 {
      assert Pow10(5) == 100000;
      DigitsShort(t, 5);
    }
  }
}
