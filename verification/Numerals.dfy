/** JavaScript's `Number.prototype.toString(radix)` and `parseInt` on integers. */
module Numerals {

  const DIGITS: string := "0123456789abcdef"

  function Digit(i: nat): char
    requires i < 16
  {
    DIGITS[i]
  }

  /** A digit's value, in either case; 16 for any other character. */
  function DigitValue(c: char): (v: nat)
    ensures v <= 16
  {
    if '0' <= c <= '9' then c as int - '0' as int
    else if 'a' <= c <= 'f' then c as int - 'a' as int + 10
    else if 'A' <= c <= 'F' then c as int - 'A' as int + 10
    else 16
  }

  datatype Radix = Decimal | Hex

  function Base(r: Radix): nat {
    if r.Decimal? then 10 else 16
  }

  function Quotient(n: nat, r: Radix): nat {
    if r.Decimal? then n / 10 else n / 16
  }

  function Remainder(n: nat, r: Radix): nat {
    if r.Decimal? then n % 10 else n % 16
  }

  /** A numeral's value with one more digit at the end. */
  function Shift(v: nat, d: nat, r: Radix): nat {
    if r.Decimal? then v * 10 + d else v * 16 + d
  }

  /** The numeral of a natural number, no leading zeros. */
  function Numeral(n: nat, r: Radix): (s: string)
    ensures s != [] && AreDigits(s, r)
    ensures n > 0 ==> s[0] != '0'
  {
    DigitValues();
    if n < Base(r) then [Digit(n)] else Numeral(Quotient(n, r), r) + [Digit(Remainder(n, r))]
  }

  lemma DigitValues()
    ensures forall i :: 0 <= i < 16 ==> DigitValue(Digit(i)) == i
    ensures forall i :: 0 < i < 16 ==> Digit(i) != '0'
  {
  }

  predicate AreDigits(s: string, r: Radix) {
    forall i :: 0 <= i < |s| ==> DigitValue(s[i]) < Base(r)
  }

  /** What a string of digits stands for. */
  function ValueOf(s: string, r: Radix): nat {
    if s == [] then 0 else Shift(ValueOf(s[..|s| - 1], r), DigitValue(s[|s| - 1]), r)
  }

  lemma {:induction false} ValueOfNumeral(n: nat, r: Radix)
    ensures ValueOf(Numeral(n, r), r) == n
  {
    DigitValues();
    var s := Numeral(n, r);
    if n < Base(r) {
      assert s[..|s| - 1] == [];
    } else {
      ValueOfNumeral(Quotient(n, r), r);
      assert s[..|s| - 1] == Numeral(Quotient(n, r), r);
    }
  }

  /** The digits a numeral is printed with. */
  predicate IsLower(s: string) {
    forall i :: 0 <= i < |s| ==> !('A' <= s[i] <= 'F')
  }

  lemma LowerDigit(c: char)
    requires DigitValue(c) < 16 && !('A' <= c <= 'F')
    ensures Digit(DigitValue(c)) == c
  {
    assert DIGITS == "0123456789abcdef";
  }

  lemma {:induction false} NumeralIsLower(n: nat, r: Radix)
    ensures IsLower(Numeral(n, r))
  {
    assert forall i :: 0 <= i < 16 ==> !('A' <= Digit(i) <= 'F');
    if n >= Base(r) {
      NumeralIsLower(Quotient(n, r), r);
    }
  }

  lemma {:induction false} ValueIsPositive(s: string, r: Radix)
    requires s != [] && s[0] != '0' && AreDigits(s, r)
    ensures ValueOf(s, r) > 0
  {
    if |s| > 1 {
      ValueIsPositive(s[..|s| - 1], r);
    }
  }

  lemma NumeralOfShift(v: nat, d: nat, r: Radix)
    requires v > 0 && d < Base(r)
    ensures Numeral(Shift(v, d, r), r) == Numeral(v, r) + [Digit(d)]
  {
    var n := Shift(v, d, r);
    assert n >= Base(r) && Quotient(n, r) == v && Remainder(n, r) == d;
  }

  /** The other way around: a numeral without leading zeros is what its value prints as. */
  lemma {:induction false} NumeralOfValue(s: string, r: Radix)
    requires s != [] && AreDigits(s, r) && IsLower(s)
    requires |s| > 1 ==> s[0] != '0'
    ensures Numeral(ValueOf(s, r), r) == s
  {
    var front, last := s[..|s| - 1], s[|s| - 1];
    assert s == front + [last];
    if front == [] {
      NumeralOfDigit(last, r);
      assert s == [last];
    } else {
      ValueIsPositive(front, r);
      NumeralOfValue(front, r);
      NumeralOfSnoc(front, last, r);
    }
  }

  lemma NumeralOfDigit(c: char, r: Radix)
    requires DigitValue(c) < Base(r) && !('A' <= c <= 'F')
    ensures Numeral(ValueOf([c], r), r) == [c]
  {
    LowerDigit(c);
    assert [c][..0] == [];
    assert ValueOf([c], r) == DigitValue(c);
  }

  lemma NumeralOfSnoc(front: string, last: char, r: Radix)
    requires ValueOf(front, r) > 0 && Numeral(ValueOf(front, r), r) == front
    requires DigitValue(last) < Base(r) && !('A' <= last <= 'F')
    ensures Numeral(ValueOf(front + [last], r), r) == front + [last]
  {
    LowerDigit(last);
    var s := front + [last];
    assert s[..|s| - 1] == front;
    NumeralOfShift(ValueOf(front, r), DigitValue(last), r);
  }

  lemma NumeralIsInjective(m: nat, n: nat, r: Radix)
    requires Numeral(m, r) == Numeral(n, r)
    ensures m == n
  {
    ValueOfNumeral(m, r);
    ValueOfNumeral(n, r);
  }

  function Zeros(k: nat): (s: string)
    ensures |s| == k && forall i :: 0 <= i < k ==> s[i] == '0'
  {
    seq(k, _ => '0')
  }

  /** `padStart(width, "0")` */
  function PadStart(s: string, width: nat): string {
    if |s| >= width then s else Zeros(width - |s|) + s
  }

  lemma PadOneMore(s: string, width: nat)
    requires |s| <= width
    ensures PadStart(s, width + 1) == Zeros(1) + PadStart(s, width)
  {
    assert Zeros(width + 1 - |s|) == Zeros(1) + Zeros(width - |s|);
  }

  lemma {:induction false} ZerosAddNothing(k: nat, s: string, r: Radix)
    ensures ValueOf(Zeros(k) + s, r) == ValueOf(s, r)
    decreases |s|, k
  {
    var z := Zeros(k) + s;
    if s != [] {
      assert z[..|z| - 1] == Zeros(k) + s[..|s| - 1];
      ZerosAddNothing(k, s[..|s| - 1], r);
    } else if k > 0 {
      assert z[..|z| - 1] == Zeros(k - 1) + [];
      ZerosAddNothing(k - 1, [], r);
    }
  }

  /** Zeros in front do no more than shorten to the numeral. */
  lemma {:induction false} DigitsArePaddedNumeral(s: string, r: Radix)
    requires s != [] && AreDigits(s, r) && IsLower(s)
    ensures |Numeral(ValueOf(s, r), r)| <= |s|
    ensures PadStart(Numeral(ValueOf(s, r), r), |s|) == s
    decreases |s|
  {
    if |s| == 1 || s[0] != '0' {
      NumeralOfValue(s, r);
    } else {
      DigitsArePaddedNumeral(s[1..], r);
      assert s == Zeros(1) + s[1..];
      ZerosAddNothing(1, s[1..], r);
      PadOneMore(Numeral(ValueOf(s[1..], r), r), |s| - 1);
    }
  }

  // ---------- parseInt ----------

  datatype Number = NaN | Int(value: int)

  predicate IsWhiteSpace(c: char) {
    c as int in {9, 10, 11, 12, 13, 32, 0xA0, 0x1680, 0x2028, 0x2029, 0x202F, 0x205F, 0x3000, 0xFEFF}
        || 0x2000 <= c as int <= 0x200A
  }

  function TrimStart(s: string): string {
    if s != [] && IsWhiteSpace(s[0]) then TrimStart(s[1..]) else s
  }

  /** The longest prefix of digits. */
  function DigitPrefix(s: string, r: Radix): string {
    if s == [] || DigitValue(s[0]) >= Base(r) then [] else [s[0]] + DigitPrefix(s[1..], r)
  }

  lemma {:induction false} DigitPrefixOf(s: string, r: Radix, k: nat)
    requires k <= |s| && AreDigits(s[..k], r) && (k < |s| ==> DigitValue(s[k]) >= Base(r))
    ensures DigitPrefix(s, r) == s[..k]
    decreases k
  {
    if k > 0 {
      assert s[1..][..k - 1] == s[..k][1..];
      assert s[..k][0] == s[0];
      DigitPrefixOf(s[1..], r, k - 1);
    }
  }

  /** What follows the sign: an optional `0x`, then digits, then anything. */
  function ParseMagnitude(s: string): Number {
    var t := if |s| >= 2 && s[0] == '0' && s[1] in {'x', 'X'} then s[2..] else s;
    var digits := DigitPrefix(t, Hex);
    if digits == [] then NaN else Int(ValueOf(digits, Hex))
  }

  function Negated(n: Number): Number {
    if n.NaN? then NaN else Int(-n.value)
  }

  /** `parseInt(s, 16)` */
  function ParseHex(s: string): Number {
    var t := TrimStart(s);
    if t != [] && t[0] == '-' then Negated(ParseMagnitude(t[1..]))
    else if t != [] && t[0] == '+' then ParseMagnitude(t[1..])
    else ParseMagnitude(t)
  }

  lemma MagnitudeOfDigits(s: string)
    requires s != [] && AreDigits(s, Hex)
    ensures ParseMagnitude(s) == Int(ValueOf(s, Hex))
  {
    DigitPrefixOf(s, Hex, |s|);
    assert s[..|s|] == s;
    assert |s| >= 2 ==> DigitValue(s[1]) < 16;
  }

  lemma ParseDigits(s: string)
    requires s != [] && AreDigits(s, Hex)
    ensures ParseMagnitude(s) == Int(ValueOf(s, Hex))
    ensures ParseHex(s) == ParseMagnitude(s)
  {
    MagnitudeOfDigits(s);
    assert DigitValue(s[0]) < 16;
    assert TrimStart(s) == s;
  }
}
