/** The role colour printer and parser. */
module Color {
  import opened Numerals

  /** `n.toString(16)` */
  function ToString(n: int): string {
    if n < 0 then "-" + Numeral(-n, Hex) else Numeral(n, Hex)
  }

  function NumberToHex(color: int): string {
    "#" + PadStart(ToString(color), 6)
  }

  function IndexOfHash(s: string): (i: nat)
    ensures i <= |s|
    ensures i < |s| ==> s[i] == '#'
    ensures forall k :: 0 <= k < i ==> s[k] != '#'
  {
    if s == [] || s[0] == '#' then 0 else 1 + IndexOfHash(s[1..])
  }

  /** `s.split("#")` */
  function Split(s: string): (parts: seq<string>)
    ensures parts != []
    decreases |s|
  {
    var i := IndexOfHash(s);
    if i == |s| then [s] else [s[..i]] + Split(s[i + 1..])
  }

  /** A missing second part reaches `parseInt` as the word "undefined". */
  function HexToNumber(colorHex: string): Number {
    var parts := Split(colorHex);
    ParseHex(if |parts| > 1 then parts[1] else "undefined")
  }

  lemma SecondPart(s: string)
    requires forall i :: 0 <= i < |s| ==> s[i] != '#'
    ensures HexToNumber("#" + s) == ParseHex(s)
  {
    var t := "#" + s;
    assert IndexOfHash(t) == 0 && t[1..] == s;
    assert IndexOfHash(s) == |s|;
    assert Split(t) == [t[..0], s];
  }

  lemma NoHash()
    ensures ParseHex("undefined") == NaN
  {
    assert DigitPrefix("undefined", Hex) == [];
  }

  lemma {:induction false} NumeralLength(n: nat, k: nat)
    ensures |Numeral(n, Hex)| > k + 1 <==> n >= 16 * Power16(k)
    decreases k
  {
    if n >= 16 && k > 0 {
      NumeralLength(n / 16, k - 1);
    }
  }

  function Power16(k: nat): (p: nat)
    ensures p > 0
  {
    if k == 0 then 1 else 16 * Power16(k - 1)
  }

  /** Printing and parsing gives the colour back for every natural number, and for a negative one exactly
      when it is long enough to need no padding: zeros before the sign hide it from the parser. */
  lemma PrintThenParse(n: int)
    ensures HexToNumber(NumberToHex(n)) == Int(n) <==> n >= 0 || n <= -0x10000
  {
    if n >= 0 {
      PrintThenParseNatural(n);
    } else {
      PrintThenParseNegative(n);
    }
  }

  lemma PrintThenParseNatural(n: nat)
    ensures HexToNumber(NumberToHex(n)) == Int(n)
  {
    ValueOfNumeral(n, Hex);
    ParsePadded(Numeral(n, Hex));
  }

  lemma ParsePadded(s: string)
    requires s != [] && AreDigits(s, Hex)
    ensures HexToNumber("#" + PadStart(s, 6)) == Int(ValueOf(s, Hex))
  {
    PaddingAddsNothing(s);
    ParseAfterHash(PadStart(s, 6));
  }

  lemma PaddingAddsNothing(s: string)
    requires s != [] && AreDigits(s, Hex)
    ensures PadStart(s, 6) != [] && AreDigits(PadStart(s, 6), Hex) && ValueOf(PadStart(s, 6), Hex) == ValueOf(s, Hex)
  {
    if |s| < 6 { ZerosAddNothing(6 - |s|, s, Hex); }
  }

  lemma ParseAfterHash(digits: string)
    requires digits != [] && AreDigits(digits, Hex)
    ensures HexToNumber("#" + digits) == Int(ValueOf(digits, Hex))
  {
    assert forall i :: 0 <= i < |digits| ==> DigitValue(digits[i]) < 16;
    SecondPart(digits);
    ParseDigits(digits);
  }

  lemma FiveDigits(m: nat)
    ensures |Numeral(m, Hex)| >= 5 <==> m >= 0x10000
  {
    NumeralLength(m, 3);
    assert Power16(3) == 16 * Power16(2) == 256 * Power16(1) == 4096;
  }

  lemma PrintThenParseNegative(n: int)
    requires n < 0
    ensures HexToNumber(NumberToHex(n)) == Int(n) <==> n <= -0x10000
  {
    var s := PrintedNegative(n);
    SignedIff(s, n);
  }

  /** How a negative number is printed. */
  lemma PrintedNegative(n: int) returns (s: string)
    requires n < 0
    ensures s != [] && AreDigits(s, Hex) && ValueOf(s, Hex) == -n && (|s| >= 5 <==> n <= -0x10000)
    ensures NumberToHex(n) == "#" + PadStart("-" + s, 6)
  {
    s := DigitsOf(-n);
  }

  lemma DigitsOf(m: nat) returns (s: string)
    ensures s == Numeral(m, Hex) && s != [] && AreDigits(s, Hex) && ValueOf(s, Hex) == m
    ensures |s| >= 5 <==> m >= 0x10000
  {
    FiveDigits(m);
    ValueOfNumeral(m, Hex);
    s := Numeral(m, Hex);
  }

  lemma SignedIff(s: string, n: int)
    requires n < 0 && s != [] && AreDigits(s, Hex) && ValueOf(s, Hex) == -n && (|s| >= 5 <==> n <= -0x10000)
    ensures HexToNumber("#" + PadStart("-" + s, 6)) == Int(n) <==> n <= -0x10000
  {
    ParseSigned(s);
  }

  lemma ParseMinus(s: string)
    requires s != [] && AreDigits(s, Hex)
    ensures HexToNumber("#" + ("-" + s)) == Negated(Int(ValueOf(s, Hex)))
  {
    var t := "-" + s;
    assert forall i :: 0 <= i < |s| ==> DigitValue(s[i]) < 16;
    SecondPart(t);
    assert TrimStart(t) == t && t[1..] == s;
    ParseDigits(s);
  }

  /** With five digits or more the sign comes first; with fewer, the padding does and hides it. */
  lemma ParseSigned(s: string)
    requires s != [] && AreDigits(s, Hex)
    ensures HexToNumber("#" + PadStart("-" + s, 6))
            == if |s| >= 5 then Negated(Int(ValueOf(s, Hex))) else Int(0)
  {
    if |s| >= 5 {
      ParseMinus(s);
      assert PadStart("-" + s, 6) == "-" + s;
    } else {
      SignAfterZeros(s, 5 - |s|);
    }
  }

  lemma SignAfterZeros(s: string, k: nat)
    requires k > 0 && AreDigits(s, Hex) && |s| == 5 - k
    ensures HexToNumber("#" + PadStart("-" + s, 6)) == Int(0)
  {
    var p := Zeros(k) + ("-" + s);
    assert forall i :: 0 <= i < |s| ==> DigitValue(s[i]) < 16;
    SecondPart(p);
    ParseStopsAtSign(p, k);
  }

  lemma ParseStopsAtSign(p: string, k: nat)
    requires 0 < k < |p| && p[..k] == Zeros(k) && p[k] == '-'
    ensures ParseHex(p) == Int(0)
  {
    assert p[0] == p[..k][0] == '0';
    assert k > 1 ==> p[1] == p[..k][1] == '0';
    DigitPrefixOf(p, Hex, k);
    ZerosAddNothing(k, [], Hex);
    assert Zeros(k) + [] == Zeros(k);
  }

  /** Parsing and printing gives a string of hex digits back exactly when it is in lower case and either
      six digits long or longer without a leading zero. */
  lemma ParseThenPrint(d: string)
    requires d != [] && AreDigits(d, Hex)
    ensures HexToNumber("#" + d).Int?
    ensures NumberToHex(HexToNumber("#" + d).value) == "#" + d
            <==> IsLower(d) && (|d| == 6 || (|d| > 6 && d[0] != '0'))
  {
    assert forall i :: 0 <= i < |d| ==> DigitValue(d[i]) < 16;
    SecondPart(d);
    ParseDigits(d);
    var p := PadStart(Numeral(ValueOf(d, Hex), Hex), 6);
    assert "#" + p == "#" + d <==> p == d by { assert ("#" + d)[1..] == d && ("#" + p)[1..] == p; }
    PaddedIff(d);
  }

  lemma PaddedIff(d: string)
    requires d != [] && AreDigits(d, Hex)
    ensures PadStart(Numeral(ValueOf(d, Hex), Hex), 6) == d <==> IsLower(d) && (|d| == 6 || (|d| > 6 && d[0] != '0'))
  {
    var s := Numeral(ValueOf(d, Hex), Hex);
    NumeralIsLower(ValueOf(d, Hex), Hex);
    if IsLower(d) {
      DigitsArePaddedNumeral(d, Hex);
      if |d| > 6 && d[0] != '0' {
        NumeralOfValue(d, Hex);
      } else if |d| > 6 {
        LeadingZeroIsLost(d);
      }
    }
    PaddedToSix(s, d);
  }

  /** `s` is d without its leading zeros, if d is in lower case at all. */
  lemma PaddedToSix(s: string, d: string)
    requires d != [] && IsLower(s)
    requires IsLower(d) ==> |s| <= |d| && PadStart(s, |d|) == d
    requires IsLower(d) && |d| > 6 ==> (|s| == |d| <==> d[0] != '0')
    ensures PadStart(s, 6) == d <==> IsLower(d) && (|d| == 6 || (|d| > 6 && d[0] != '0'))
  {
    assert IsLower(PadStart(s, 6));
  }

  lemma LeadingZeroIsLost(d: string)
    requires |d| > 1 && d[0] == '0' && AreDigits(d, Hex) && IsLower(d)
    ensures |Numeral(ValueOf(d, Hex), Hex)| < |d|
  {
    assert d == Zeros(1) + d[1..];
    ZerosAddNothing(1, d[1..], Hex);
    DigitsArePaddedNumeral(d[1..], Hex);
  }

  /** Without a hash there is no colour to read. */
  lemma HashIsRequired(s: string)
    requires forall i :: 0 <= i < |s| ==> s[i] != '#'
    ensures HexToNumber(s) == NaN
  {
    NoHash();
    assert IndexOfHash(s) == |s|;
  }
}
