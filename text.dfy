/**
 * The text conversions the service relies on: base-10 integer formatting
 * (`strconv.FormatUint`, `strconv.FormatInt` and `fmt`'s `%d`, which all
 * produce the same digits), `strconv.FormatBool`, and `strings.ToLower`
 * restricted to ASCII letters.
 */
module Text {
  import opened Wrappers

  predicate IsDigit(c: char) {
    '0' <= c <= '9'
  }

  predicate AllDigits(s: string) {
    forall i | 0 <= i < |s| :: IsDigit(s[i])
  }

  /** A decimal numeral as Go writes one: digits only, no leading zero except in "0". */
  predicate IsCanonicalDecimal(s: string) {
    |s| > 0 && AllDigits(s) && (s[0] == '0' ==> |s| == 1)
  }

  function DigitChar(d: nat): (c: char)
    requires d < 10
    ensures IsDigit(c)
  {
    ('0' as int + d) as char
  }

  function DigitValue(c: char): (d: nat)
    requires IsDigit(c)
    ensures d < 10 && DigitChar(d) == c
  {
    c as int - '0' as int
  }

  /** The base-10 numeral of n. */
  function NatToDecimal(n: nat): (s: string)
    ensures IsCanonicalDecimal(s)
    ensures n > 0 ==> s[0] != '0'
  {
    if n < 10 then [DigitChar(n)]
    else NatToDecimal(n / 10) + [DigitChar(n % 10)]
  }

  /** The number a string of digits denotes. */
  function DecimalValue(s: string): nat
    requires AllDigits(s)
  {
    if s == [] then 0
    else DecimalValue(s[..|s| - 1]) * 10 + DigitValue(s[|s| - 1])
  }

  lemma {:induction false} DecimalValueOfNatToDecimal(n: nat)
    ensures DecimalValue(NatToDecimal(n)) == n
  {
    if n >= 10 {
      var s := NatToDecimal(n);
      assert s[..|s| - 1] == NatToDecimal(n / 10);
      DecimalValueOfNatToDecimal(n / 10);
    }
  }

  lemma {:induction false} DecimalValuePositive(s: string)
    requires IsCanonicalDecimal(s) && s[0] != '0'
    ensures DecimalValue(s) > 0
  {
    if |s| > 1 {
      var p := s[..|s| - 1];
      assert p[0] == s[0];
      DecimalValuePositive(p);
    }
  }

  lemma {:induction false} NatToDecimalOfDecimalValue(s: string)
    requires IsCanonicalDecimal(s)
    ensures NatToDecimal(DecimalValue(s)) == s
  {
    if |s| > 1 {
      var p := s[..|s| - 1];
      assert p[0] == s[0];
      DecimalValuePositive(p);
      NatToDecimalOfDecimalValue(p);
      var hi, d := DecimalValue(p), DigitValue(s[|s| - 1]);
      assert (hi * 10 + d) / 10 == hi && (hi * 10 + d) % 10 == d;
      assert s == p + [s[|s| - 1]];
    }
  }

  /** Distinct numbers have distinct numerals. */
  lemma NatToDecimalInjective(a: nat, b: nat)
    requires NatToDecimal(a) == NatToDecimal(b)
    ensures a == b
  {
    DecimalValueOfNatToDecimal(a);
    DecimalValueOfNatToDecimal(b);
  }

  /** The base-10 numeral of i, with a leading '-' when i is negative. */
  function IntToDecimal(i: int): (s: string)
  {
    if i < 0 then "-" + NatToDecimal(-i) else NatToDecimal(i)
  }

  /** The inverse of IntToDecimal: accepts exactly the numerals it produces. */
  function ParseDecimal(s: string): Option<int> {
    if |s| > 1 && s[0] == '-' && IsCanonicalDecimal(s[1..]) && s[1] != '0' then Some(0 - DecimalValue(s[1..]))
    else if IsCanonicalDecimal(s) then Some(DecimalValue(s))
    else None
  }

  lemma IntToDecimalRoundTrip(i: int)
    ensures ParseDecimal(IntToDecimal(i)) == Some(i)
  {
    var s := IntToDecimal(i);
    if i < 0 {
      var t := NatToDecimal(-i);
      assert s == "-" + t && s[1..] == t;
      assert |s| > 1 && s[0] == '-' && IsCanonicalDecimal(s[1..]) && s[1] != '0';
      DecimalValueOfNatToDecimal(-i);
    } else {
      assert s[0] != '-' && IsCanonicalDecimal(s);
      DecimalValueOfNatToDecimal(i);
    }
  }

  lemma ParseDecimalRoundTrip(s: string, i: int)
    requires ParseDecimal(s) == Some(i)
    ensures IntToDecimal(i) == s
  {
    if |s| > 1 && s[0] == '-' && IsCanonicalDecimal(s[1..]) && s[1] != '0' {
      NatToDecimalOfDecimalValue(s[1..]);
      DecimalValuePositive(s[1..]);
      assert s == "-" + s[1..];
    } else {
      NatToDecimalOfDecimalValue(s);
    }
  }

  /** Distinct integers render differently. */
  lemma IntToDecimalInjective(a: int, b: int)
    requires IntToDecimal(a) == IntToDecimal(b)
    ensures a == b
  {
    IntToDecimalRoundTrip(a);
    IntToDecimalRoundTrip(b);
  }

  function Pow10(k: nat): (p: nat)
    ensures p >= 1
  {
    if k == 0 then 1 else 10 * Pow10(k - 1)
  }

  /**
   * The numeral of hi * 10^k + lo, where lo has exactly k digits, is the
   * numeral of hi followed by the numeral of lo.
   */
  lemma {:induction false} NatToDecimalSplit(hi: nat, lo: nat, k: nat)
    requires hi > 0 && 0 < k && Pow10(k - 1) <= lo < Pow10(k)
    ensures NatToDecimal(hi * Pow10(k) + lo) == NatToDecimal(hi) + NatToDecimal(lo)
  {
    var n := hi * Pow10(k) + lo;
    if k == 1 {
      assert n / 10 == hi && n % 10 == lo;
    } else {
      assert Pow10(k) == 10 * Pow10(k - 1);
      assert hi * Pow10(k) == (hi * Pow10(k - 1)) * 10;
      assert n / 10 == hi * Pow10(k - 1) + lo / 10 && n % 10 == lo % 10;
      NatToDecimalSplit(hi, lo / 10, k - 1);
    }
  }

  lemma Pow10Values()
    ensures Pow10(4) == 10000 && Pow10(5) == 100000
  {
  }

  /** A numeral assembled from a leading part and a five-digit group. */
  lemma NatToDecimalOfPair(n: nat, a: nat, b: nat)
    requires a > 0 && 10000 <= b < 100000 && n == a * 100000 + b
    ensures NatToDecimal(n) == NatToDecimal(a) + NatToDecimal(b)
  {
    Pow10Values();
    NatToDecimalSplit(a, b, 5);
  }

  /** The text before the first line feed (all of s when there is none). */
  function FirstLine(s: string): (r: string)
    ensures '\n' !in r && r <= s
  {
    if s == [] || s[0] == '\n' then [] else [s[0]] + FirstLine(s[1..])
  }

  lemma {:induction false} FirstLineOfLine(line: string, rest: string)
    requires '\n' !in line
    ensures FirstLine(line + "\n" + rest) == line
  {
    if line != [] {
      assert (line + "\n" + rest)[1..] == line[1..] + "\n" + rest;
      FirstLineOfLine(line[1..], rest);
    }
  }

  lemma IntToDecimalHasNoLineFeed(i: int)
    ensures '\n' !in IntToDecimal(i)
  {
    if i < 0 {
      assert IntToDecimal(i) == "-" + NatToDecimal(-i);
    }
  }

  /** `strconv.FormatBool`. */
  function FormatBool(b: bool): (s: string)
    ensures s == "true" || s == "false"
    ensures b <==> s == "true"
  {
    if b then "true" else "false"
  }

  function LowerChar(c: char): char {
    if 'A' <= c <= 'Z' then (c as int + 32) as char else c
  }

  /** `strings.ToLower` on ASCII letters; other characters are kept. */
  function ToLower(s: string): (r: string)
  {
    seq(|s|, i requires 0 <= i < |s| => LowerChar(s[i]))
  }

  lemma LowerCharIs(c: char, l: char, u: char)
    requires 'a' <= l <= 'z' && u as int == l as int - 32
    ensures LowerChar(c) == l <==> c == l || c == u
  {
  }

  /** A method name selects the get path exactly when it spells "get" in any letter case. */
  lemma ToLowerIsGet(m: string)
    ensures ToLower(m) == "get" <==>
      |m| == 3 && (m[0] == 'g' || m[0] == 'G') && (m[1] == 'e' || m[1] == 'E') && (m[2] == 't' || m[2] == 'T')
  {
    if |m| == 3 {
      var r := ToLower(m);
      LowerCharIs(m[0], 'g', 'G');
      LowerCharIs(m[1], 'e', 'E');
      LowerCharIs(m[2], 't', 'T');
      assert r == "get" <==> r[0] == 'g' && r[1] == 'e' && r[2] == 't';
    }
  }
}
