/** PHP 8 numeric strings: the strings that PHP's loose comparison `==` reads as
    numbers. The grammar is
      WS* [+-]? (DIGITS | DIGITS? "." DIGITS | DIGITS "." DIGITS?) ([eE] [+-]? DIGITS)? WS*
    where WS is one of space, tab, newline, carriage return, vertical tab, form feed.
    The value is kept exactly, as a signed decimal, not as an IEEE double. */
module NumericStrings {
  import opened Optional

  predicate IsDigit(c: char) {
    '0' <= c <= '9'
  }

  /** The characters PHP skips before and after a numeric string. */
  predicate IsWhitespace(c: char) {
    c == ' ' || c == '\t' || c == '\n' || c == '\r' || c == '\U{0B}' || c == '\U{0C}'
  }

  predicate AllDigits(s: string) {
    forall i :: 0 <= i < |s| ==> IsDigit(s[i])
  }

  predicate AllWhitespace(s: string) {
    forall i :: 0 <= i < |s| ==> IsWhitespace(s[i])
  }

  function DigitValue(c: char): (d: nat)
    requires IsDigit(c)
    ensures d < 10
  {
    c as int - '0' as int
  }

  function DigitChar(d: nat): (c: char)
    requires d < 10
    ensures IsDigit(c) && DigitValue(c) == d
  {
    ('0' as int + d) as char
  }

  /** The natural number a string of decimal digits denotes (leading zeros allowed). */
  function DigitsValue(ds: string): nat
    requires AllDigits(ds)
  {
    if |ds| == 0 then 0 else DigitsValue(ds[..|ds| - 1]) * 10 + DigitValue(ds[|ds| - 1])
  }

  function Pow10(k: nat): (p: nat)
    ensures p >= 1
  {
    if k == 0 then 1 else 10 * Pow10(k - 1)
  }

  /** An exact decimal number: (-1)^negative * mantissa * 10^(-scale). */
  datatype Decimal = Decimal(negative: bool, mantissa: nat, scale: int)

  /** The real number a decimal denotes. */
  ghost function Value(d: Decimal): real
  {
    var magnitude := if d.scale >= 0 then d.mantissa as real / Pow10(d.scale) as real
                     else d.mantissa as real * Pow10(-d.scale) as real;
    if d.negative then -magnitude else magnitude
  }

  /** Exact test for the value 1, on integers only. */
  predicate IsOne(d: Decimal) {
    !d.negative && d.scale >= 0 && d.mantissa == Pow10(d.scale)
  }

  lemma IsOneMeansValueOne(d: Decimal)
    ensures IsOne(d) <==> Value(d) == 1.0
  {
    var x := d.mantissa as real;
    if d.scale >= 0 {
      QuotientIsOne(x, Pow10(d.scale) as real);
    } else {
      PowerProductNotOne(d.mantissa, -d.scale);
    }
  }

  lemma QuotientIsOne(x: real, p: real)
    requires x >= 0.0 && p > 0.0
    ensures x / p >= 0.0
    ensures x / p == 1.0 <==> x == p
  {
    assert (x / p) * p == x;
  }

  /** A natural number times a positive power of ten is never 1. */
  lemma PowerProductNotOne(m: nat, k: nat)
    requires k > 0
    ensures m as real * Pow10(k) as real != 1.0
    ensures m as real * Pow10(k) as real >= 0.0
  {
    var p := Pow10(k);
    assert p == 10 * Pow10(k - 1);
    assert p >= 10;
    assert m == 0 || m * p >= 10;
    assert (m * p) as real == m as real * p as real;
  }

  /** The first index at or after `i` that does not hold a digit. */
  function SpanDigits(s: string, i: nat): (j: nat)
    requires i <= |s|
    ensures i <= j <= |s|
    ensures forall k :: i <= k < j ==> IsDigit(s[k])
    ensures j < |s| ==> !IsDigit(s[j])
    decreases |s| - i
  {
    if i < |s| && IsDigit(s[i]) then SpanDigits(s, i + 1) else i
  }

  /** `s` without its leading whitespace. */
  function TrimLeft(s: string): (t: string)
    ensures |t| <= |s| && t == s[|s| - |t|..]
    ensures AllWhitespace(s[..|s| - |t|])
    ensures |t| > 0 ==> !IsWhitespace(t[0])
  {
    if |s| > 0 && IsWhitespace(s[0]) then TrimLeft(s[1..]) else s
  }

  /** `s` without its trailing whitespace. */
  function TrimRight(s: string): (t: string)
    ensures |t| <= |s| && t == s[..|t|]
    ensures AllWhitespace(s[|t|..])
    ensures |t| > 0 ==> !IsWhitespace(t[|t| - 1])
  {
    if |s| > 0 && IsWhitespace(s[|s| - 1]) then TrimRight(s[..|s| - 1]) else s
  }

  function Trim(s: string): string {
    TrimRight(TrimLeft(s))
  }

  /** The numeric value of `s`, or None when `s` is not a numeric string. A string of
      whitespace alone, the empty string included, is not numeric. */
  function ParseNumeric(s: string): (r: Option<Decimal>)
    ensures AllWhitespace(s) ==> r.None?
  {
    ParseTrimmed(Trim(s))
  }

  /** Reads sign, digits, optional fraction and optional exponent; all of `t` must be used. */
  function ParseTrimmed(t: string): Option<Decimal> {
    var i := SignLength(t);
    var j := SpanDigits(t, i);
    var k := FractionStart(t, j);
    var m := SpanDigits(t, k);
    if (j - i) + (m - k) == 0 then None
    else
      match ParseExponent(t, m)
      case None => None
      case Some(exponent) =>
        Some(Decimal(i == 1 && t[0] == '-', DigitsValue(JoinDigits(t[i..j], t[k..m])), (m - k) - exponent))
  }

  /** 1 when `t` opens with a sign, else 0. */
  function SignLength(t: string): (i: nat)
    ensures i <= |t| && i <= 1
  {
    if |t| > 0 && (t[0] == '+' || t[0] == '-') then 1 else 0
  }

  /** Where the fraction digits start: just after a '.' at `j`, or `j` itself. */
  function FractionStart(t: string, j: nat): (k: nat)
    requires j <= |t|
    ensures j <= k <= |t|
  {
    if j < |t| && t[j] == '.' then j + 1 else j
  }

  /** The integer part and the fraction part, read as one run of digits. */
  function JoinDigits(whole: string, fraction: string): (ds: string)
    requires AllDigits(whole) && AllDigits(fraction)
    ensures AllDigits(ds) && ds == whole + fraction
  {
    var ds := whole + fraction;
    assert forall n :: 0 <= n < |ds| ==> ds[n] == if n < |whole| then whole[n] else fraction[n - |whole|];
    ds
  }

  /** The exponent written from index `m` to the end of `t`: 0 when there is none,
      None when what follows is not `[eE] [+-]? DIGITS`. */
  function ParseExponent(t: string, m: nat): Option<int>
    requires m <= |t|
  {
    if m == |t| then Some(0)
    else if t[m] == 'e' || t[m] == 'E' then
      var p: nat := if m + 1 < |t| && (t[m + 1] == '+' || t[m + 1] == '-') then m + 2 else m + 1;
      var q := SpanDigits(t, p);
      if q == p || q < |t| then None
      else
        assert AllDigits(t[p..q]) by {
          forall n | 0 <= n < q - p ensures IsDigit(t[p..q][n]) { assert t[p..q][n] == t[p + n]; }
        }
        var e: int := DigitsValue(t[p..q]);
        Some(if p == m + 2 && t[m + 1] == '-' then -e else e)
    else None
  }

  /** Decimal digits of `n`, most significant first, without leading zeros. */
  function NatToDecimal(n: nat): (s: string)
    ensures |s| > 0 && AllDigits(s)
    decreases n
  {
    if n < 10 then [DigitChar(n)] else NatToDecimal(n / 10) + [DigitChar(n % 10)]
  }

  /** PHP's `(string)` of an integer. */
  function IntToDecimal(i: int): (s: string)
    ensures |s| > 0
    ensures s[0] == '-' <==> i < 0
    ensures i >= 0 ==> AllDigits(s)
    ensures s == "0" <==> i == 0
  {
    if i < 0 then "-" + NatToDecimal(-i) else NatToDecimal(i)
  }

  // ---------------------------------------------------------------------------
  // Lemmas

  lemma {:induction false} NatToDecimalRoundTrip(n: nat)
    ensures DigitsValue(NatToDecimal(n)) == n
    decreases n
  {
    var s := NatToDecimal(n);
    if n < 10 {
      assert s[..0] == [];
    } else {
      var prefix := NatToDecimal(n / 10);
      assert s == prefix + [DigitChar(n % 10)];
      assert s[..|s| - 1] == prefix;
      NatToDecimalRoundTrip(n / 10);
    }
  }

  lemma {:induction false} SpanToEnd(s: string, i: nat)
    requires i <= |s|
    requires forall k :: i <= k < |s| ==> IsDigit(s[k])
    ensures SpanDigits(s, i) == |s|
    decreases |s| - i
  {
    if i < |s| {
      SpanToEnd(s, i + 1);
    }
  }

  /** A string with no whitespace at either end is its own trimming. */
  lemma TrimUnpadded(s: string)
    requires |s| > 0 && !IsWhitespace(s[0]) && !IsWhitespace(s[|s| - 1])
    ensures Trim(s) == s
  {
  }

  /** A sign (or none) followed by nothing but digits reads as an integer. */
  lemma ParseSignedDigits(t: string)
    requires SignLength(t) < |t|
    requires forall k :: SignLength(t) <= k < |t| ==> IsDigit(t[k])
    ensures AllDigits(t[SignLength(t)..])
    ensures ParseNumeric(t) == Some(Decimal(SignLength(t) == 1 && t[0] == '-', DigitsValue(t[SignLength(t)..]), 0))
  {
    var i := SignLength(t);
    assert !IsWhitespace(t[0]) && !IsWhitespace(t[|t| - 1]);
    TrimUnpadded(t);
    SpanToEnd(t, i);
    assert FractionStart(t, |t|) == |t|;
    assert SpanDigits(t, |t|) == |t|;
    var whole, fraction := t[i..|t|], t[|t|..|t|];
    assert fraction == [];
    assert JoinDigits(whole, fraction) == t[i..];
    assert ParseExponent(t, |t|) == Some(0);
  }

  /** A non-empty run of digits parses to that natural number. */
  lemma ParseUnsigned(ds: string)
    requires |ds| > 0 && AllDigits(ds)
    ensures ParseNumeric(ds) == Some(Decimal(false, DigitsValue(ds), 0))
  {
    assert SignLength(ds) == 0;
    ParseSignedDigits(ds);
    assert ds[0..] == ds;
  }

  /** A minus sign before a non-empty run of digits parses to the negated number. */
  lemma ParseNegative(ds: string)
    requires |ds| > 0 && AllDigits(ds)
    ensures ParseNumeric(['-'] + ds) == Some(Decimal(true, DigitsValue(ds), 0))
  {
    var t := ['-'] + ds;
    assert t[0] == '-' && SignLength(t) == 1;
    assert t[1..] == ds;
    ParseSignedDigits(t);
  }

  lemma DigitsValueSingle(c: char)
    requires IsDigit(c)
    ensures AllDigits([c]) && DigitsValue([c]) == DigitValue(c)
  {
    assert [c][..0] == [];
  }

  lemma ParseSingleDigit(c: char)
    requires IsDigit(c)
    ensures ParseNumeric([c]) == Some(Decimal(false, DigitValue(c), 0))
  {
    DigitsValueSingle(c);
    ParseUnsigned([c]);
  }

  /** Two digits parse to the two-digit number they spell: "01" is 1, "10" is 10. */
  lemma ParseDigitPair(c1: char, c2: char)
    requires IsDigit(c1) && IsDigit(c2)
    ensures ParseNumeric([c1, c2]) == Some(Decimal(false, 10 * DigitValue(c1) + DigitValue(c2), 0))
  {
    var t := [c1, c2];
    assert AllDigits(t);
    assert t[..1] == [c1];
    DigitsValueSingle(c1);
    assert DigitsValue(t) == 10 * DigitValue(c1) + DigitValue(c2);
    ParseUnsigned(t);
  }

  /** One whitespace character before or after a digit is trimmed away: " 1" and "1\n"
      read as "1". */
  lemma PaddedDigit(w: char, c: char)
    requires IsWhitespace(w) && IsDigit(c)
    ensures ParseNumeric([w, c]) == ParseNumeric([c])
    ensures ParseNumeric([c, w]) == ParseNumeric([c])
  {
    assert AllWhitespace([w]);
    assert [w] + [c] + [] == [w, c];
    assert [] + [c] + [w] == [c, w];
    PaddingIgnored([w], [c], []);
    PaddingIgnored([], [c], [w]);
  }

  lemma ParseSignedDigit(sign: char, c: char)
    requires sign == '+' || sign == '-'
    requires IsDigit(c)
    ensures ParseNumeric([sign, c]) == Some(Decimal(sign == '-', DigitValue(c), 0))
  {
    var t := [sign, c];
    assert SignLength(t) == 1;
    assert t[1..] == [c];
    DigitsValueSingle(c);
    ParseSignedDigits(t);
  }

  /** PHP reads back the decimal form of a natural number as that number. */
  lemma NatToDecimalParses(n: nat)
    ensures ParseNumeric(NatToDecimal(n)) == Some(Decimal(false, n, 0))
  {
    ParseUnsigned(NatToDecimal(n));
    NatToDecimalRoundTrip(n);
  }

  /** PHP reads back the decimal form of an integer as that same integer. */
  lemma IntToDecimalParses(i: int)
    ensures ParseNumeric(IntToDecimal(i)) == Some(Decimal(i < 0, if i < 0 then -i else i, 0))
  {
    if i < 0 {
      NegativeToDecimalParses(-i);
    } else {
      NatToDecimalParses(i);
    }
  }

  /** The decimal form of a negative integer, "-" and the digits of its magnitude,
      reads back as that integer. */
  lemma NegativeToDecimalParses(n: nat)
    requires n > 0
    ensures ParseNumeric(IntToDecimal(-(n as int))) == Some(Decimal(true, n, 0))
  {
    var ds := NatToDecimal(n);
    assert IntToDecimal(-(n as int)) == ['-'] + ds;
    ParseNegative(ds);
    NatToDecimalRoundTrip(n);
  }

  lemma IntToDecimalIsOne(i: int)
    ensures IntToDecimal(i) == "1" <==> i == 1
  {
    if i >= 10 {
      assert |NatToDecimal(i)| == |NatToDecimal(i / 10)| + 1;
    }
  }

  lemma {:induction false} DigitsValueZeros(z: string)
    requires forall k :: 0 <= k < |z| ==> z[k] == '0'
    ensures AllDigits(z) && DigitsValue(z) == 0
  {
    if |z| > 0 {
      DigitsValueZeros(z[..|z| - 1]);
    }
  }

  /** Leading zeros do not change the value: "01", "001", ... all denote 1. */
  lemma ZerosThenOne(z: string)
    requires forall k :: 0 <= k < |z| ==> z[k] == '0'
    ensures ParseNumeric(z + "1").Some? && IsOne(ParseNumeric(z + "1").value)
  {
    DigitsValueZeros(z);
    var s := z + "1";
    assert AllDigits(s) by {
      forall k | 0 <= k < |s| ensures IsDigit(s[k]) {
        if k < |z| { assert s[k] == z[k]; } else { assert s[k] == '1'; }
      }
    }
    assert s[..|s| - 1] == z;
    ParseUnsigned(s);
  }

  lemma {:induction false} TrimLeftPrefix(w: string, s: string)
    requires AllWhitespace(w)
    ensures TrimLeft(w + s) == TrimLeft(s)
    decreases |w|
  {
    if |w| > 0 {
      assert (w + s)[1..] == w[1..] + s;
      TrimLeftPrefix(w[1..], s);
    } else {
      assert w + s == s;
    }
  }

  lemma {:induction false} TrimRightSuffix(s: string, w: string)
    requires AllWhitespace(w)
    ensures TrimRight(s + w) == TrimRight(s)
    decreases |w|
  {
    if |w| > 0 {
      assert (s + w)[..|s + w| - 1] == s + w[..|w| - 1];
      TrimRightSuffix(s, w[..|w| - 1]);
    } else {
      assert s + w == s;
    }
  }

  /** Trimming on the left commutes with appending trailing whitespace. */
  lemma {:induction false} TrimLeftSuffix(s: string, w: string)
    requires AllWhitespace(w)
    ensures TrimLeft(s) == "" ==> TrimLeft(s + w) == ""
    ensures TrimLeft(s) != "" ==> TrimLeft(s + w) == TrimLeft(s) + w
    decreases |s|
  {
    if |s| == 0 {
      assert s + w == w;
      TrimLeftPrefix(w, "");
      assert w + "" == w;
    } else if IsWhitespace(s[0]) {
      assert (s + w)[1..] == s[1..] + w;
      TrimLeftSuffix(s[1..], w);
    }
  }

  /** Whitespace around a string does not change whether, or what, it parses to. */
  lemma PaddingIgnored(w1: string, s: string, w2: string)
    requires AllWhitespace(w1) && AllWhitespace(w2)
    ensures ParseNumeric(w1 + s + w2) == ParseNumeric(s)
  {
    assert w1 + s + w2 == w1 + (s + w2);
    TrimLeftPrefix(w1, s + w2);
    TrimLeftSuffix(s, w2);
    if TrimLeft(s) != "" {
      TrimRightSuffix(TrimLeft(s), w2);
    } else {
      assert TrimRight("") == "";
    }
  }
}
