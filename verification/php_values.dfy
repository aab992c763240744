/** The PHP values a settings array can hold, and the three PHP operations the
    plugin applies to them: `isset`, loose comparison with the string '1'
    (PHP 8 rules), `empty()`, and the `(string)` cast. */
module PhpValues {
  import opened Optional
  import opened NumericStrings

  datatype PhpValue = PInt(i: int) | PStr(s: string) | PBool(b: bool) | PNull

  /** `isset($a[$k])`, given the array lookup: the key is present and not null. A
      present value loosely equal to '1' always passes, so in `isset(..) && .. == '1'`
      the first test only spares the notice for a missing key. Everything `isset`
      rejects is `empty()`. */
  predicate IsSet(v: Option<PhpValue>)
    ensures v.Some? && LooseEqOne(v.value) ==> IsSet(v)
    ensures !IsSet(v) ==> IsEmpty(v)
  {
    v.Some? && v.value != PNull
  }

  /** `$v == '1'`. An int compares with the number 1, a bool with the truth value of
      '1' (true), null with '' and a string numerically when it is numeric,
      byte by byte otherwise. For every value but a string this is the same as its
      string form being "1"; strings such as "01" or " 1" are where the two differ. */
  predicate LooseEqOne(v: PhpValue)
    ensures !v.PStr? ==> (LooseEqOne(v) <==> StringForm(v) == "1")
  {
    match v
    case PInt(i) => i == 1
    case PBool(b) => b
    case PNull => false
    case PStr(s) =>
      match ParseNumeric(s)
      case Some(d) => IsOne(d)
      case None => s == "1"
  }

  /** `empty($a[$k])`, given the array lookup: missing, null, false, 0, "" and "0".
      A present value is empty exactly when its string form is "" or "0". */
  predicate IsEmpty(v: Option<PhpValue>)
    ensures v.Some? ==> (IsEmpty(v) <==> StringForm(v.value) == "" || StringForm(v.value) == "0")
  {
    match v
    case None => true
    case Some(PNull) => true
    case Some(PBool(b)) => !b
    case Some(PInt(i)) => i == 0
    case Some(PStr(s)) => s == "" || s == "0"
  }

  /** `(string) $v`. An integer's string form is its decimal digits, after a minus
      sign when it is negative, and they read back as the integer. */
  function StringForm(v: PhpValue): (r: string)
    ensures v.PInt? && v.i >= 0 ==> AllDigits(r) && DigitsValue(r) == v.i
    ensures v.PInt? && v.i < 0 ==> |r| > 1 && r[0] == '-' && AllDigits(r[1..]) && DigitsValue(r[1..]) == -v.i
  {
    match v
    case PInt(i) =>
      if i < 0 then
        assert IntToDecimal(i)[1..] == NatToDecimal(-i);
        NatToDecimalRoundTrip(-i);
        IntToDecimal(i)
      else
        NatToDecimalRoundTrip(i);
        IntToDecimal(i)
    case PStr(s) => s
    case PBool(b) => if b then "1" else ""
    case PNull => ""
  }

  // ---------------------------------------------------------------------------
  // Lemmas

  /** The string "1" is numeric, with value one. */
  lemma OneParsesAsOne()
    ensures ParseNumeric("1") == Some(Decimal(false, 1, 0))
  {
    ParseSingleDigit('1');
  }

  /** A string that parses to exactly 1 loosely equals '1'. */
  lemma ParsesAsOne(s: string)
    requires ParseNumeric(s) == Some(Decimal(false, 1, 0))
    ensures LooseEqOne(PStr(s))
  {
    assert IsOne(Decimal(false, 1, 0));
  }

  /** A string loosely equals '1' exactly when it is a numeric string of value 1:
      the byte comparison used for non-numeric strings can never succeed. */
  lemma StringLooseEqOne(s: string)
    ensures LooseEqOne(PStr(s)) <==> ParseNumeric(s).Some? && Value(ParseNumeric(s).value) == 1.0
  {
    OneParsesAsOne();
    if ParseNumeric(s).Some? {
      IsOneMeansValueOne(ParseNumeric(s).value);
    }
  }

  /** Casting to string first never changes the answer of `== '1'`. */
  lemma StringFormKeepsLooseEqOne(v: PhpValue)
    ensures LooseEqOne(PStr(StringForm(v))) <==> LooseEqOne(v)
  {
    match v
    case PInt(i) => IntStringLooseEqOne(i);
    case PBool(b) =>
      OneIsLooseEqOne();
      EmptyIsNotLooseEqOne();
    case PStr(s) =>
    case PNull => EmptyIsNotLooseEqOne();
  }

  /** The decimal form of an integer loosely equals '1' exactly when the integer is 1. */
  lemma IntStringLooseEqOne(i: int)
    ensures LooseEqOne(PStr(IntToDecimal(i))) <==> i == 1
  {
    IntToDecimalParses(i);
    IntToDecimalIsOne(i);
  }

  lemma OneIsLooseEqOne()
    ensures LooseEqOne(PStr("1"))
  {
    OneParsesAsOne();
    ParsesAsOne("1");
  }

  lemma ZeroIsNotLooseEqOne()
    ensures !LooseEqOne(PStr("0"))
  {
    ParseSingleDigit('0');
  }

  /** The empty string is not numeric, and it is not "1". */
  lemma EmptyIsNotLooseEqOne()
    ensures !LooseEqOne(PStr(""))
  {
    assert ParseNumeric("") == None;
  }

  /** The string form of a value is "1" exactly when it is the integer 1, the string "1"
      or true. */
  lemma StringFormIsOne(v: PhpValue)
    ensures StringForm(v) == "1" <==> v == PInt(1) || v == PStr("1") || v == PBool(true)
  {
    if v.PInt? {
      IntToDecimalIsOne(v.i);
    }
  }

  /** Every value loosely equal to '1' is non-empty; the converse fails (2 is non-empty). */
  lemma LooseEqOneIsNonEmpty(v: PhpValue)
    ensures LooseEqOne(v) ==> !IsEmpty(Some(v))
    ensures !LooseEqOne(PInt(2)) && !IsEmpty(Some(PInt(2)))
  {
    if v.PStr? && v.s == "0" {
      ParseSingleDigit('0');
    }
    if v.PStr? && v.s == "" {
      assert ParseNumeric("") == None;
    }
  }

  /** Leading zeros and surrounding whitespace are accepted: "01", " 1", "1 " all
      loosely equal '1'. */
  lemma PaddedOneIsLooseEqOne(w1: string, z: string, w2: string)
    requires AllWhitespace(w1) && AllWhitespace(w2)
    requires forall k :: 0 <= k < |z| ==> z[k] == '0'
    ensures LooseEqOne(PStr(w1 + (z + "1") + w2))
  {
    ZerosThenOne(z);
    PaddingIgnored(w1, z + "1", w2);
  }

}
