/** Worked examples: concrete form submissions, rows and requests, and a few PHP
    strings on either side of `== '1'`. */
module Scenarios {
  import opened Optional
  import opened NumericStrings
  import opened PhpValues
  import opened Loader
  import opened Plugin

  /** Both boxes unchecked: the form posts nothing and both flags become 0. */
  lemma SanitizeNothingChecked()
    ensures Sanitize(map[]) == map[YoastFlag := PInt(0), RankMathFlag := PInt(0)]
  {
  }

  /** Only the Yoast box checked. */
  lemma SanitizeYoastChecked()
    ensures Sanitize(map[YoastFlag := PStr("1")]) == map[YoastFlag := PInt(1), RankMathFlag := PInt(0)]
  {
    OneIsLooseEqOne();
    assert SanitizeFlag(map[YoastFlag := PStr("1")], YoastFlag) == PInt(1);
  }

  /** A "0" and a "1" posted side by side. */
  lemma SanitizeMixedStrings()
    ensures Sanitize(map[YoastFlag := PStr("0"), RankMathFlag := PStr("1")])
            == map[YoastFlag := PInt(0), RankMathFlag := PInt(1)]
  {
    var zero, one := PStr("0"), PStr("1");
    OneIsLooseEqOne();
    ZeroIsNotLooseEqOne();
    assert SanitizeFlag(map[YoastFlag := zero, RankMathFlag := one], YoastFlag) == PInt(0);
    assert SanitizeFlag(map[YoastFlag := zero, RankMathFlag := one], RankMathFlag) == PInt(1);
  }

  /** Strings PHP 8 reads as the number one. */
  lemma LeadingZeroIsOne()
    ensures LooseEqOne(PStr("01"))
  {
    assert DigitValue('0') == 0 && DigitValue('1') == 1;
    ParseDigitPair('0', '1');
    ParsesAsOne("01");
  }

  lemma LeadingSpaceIsOne()
    ensures LooseEqOne(PStr(" 1"))
  {
    PaddedDigit(' ', '1');
    ParseSingleDigit('1');
    ParsesAsOne(" 1");
  }

  lemma TrailingNewlineIsOne()
    ensures LooseEqOne(PStr("1\n"))
  {
    PaddedDigit('\n', '1');
    ParseSingleDigit('1');
    ParsesAsOne("1\n");
  }

  lemma PlusOneIsOne()
    ensures LooseEqOne(PStr("+1"))
  {
    ParseSignedDigit('+', '1');
    ParsesAsOne("+1");
  }

  /** Values that are not loosely one: words, other numbers, false, 0 and null. */
  lemma WordIsNotOne()
    ensures !LooseEqOne(PStr("on"))
  {
    assert ParseNumeric("on") == None;
  }

  lemma MinusOneIsNotOne()
    ensures !LooseEqOne(PStr("-1"))
  {
    ParseSignedDigit('-', '1');
    assert ParseNumeric("-1") == Some(Decimal(true, 1, 0));
  }

  lemma TenIsNotOne()
    ensures !LooseEqOne(PStr("10"))
  {
    ParseDigitPair('1', '0');
    assert ParseNumeric("10") == Some(Decimal(false, 10, 0));
  }

  lemma ScalarExamples()
    ensures !LooseEqOne(PInt(0)) && !LooseEqOne(PBool(false)) && !LooseEqOne(PNull)
    ensures LooseEqOne(PBool(true)) && LooseEqOne(PInt(1)) && !LooseEqOne(PInt(2))
  {
  }

  /** An administrator and a visitor against both endpoints, corrected and as written
      on a host that defines only WordPress's global response class. */
  lemma EndpointExamples(admin: string -> bool, visitor: string -> bool)
    requires admin(ManageOptions) && !visitor(ManageOptions)
    ensures Respond(VersionRoute, admin) == Json(200, map["version" := "1.0.1"])
    ensures Respond(VersionRoute, visitor) == Forbidden
    ensures Respond(PingRoute, visitor).body["status"] == "ok"
    ensures RespondAsWritten(VersionRoute, admin, {ResponseClass}).ClassNotFound?
    ensures RespondAsWritten(VersionRoute, visitor, {ResponseClass}) == Forbidden
    ensures RespondAsWritten(PingRoute, visitor, {ResponseClass}).ClassNotFound?
  {
    UnqualifiedNameMissesGlobalClass();
  }

  lemma RegistrationExamples()
    ensures MetaRegistrations(Some(map[YoastFlag := PInt(0), RankMathFlag := PInt(0)]), true, true) == []
    ensures MetaKeys(MetaRegistrations(Some(map[YoastFlag := PInt(1), RankMathFlag := PInt(0)]), true, true))
            == YoastFields
    ensures MetaRegistrations(Some(map[YoastFlag := PInt(1), RankMathFlag := PInt(0)]), false, true) == []
  {
    assert |MetaKeys(MetaRegistrations(Some(map[YoastFlag := PInt(0), RankMathFlag := PInt(0)]), true, true))| == 0;
    assert |MetaKeys(MetaRegistrations(Some(map[YoastFlag := PInt(1), RankMathFlag := PInt(0)]), false, true))| == 0;
  }

  lemma ActivationExamples()
    ensures Activate(true, true, None) == map[YoastFlag := PInt(1), RankMathFlag := PInt(1)]
    ensures Activate(true, true, Some(map[YoastFlag := PInt(0)])) == map[YoastFlag := PInt(0), RankMathFlag := PInt(1)]
    ensures Activate(false, false, None) == map[]
  {
  }
}
