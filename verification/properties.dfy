/** Properties that relate the plugin's operations to each other and to a
    reference model of the settings as a record of two booleans. */
module Properties {
  import opened Optional
  import opened NumericStrings
  import opened PhpValues
  import opened Loader
  import opened Plugin

  // ---------------------------------------------------------------------------
  // Sanitiser

  lemma SanitizeIdempotent(input: Settings)
    ensures Sanitize(Sanitize(input)) == Sanitize(input)
  {
    var once := Sanitize(input);
    assert LooseEqOne(PInt(1)) && !LooseEqOne(PInt(0));
    assert Sanitize(once).Keys == once.Keys;
  }

  /** Each flag is decided by its own input value alone. */
  lemma SanitizeFlagsIndependent(a: Settings, b: Settings, key: string)
    requires key == YoastFlag || key == RankMathFlag
    requires (key in a <==> key in b) && (key in a ==> a[key] == b[key])
    ensures Sanitize(a)[key] == Sanitize(b)[key]
  {
  }

  /** Keys other than the two flags are dropped: changing one never changes the result. */
  lemma SanitizeIgnoresOtherKeys(input: Settings, key: string, v: PhpValue)
    requires key != YoastFlag && key != RankMathFlag
    ensures Sanitize(input[key := v]) == Sanitize(input)
  {
    assert SanitizeFlag(input[key := v], YoastFlag) == SanitizeFlag(input, YoastFlag);
    assert SanitizeFlag(input[key := v], RankMathFlag) == SanitizeFlag(input, RankMathFlag);
  }

  /** A checkbox submitted with any spelling of one ("1", "01", " 1 ") sanitises to 1. */
  lemma SanitizePaddedOne(input: Settings, key: string, w1: string, z: string, w2: string)
    requires key == YoastFlag || key == RankMathFlag
    requires AllWhitespace(w1) && AllWhitespace(w2)
    requires forall k :: 0 <= k < |z| ==> z[k] == '0'
    requires key in input && input[key] == PStr(w1 + (z + "1") + w2)
    ensures Sanitize(input)[key] == PInt(1)
  {
    PaddedOneIsLooseEqOne(w1, z, w2);
  }

  // ---------------------------------------------------------------------------
  // The stored row

  /** The shape every row the plugin itself writes has: no key but the two flags,
      and every value the integer 0 or 1. */
  predicate WellFormed(m: Settings) {
    && m.Keys <= {YoastFlag, RankMathFlag}
    && forall k :: k in m ==> m[k] == PInt(0) || m[k] == PInt(1)
  }

  lemma SanitizeIsWellFormed(input: Settings)
    ensures WellFormed(Sanitize(input))
  {
  }

  /** Activation keeps a well-formed row well-formed, and creates one when none exists. */
  lemma ActivatePreservesWellFormed(yoastActive: bool, rankMathActive: bool, stored: Option<Settings>)
    requires stored.Some? ==> WellFormed(stored.value)
    ensures WellFormed(Activate(yoastActive, rankMathActive, stored))
  {
  }

  /** On a well-formed row the checkbox, the diagnostics line, the exposure decision
      and `== '1'` all agree on each flag. */
  lemma WellFormedViewsAgree(m: Settings, key: string)
    requires WellFormed(m)
    requires key == YoastFlag || key == RankMathFlag
    ensures CheckboxChecked(Some(m), key) <==> !IsEmpty(Lookup(Some(m), key))
    ensures CheckboxChecked(Some(m), key) <==> key in m && LooseEqOne(m[key])
    ensures CheckboxChecked(Some(m), key) <==> key in m && m[key] == PInt(1)
  {
  }

  /** Outside well-formed rows the checkbox and the exposure decision can disagree:
      a stored 2 exposes the fields yet leaves the checkbox unchecked. */
  lemma CheckboxAndExposureDifferOnTwo()
    ensures !CheckboxChecked(Some(map[YoastFlag := PInt(2)]), YoastFlag)
    ensures YoastExposed(Some(map[YoastFlag := PInt(2)]), true)
  {
  }

  // ---------------------------------------------------------------------------
  // Exposure

  lemma FieldListsDistinct()
    ensures forall i, j :: 0 <= i < j < |YoastFields| ==> YoastFields[i] != YoastFields[j]
    ensures forall i, j :: 0 <= i < j < |RankMathFields| ==> RankMathFields[i] != RankMathFields[j]
    ensures forall f :: f in YoastFields ==> f !in RankMathFields
  {
    assert YoastFields[0][1] != RankMathFields[0][1] by { assert YoastFields[0][1] == 'y'; }
    forall f | f in YoastFields ensures f !in RankMathFields {
      assert f[0] == '_';
    }
  }

  /** The registrations hold 0, 3 or 6 fields, and a field is registered exactly when
      its plugin's exposure holds; no other key is ever registered. */
  lemma MetaRegistrationsMembers(options: Option<Settings>, yoastActive: bool, rankMathActive: bool)
    ensures var r := MetaRegistrations(options, yoastActive, rankMathActive);
      && |r| == (if YoastExposed(options, yoastActive) then 3 else 0)
              + (if RankMathExposed(options, rankMathActive) then 3 else 0)
      && (forall f :: f in YoastFields ==> (f in MetaKeys(r) <==> YoastExposed(options, yoastActive)))
      && (forall f :: f in RankMathFields ==> (f in MetaKeys(r) <==> RankMathExposed(options, rankMathActive)))
      && (forall f :: f in MetaKeys(r) ==> f in YoastFields || f in RankMathFields)
  {
    var keys := MetaKeys(MetaRegistrations(options, yoastActive, rankMathActive));
    FieldListsDistinct();
    var y := if YoastExposed(options, yoastActive) then YoastFields else [];
    var m := if RankMathExposed(options, rankMathActive) then RankMathFields else [];
    assert keys == y + m;
    assert forall f :: f in keys <==> f in y || f in m;
  }

  /** No meta key is registered twice. */
  lemma MetaRegistrationsDistinct(options: Option<Settings>, yoastActive: bool, rankMathActive: bool)
    ensures var keys := MetaKeys(MetaRegistrations(options, yoastActive, rankMathActive));
      forall i, j :: 0 <= i < j < |keys| ==> keys[i] != keys[j]
  {
    var keys := MetaKeys(MetaRegistrations(options, yoastActive, rankMathActive));
    FieldListsDistinct();
    var y := if YoastExposed(options, yoastActive) then YoastFields else [];
    var m := if RankMathExposed(options, rankMathActive) then RankMathFields else [];
    assert keys == y + m;
    forall i, j | 0 <= i < j < |keys| ensures keys[i] != keys[j] {
      if j < |y| {
        assert keys[i] == y[i] && keys[j] == y[j];
      } else if i >= |y| {
        assert keys[i] == m[i - |y|] && keys[j] == m[j - |y|];
      } else {
        assert keys[i] == y[i] && keys[j] == m[j - |y|];
        assert y[i] in YoastFields && m[j - |y|] in RankMathFields;
      }
    }
  }

  /** Every Yoast field is registered before every Rank Math field. */
  lemma MetaRegistrationsOrdered(options: Option<Settings>, yoastActive: bool, rankMathActive: bool)
    ensures var keys := MetaKeys(MetaRegistrations(options, yoastActive, rankMathActive));
      forall i, j :: 0 <= i < j < |keys| && keys[i] in RankMathFields ==> keys[j] in RankMathFields
  {
    var keys := MetaKeys(MetaRegistrations(options, yoastActive, rankMathActive));
    FieldListsDistinct();
    var y := if YoastExposed(options, yoastActive) then YoastFields else [];
    var m := if RankMathExposed(options, rankMathActive) then RankMathFields else [];
    assert keys == y + m;
    forall i, j | 0 <= i < j < |keys| ensures keys[i] in RankMathFields ==> keys[j] in RankMathFields {
      if i < |y| {
        assert keys[i] == y[i];
        assert y[i] in YoastFields;
      } else {
        assert keys[j] == m[j - |y|];
      }
    }
  }

  /** Without a stored row nothing is registered, whatever plugins are active. */
  lemma NoRowNoRegistrations(yoastActive: bool, rankMathActive: bool)
    ensures MetaRegistrations(None, yoastActive, rankMathActive) == []
  {
    assert |MetaKeys(MetaRegistrations(None, yoastActive, rankMathActive))| == 0;
  }

  /** After the settings form is saved, a plugin's fields are exposed exactly when the
      plugin is active and the submitted value was set and `== '1'`. */
  lemma SavedFormExposure(input: Settings, yoastActive: bool, rankMathActive: bool)
    ensures YoastExposed(Some(Sanitize(input)), yoastActive)
            <==> yoastActive && YoastFlag in input && input[YoastFlag] != PNull && LooseEqOne(input[YoastFlag])
    ensures RankMathExposed(Some(Sanitize(input)), rankMathActive)
            <==> rankMathActive && RankMathFlag in input && input[RankMathFlag] != PNull && LooseEqOne(input[RankMathFlag])
  {
  }

  /** A fresh activation exposes exactly the fields of the SEO plugins that are active. */
  lemma FreshActivationExposesActivePlugins(yoastActive: bool, rankMathActive: bool)
    ensures MetaKeys(MetaRegistrations(Some(Activate(yoastActive, rankMathActive, None)), yoastActive, rankMathActive))
            == (if yoastActive then YoastFields else []) + (if rankMathActive then RankMathFields else [])
  {
  }

  /** A flag the user switched off stays off when the plugin is re-activated, even
      though the SEO plugin is active and the computed default would be 1. */
  lemma ReactivationKeepsUserChoice(stored: Settings, rankMathActive: bool)
    requires YoastFlag in stored && stored[YoastFlag] == PInt(0)
    ensures Activate(true, rankMathActive, Some(stored))[YoastFlag] == PInt(0)
    ensures !YoastExposed(Some(Activate(true, rankMathActive, Some(stored))), true)
  {
  }

  /** The diagnostics panel reports exposure exactly as registration decides it. */
  lemma DiagnosticsMatchRegistration(options: Option<Settings>, yoastActive: bool, rankMathActive: bool)
    ensures var d := Diagnose(options, yoastActive, rankMathActive);
            var keys := MetaKeys(MetaRegistrations(options, yoastActive, rankMathActive));
            && (d.yoastActive && d.yoastExposureEnabled <==> YoastFields[0] in keys)
            && (d.rankMathActive && d.rankMathExposureEnabled <==> RankMathFields[0] in keys)
  {
    MetaRegistrationsMembers(options, yoastActive, rankMathActive);
  }

  // ---------------------------------------------------------------------------
  // Reference model: the settings as a record of two booleans

  datatype Flags = Flags(exposeYoast: bool, exposeRankMath: bool)

  function Bit(b: bool): PhpValue {
    if b then PInt(1) else PInt(0)
  }

  /** The array the settings form stores for a record of flags. */
  function Encode(f: Flags): (m: Settings)
    ensures WellFormed(m) && m.Keys == {YoastFlag, RankMathFlag}
  {
    map[YoastFlag := Bit(f.exposeYoast), RankMathFlag := Bit(f.exposeRankMath)]
  }

  /** The record the plugin reads from a row: a flag is on when it is non-empty. */
  function Decode(options: Option<Settings>): Flags {
    Flags(!IsEmpty(Lookup(options, YoastFlag)), !IsEmpty(Lookup(options, RankMathFlag)))
  }

  lemma DecodeEncode(f: Flags)
    ensures Decode(Some(Encode(f))) == f
  {
  }

  /** Every sanitised row is the encoding of the record it decodes to. */
  lemma SanitizeIsEncoding(input: Settings)
    ensures Encode(Decode(Some(Sanitize(input)))) == Sanitize(input)
  {
    var r := Sanitize(input);
    var e := Encode(Decode(Some(r)));
    assert forall k :: k in r ==> e[k] == r[k];
  }

  /** Registration depends on the row only through the record it decodes to. */
  lemma RegistrationsFollowFlags(options: Option<Settings>, yoastActive: bool, rankMathActive: bool)
    ensures MetaRegistrations(options, yoastActive, rankMathActive)
            == MetaRegistrations(Some(Encode(Decode(options))), yoastActive, rankMathActive)
  {
  }

  // ---------------------------------------------------------------------------
  // Endpoints and the settings link

  /** Ping treats every caller alike: the corrected callback answers each with status
      "ok", and the written one fails for each in the same way. */
  lemma PingIgnoresCaller(can1: string -> bool, can2: string -> bool, defined: set<string>)
    ensures Respond(PingRoute, can1) == Respond(PingRoute, can2)
    ensures Respond(PingRoute, can1).Json? && Respond(PingRoute, can1).body["status"] == "ok"
    ensures RespondAsWritten(PingRoute, can1, defined) == RespondAsWritten(PingRoute, can2, defined)
    ensures RespondAsWritten(PingRoute, can1, defined) != Forbidden
  {
  }

  /** Both corrected endpoints report the same version string. */
  lemma EndpointsAgreeOnVersion(can: string -> bool)
    requires can(ManageOptions)
    ensures Respond(VersionRoute, can).body["version"] == Respond(PingRoute, can).body["version"] == "1.0.1"
  {
  }

  /** Dropping the first link undoes the prepend, so distinct lists stay distinct. */
  lemma AddSettingsLinkInjective(a: seq<string>, b: seq<string>, caption: string)
    requires AddSettingsLink(a, caption) == AddSettingsLink(b, caption)
    ensures a == b
  {
    assert a == AddSettingsLink(a, caption)[1..];
  }
}
