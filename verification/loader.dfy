/** The plugin's loader class: its version constant, the two REST endpoints, the
    conditional registration of SEO meta fields, the settings sanitiser, the
    checkbox state of the settings form and the diagnostics panel.

    Host calls are replaced by values: the stored option row is an
    `Option<Settings>` (None when `get_option` finds nothing and returns false),
    "is plugin X active" is a boolean argument, and "does the caller hold
    capability c" is a predicate on capability names. */
module Loader {
  import opened Optional
  import opened PhpValues

  /** A PHP array with string keys, as stored in the `textbulker_settings` option. */
  type Settings = map<string, PhpValue>

  const Version: string := "1.0.1"
  const YoastFlag: string := "expose_yoast"
  const RankMathFlag: string := "expose_rankmath"
  const ManageOptions: string := "manage_options"
  const EditPosts: string := "edit_posts"
  /** The admin page slug given to `add_options_page`. */
  const SettingsPageSlug: string := "textbulker"

  /** `$options[$key]` on what `get_option` returned: a missing row reads as a missing key. */
  function Lookup(options: Option<Settings>, key: string): (v: Option<PhpValue>)
    ensures v.Some? <==> options.Some? && key in options.value
    ensures v.Some? ==> v.value == options.value[key]
  {
    match options
    case None => None
    case Some(m) => if key in m then Some(m[key]) else None
  }

  // ---------------------------------------------------------------------------
  // REST endpoints

  datatype Endpoint = VersionRoute | PingRoute

  datatype Permission = RequiresCapability(capability: string) | Public

  /** A REST reply: refused by the permission callback, a status with a JSON object, or
      the fatal error PHP raises when the callback instantiates a class nobody defined. */
  datatype Response = Forbidden | Json(status: int, body: map<string, string>) | ClassNotFound(className: string)

  function RoutePermission(e: Endpoint): Permission {
    match e
    case VersionRoute => RequiresCapability(ManageOptions)
    case PingRoute => Public
  }

  /** The permission callback: `current_user_can('manage_options')` for `/version`,
      `__return_true` for `/ping`. */
  predicate Permitted(e: Endpoint, can: string -> bool) {
    match RoutePermission(e)
    case Public => true
    case RequiresCapability(c) => can(c)
  }

  /** The namespace the loader file declares. */
  const LoaderNamespace: string := "textbulker\\textbulker"
  /** The response class WordPress defines, in the global namespace. */
  const ResponseClass: string := "WP_REST_Response"

  /** The class a `new Name(...)` inside the loader's namespace refers to. A leading
      backslash makes the name fully qualified; otherwise PHP prefixes the current
      namespace and, unlike for functions, never falls back to the global one: an
      unqualified name always resolves to a longer name that ends with it. */
  function ResolveClass(written: string): (r: string)
    ensures |written| > 0 && written[0] == '\\' ==> "\\" + r == written
    ensures !(|written| > 0 && written[0] == '\\') ==>
              |r| > |written| && r[|r| - |written|..] == written
  {
    if |written| > 0 && written[0] == '\\' then written[1..] else LoaderNamespace + "\\" + written
  }

  /** The reply a callback gives once its response class is found. */
  function Payload(e: Endpoint): (r: Response)
    ensures r.Json? && r.status == 200 && "version" in r.body && r.body["version"] == Version
  {
    match e
    case VersionRoute => Json(200, map["version" := Version])
    case PingRoute => Json(200, map["status" := "ok", "plugin" := "TextBulker", "version" := Version])
  }

  /** A GET on the endpoint when the callback writes `new <written>(...)` and the
      classes in `defined` (fully qualified names) exist. */
  function RespondWith(e: Endpoint, can: string -> bool, written: string, defined: set<string>): (r: Response)
    ensures !Permitted(e, can) <==> r == Forbidden
    ensures r.ClassNotFound? <==> Permitted(e, can) && ResolveClass(written) !in defined
    ensures r.ClassNotFound? ==> r.className == ResolveClass(written)
    ensures r.Json? ==> r == Payload(e)
  {
    if !Permitted(e, can) then Forbidden
    else if ResolveClass(written) in defined then Payload(e)
    else ClassNotFound(ResolveClass(written))
  }

  /** The callbacks as written: an unqualified `new WP_REST_Response(...)`. */
  function RespondAsWritten(e: Endpoint, can: string -> bool, defined: set<string>): (r: Response)
    ensures ResponseClass in defined && LoaderNamespace + "\\" + ResponseClass !in defined ==>
              (r.ClassNotFound? <==> Permitted(e, can))
  {
    RespondWith(e, can, ResponseClass, defined)
  }

  /** What a GET on the endpoint returns to a caller holding the capabilities `can`,
      with the response class written fully qualified, `new \WP_REST_Response(...)`,
      as the callbacks evidently intend. */
  function Respond(e: Endpoint, can: string -> bool): (r: Response)
    ensures e == VersionRoute ==> (r.Json? <==> can(ManageOptions))
    ensures e == PingRoute ==> r.Json?
    ensures !r.ClassNotFound?
    ensures r.Json? ==> r.status == 200 && "version" in r.body && r.body["version"] == Version
    ensures r.Json? && e == PingRoute ==>
              r.body.Keys == {"status", "plugin", "version"}
              && r.body["status"] == "ok" && r.body["plugin"] == "TextBulker"
    ensures r.Json? && e == VersionRoute ==> r.body.Keys == {"version"}
  {
    if Permitted(e, can) then Payload(e) else Forbidden
  }

  /** PHP's name resolution is why the written callbacks fail: the unqualified name
      denotes a class inside the loader's namespace, and only the qualified one
      denotes WordPress's class. */
  lemma UnqualifiedNameMissesGlobalClass()
    ensures ResolveClass(ResponseClass) == LoaderNamespace + "\\" + ResponseClass
    ensures ResolveClass(ResponseClass) != ResponseClass
    ensures ResolveClass("\\" + ResponseClass) == ResponseClass
  {
    var qualified := "\\" + ResponseClass;
    assert qualified[1..] == ResponseClass;
    assert |ResolveClass(ResponseClass)| > |ResponseClass|;
  }

  /** On a WordPress host, which defines only the global class, every permitted request
      to the written callbacks ends in the fatal error, where the corrected reply is a
      200 with the payload; refused requests are refused alike. */
  lemma AsWrittenCallbacksFail(e: Endpoint, can: string -> bool, defined: set<string>)
    requires ResponseClass in defined && LoaderNamespace + "\\" + ResponseClass !in defined
    ensures Permitted(e, can) ==>
              RespondAsWritten(e, can, defined) == ClassNotFound(LoaderNamespace + "\\" + ResponseClass)
              && RespondAsWritten(e, can, defined) != Respond(e, can)
    ensures !Permitted(e, can) ==> RespondAsWritten(e, can, defined) == Respond(e, can) == Forbidden
  {
    UnqualifiedNameMissesGlobalClass();
  }

  /** Qualifying the class name is the whole correction: with WordPress's class defined,
      the fixed callbacks give exactly `Respond`. */
  lemma QualifiedCallbacksRespond(e: Endpoint, can: string -> bool, defined: set<string>)
    requires ResponseClass in defined
    ensures RespondWith(e, can, "\\" + ResponseClass, defined) == Respond(e, can)
  {
    UnqualifiedNameMissesGlobalClass();
  }

  // ---------------------------------------------------------------------------
  // Meta field exposure

  /** The arguments every exposed field is registered with. `authCapability` is the
      capability the `auth_callback` checks, which WordPress consults before it lets a
      REST request add, change or delete the field; reading it is not gated by it. */
  datatype MetaArgs = MetaArgs(valueType: string, single: bool, showInRest: bool, authCapability: string)

  datatype MetaRegistration = MetaRegistration(objectType: string, metaKey: string, args: MetaArgs)

  const ExposedArgs: MetaArgs := MetaArgs("string", true, true, EditPosts)

  const YoastFields: seq<string> := ["_yoast_wpseo_title", "_yoast_wpseo_metadesc", "_yoast_wpseo_focuskw"]
  const RankMathFields: seq<string> := ["rank_math_title", "rank_math_description", "rank_math_focus_keyword"]

  /** One `register_meta('post', $field, ExposedArgs)` per field, in order. */
  function RegisterFields(fields: seq<string>): (r: seq<MetaRegistration>)
    ensures |r| == |fields|
    ensures forall i :: 0 <= i < |r| ==> r[i] == MetaRegistration("post", fields[i], ExposedArgs)
  {
    if |fields| == 0 then [] else [MetaRegistration("post", fields[0], ExposedArgs)] + RegisterFields(fields[1..])
  }

  function MetaKeys(r: seq<MetaRegistration>): (keys: seq<string>)
    ensures |keys| == |r| && forall i :: 0 <= i < |r| ==> keys[i] == r[i].metaKey
  {
    seq(|r|, i requires 0 <= i < |r| => r[i].metaKey)
  }

  /** Yoast's fields are exposed when the flag is non-empty and Yoast is active. A
      missing row or a missing key never exposes them. */
  predicate YoastExposed(options: Option<Settings>, yoastActive: bool)
    ensures YoastExposed(options, yoastActive) ==>
              yoastActive && options.Some? && YoastFlag in options.value
  {
    !IsEmpty(Lookup(options, YoastFlag)) && yoastActive
  }

  /** Rank Math's fields are exposed when Rank Math is active and the flag is non-empty.
      A missing row or a missing key never exposes them. */
  predicate RankMathExposed(options: Option<Settings>, rankMathActive: bool)
    ensures RankMathExposed(options, rankMathActive) ==>
              rankMathActive && options.Some? && RankMathFlag in options.value
  {
    rankMathActive && !IsEmpty(Lookup(options, RankMathFlag))
  }

  /** The `register_meta` calls one run of `maybe_register_meta_fields` makes. */
  function MetaRegistrations(options: Option<Settings>, yoastActive: bool, rankMathActive: bool)
    : (r: seq<MetaRegistration>)
    ensures forall reg :: reg in r ==> reg.objectType == "post" && reg.args == ExposedArgs
    ensures MetaKeys(r) == (if YoastExposed(options, yoastActive) then YoastFields else [])
                         + (if RankMathExposed(options, rankMathActive) then RankMathFields else [])
  {
    var yoast := if !IsEmpty(Lookup(options, YoastFlag)) then
                   (if yoastActive then RegisterFields(YoastFields) else [])
                 else [];
    var rankMath := if rankMathActive && !IsEmpty(Lookup(options, RankMathFlag))
                    then RegisterFields(RankMathFields) else [];
    yoast + rankMath
  }

  // ---------------------------------------------------------------------------
  // Settings sanitiser

  /** One flag of the sanitised array: 1 when the input value is set and `== '1'`, else 0. */
  function SanitizeFlag(input: Settings, key: string): (r: PhpValue)
    ensures r == PInt(0) || r == PInt(1)
    ensures r == PInt(1) <==> key in input && LooseEqOne(input[key])
  {
    var v := if key in input then Some(input[key]) else None;
    if IsSet(v) then (if LooseEqOne(v.value) then PInt(1) else PInt(0))
    else PInt(0)
  }

  /** `textbulker_sanitize_settings`: exactly the two flags, each 0 or 1. */
  function Sanitize(input: Settings): (r: Settings)
    ensures r.Keys == {YoastFlag, RankMathFlag}
    ensures forall k :: k in r ==> r[k] == PInt(0) || r[k] == PInt(1)
    ensures forall k :: k in r ==>
              (r[k] == PInt(1) <==> k in input && input[k] != PNull && LooseEqOne(input[k]))
    ensures forall k :: k in r && (k !in input || input[k] == PNull) ==> r[k] == PInt(0)
  {
    map[YoastFlag := SanitizeFlag(input, YoastFlag), RankMathFlag := SanitizeFlag(input, RankMathFlag)]
  }

  // ---------------------------------------------------------------------------
  // Settings form and diagnostics

  /** The `checked` attribute of a settings checkbox: `checked(1, $options[$key] ?? '')`
      compares the string forms of 1 and of the stored value. */
  function CheckboxChecked(options: Option<Settings>, key: string): (checked: bool)
    ensures checked <==> Lookup(options, key) in {Some(PInt(1)), Some(PStr("1")), Some(PBool(true))}
  {
    var current := match Lookup(options, key)
                   case Some(v) => if v == PNull then PStr("") else v
                   case None => PStr("");
    StringFormIsOne(current);
    StringForm(current) == StringForm(PInt(1))
  }

  /** The four facts the settings page lists under "Diagnostics". */
  datatype Diagnostics = Diagnostics(yoastActive: bool, rankMathActive: bool,
                                     yoastExposureEnabled: bool, rankMathExposureEnabled: bool)

  function Diagnose(options: Option<Settings>, yoastActive: bool, rankMathActive: bool): (d: Diagnostics)
    ensures d.yoastActive == yoastActive && d.rankMathActive == rankMathActive
    ensures d.yoastExposureEnabled <==> !IsEmpty(Lookup(options, YoastFlag))
    ensures d.rankMathExposureEnabled <==> !IsEmpty(Lookup(options, RankMathFlag))
    ensures d.yoastExposureEnabled && d.yoastActive <==> YoastExposed(options, yoastActive)
    ensures d.rankMathExposureEnabled && d.rankMathActive <==> RankMathExposed(options, rankMathActive)
  {
    Diagnostics(yoastActive, rankMathActive,
                !IsEmpty(Lookup(options, YoastFlag)), !IsEmpty(Lookup(options, RankMathFlag)))
  }
}
