# TextBulker settings and exposure logic, in Dafny

TextBulker is a small WordPress plugin. Almost all of it calls straight into
WordPress. This project models the few parts that make decisions of their own,
as pure functions over an explicit settings array and injected host facts:

- **The settings sanitiser** (`textbulker_sanitize_settings`). It turns any
  submitted array into exactly `{expose_yoast, expose_rankmath}` with values 0 or 1.
  It uses PHP's `isset` and PHP 8's *loose* comparison `== '1'`.
- **The exposure decision** (`maybe_register_meta_fields`). It produces the
  ordered `register_meta` calls for the three Yoast fields and the three Rank Math
  fields. A plugin's fields are registered when its flag is not `empty()` and the
  plugin is active.
- **Activation** (`textbulker_activate`). It computes defaults from the active SEO
  plugins, then stores `array_merge($defaults, $existing)`. With string keys this
  is the right-biased map union `defaults + existing`.
- **The settings link** (`textbulker_add_settings_link`). An `array_unshift` of one
  anchor onto the plugin's action links.
- **Smaller pieces**: the version constant, the `/version` and `/ping` REST replies,
  the `checked` state of the two checkboxes, and the four facts of the
  diagnostics panel.

PHP's value semantics are modelled explicitly, because the behaviour depends on them:
- A value is `PInt | PStr | PBool | PNull`.
- `LooseEqOne` is `$v == '1'` under PHP 8 rules. A string is compared numerically
  when it is a numeric string (`NumericStrings.ParseNumeric` implements PHP 8's
  grammar, with surrounding whitespace, sign, fraction and exponent). Otherwise
  it is compared byte by byte.
- `IsEmpty` is `empty()`.
- `StringForm` is the `(string)` cast used by `checked()`.

Host facts become arguments:
- `get_option` returns an `Option<Settings>`, which is None when the row does not exist.
- `is_plugin_active` is a boolean per SEO plugin.
- `current_user_can` is a predicate on capability names.

Modules follow the source:
- `Loader` is `includes/class-textbulker-loader.php`.
- `Plugin` is `textbulker.php`.
- `NumericStrings` and `PhpValues` hold the PHP semantics.
- `Properties` relates the operations to each other and to a reference record of
  two booleans (`Flags`).
- `Scenarios` holds worked examples.

Points of PHP semantics the model takes from the code:
- The sanitiser's test `== '1'` is PHP's loose comparison, after `isset`. So `1`,
  `true`, `"01"`, `" 1"`, `"1\n"` and `"+1"` all sanitise to 1
  (`PhpValues.PaddedOneIsLooseEqOne`, `Scenarios.*IsOne`).
- The stored flag values are the integers 0 and 1, not booleans.
- The activation default for an inactive plugin leaves its key absent
  (`Plugin.ActivationDefaults`).
- The REST callbacks write `new WP_REST_Response(...)` unqualified inside the
  namespace `textbulker\textbulker`, so they name a class nobody defines and fail
  on every permitted request. `Loader.RespondAsWritten` models that;
  `Loader.Respond` is the reply with the class name qualified (see Findings).

## Model

| member | source | states |
|---|---|---|
| `Loader.Lookup` | textbulker/includes/class-textbulker-loader.php:72-74 | `$options[$key]` finds a value iff `get_option` returned a row and the row has the key, and then it is that entry. A missing row reads like a missing key |
| `Loader.ResolveClass` | textbulker/includes/class-textbulker-loader.php:6-51 | a class name with a leading backslash names the class without that backslash. Any other name resolves to a strictly longer name that ends with it, so it never names a global class of the same spelling |
| `Loader.Respond` | textbulker/includes/class-textbulker-loader.php:38-58 | the corrected reply, with `\WP_REST_Response` qualified. `/version` answers exactly when the caller holds `manage_options`, with body `{version: "1.0.1"}`. `/ping` always answers, with `{status: "ok", plugin: "TextBulker", version: "1.0.1"}`. Both use status 200 and never hit a missing class |
| `Loader.RespondWith` | textbulker/includes/class-textbulker-loader.php:6-58 | a request is refused iff the permission callback says no. A permitted request fails with the missing class exactly when the class name, resolved in the loader's namespace, is not defined. Otherwise it gets the payload |
| `Loader.RespondAsWritten` | textbulker/includes/class-textbulker-loader.php:38-58 | on a host that defines only the global `WP_REST_Response`, the written callbacks fail with a missing class exactly on the permitted requests |
| `Loader.Payload` | textbulker/includes/class-textbulker-loader.php:41-55 | each reply has status 200 and reports the version "1.0.1" |
| `Loader.UnqualifiedNameMissesGlobalClass` | textbulker/includes/class-textbulker-loader.php:6-51 | the unqualified `WP_REST_Response` resolves to `textbulker\textbulker\WP_REST_Response`, which differs from the global class; the qualified `\WP_REST_Response` resolves to the global class |
| `Loader.AsWrittenCallbacksFail` | textbulker/includes/class-textbulker-loader.php:38-58 | on a WordPress host, every permitted request to the written callbacks ends in the missing-class error and differs from the corrected reply. Refused requests are refused by both |
| `Loader.QualifiedCallbacksRespond` | textbulker/includes/class-textbulker-loader.php:38-58 | with WordPress's class defined, the callbacks with the qualified class name give exactly `Respond` |
| `Loader.YoastExposed` | textbulker/includes/class-textbulker-loader.php:74-75 | Yoast's fields can only be exposed when Yoast is active and a row holding `expose_yoast` is stored |
| `Loader.RankMathExposed` | textbulker/includes/class-textbulker-loader.php:89 | Rank Math's fields can only be exposed when Rank Math is active and a row holding `expose_rankmath` is stored |
| `Loader.RegisterFields` | textbulker/includes/class-textbulker-loader.php:76-85 | one `post`-scoped registration per field, in the list's order, each with type string, single, shown in REST and an `edit_posts` check |
| `Loader.MetaRegistrations` | textbulker/includes/class-textbulker-loader.php:70-101 | every registration uses the fixed arguments. The registered keys are Yoast's three fields when `expose_yoast` is non-empty and Yoast is active, followed by Rank Math's three when Rank Math is active and `expose_rankmath` is non-empty |
| `Loader.SanitizeFlag` | textbulker/includes/class-textbulker-loader.php:145-149 | one sanitised flag is 0 or 1. It is 1 iff the input has the key and its value is loosely equal to '1'. Since null never equals '1', the `isset` test changes no outcome |
| `Loader.Sanitize` | textbulker/includes/class-textbulker-loader.php:141-159 | the output has exactly the keys `expose_yoast` and `expose_rankmath`. Each value is 0 or 1. A key is 1 iff the input has it, it is not null and it is loosely equal to '1'. A missing or null key gives 0 |
| `Loader.CheckboxChecked` | textbulker/includes/class-textbulker-loader.php:130-138 | a checkbox is checked exactly when the stored value is the integer 1, the string "1" or true, because `checked()` compares string forms |
| `Loader.Diagnose` | textbulker/includes/class-textbulker-loader.php:175-179 | the two "active" lines show the plugins' activity, and each "exposure enabled" line shows whether that flag is non-empty, each decided on its own. "Enabled" and "active" hold together for a plugin exactly when its fields are exposed |
| `Plugin.ActivationDefaults` | textbulker/textbulker.php:22-30 | the `expose_yoast` key is present iff Yoast is active, and `expose_rankmath` iff Rank Math is active. Every present value is 1 and there are no other keys |
| `Plugin.StoredOrEmpty` | textbulker/textbulker.php:32 | `get_option(..., [])` gives the stored row when there is one and the empty array otherwise |
| `Plugin.Activate` | textbulker/textbulker.php:21-34 | the stored keys are the union of the defaults' and the existing keys. Every existing value is kept. A key found only in the defaults takes the default 1. With no existing row the result is the defaults |
| `Plugin.ActivateIdempotent` | textbulker/textbulker.php:21-34 | activating twice with the same plugins active stores the same row as activating once |
| `Plugin.SettingsLink` | textbulker/textbulker.php:37 | the link opens with an anchor to `options-general.php?page=textbulker`, closes with `</a>`, and the caption is exactly the text between them |
| `Plugin.AddSettingsLink` | textbulker/textbulker.php:36-40 | the result is one longer than the input. Element 0 is the settings link to the `textbulker` options page. The remaining elements are the input, in order |
| `NumericStrings.ParseNumeric` | textbulker/includes/class-textbulker-loader.php:146 | the empty string and strings of whitespace alone are not numeric, so they are compared with '1' byte by byte |
| `NumericStrings.IntToDecimal` | textbulker/includes/class-textbulker-loader.php:132 | the string form of an integer is non-empty. It starts with a minus sign iff the integer is negative, is all digits otherwise, and is "0" iff the integer is 0 |
| `NumericStrings.IsOneMeansValueOne` | textbulker/includes/class-textbulker-loader.php:146 | the integer-only test used for "equals one" agrees with the parsed decimal's real value being 1 |
| `NumericStrings.ParseSignedDigits` | textbulker/includes/class-textbulker-loader.php:146 | a string of digits after an optional sign is numeric, with the sign and the digits' value |
| `NumericStrings.ParseUnsigned` | textbulker/includes/class-textbulker-loader.php:146 | a non-empty run of digits is a numeric string whose value is the number the digits spell |
| `NumericStrings.ParseNegative` | textbulker/includes/class-textbulker-loader.php:146 | a minus sign before a non-empty run of digits gives the negated number |
| `NumericStrings.ParseSingleDigit` | textbulker/includes/class-textbulker-loader.php:146 | a single digit is numeric, with that digit's value |
| `NumericStrings.ParseSignedDigit` | textbulker/includes/class-textbulker-loader.php:146 | "+d" and "-d" are numeric, positive and negative with the value of d |
| `NumericStrings.ParseDigitPair` | textbulker/includes/class-textbulker-loader.php:146 | two digits are numeric, with the two-digit value they spell, leading zero included |
| `NumericStrings.PaddedDigit` | textbulker/includes/class-textbulker-loader.php:146 | one whitespace character before or after a digit leaves it numeric with the same value |
| `NumericStrings.PaddingIgnored` | textbulker/includes/class-textbulker-loader.php:146 | whitespace before and after a string changes neither whether it is numeric nor its value |
| `NumericStrings.ZerosThenOne` | textbulker/includes/class-textbulker-loader.php:146 | "1" preceded by any number of zeros is numeric with value 1 |
| `NumericStrings.NatToDecimalRoundTrip` | textbulker/includes/class-textbulker-loader.php:132 | the decimal digits printed for a natural number read back as that number |
| `NumericStrings.NatToDecimalParses` | textbulker/includes/class-textbulker-loader.php:132 | the decimal form of a natural number is a numeric string denoting that number |
| `NumericStrings.NegativeToDecimalParses` | textbulker/includes/class-textbulker-loader.php:132 | the decimal form of a negative integer is a numeric string denoting that integer |
| `NumericStrings.IntToDecimalParses` | textbulker/includes/class-textbulker-loader.php:132 | the string form of any integer, negative ones included, is a numeric string denoting that integer |
| `NumericStrings.IntToDecimalIsOne` | textbulker/includes/class-textbulker-loader.php:132 | the string form of an integer is "1" iff the integer is 1 |
| `PhpValues.IsSet` | textbulker/includes/class-textbulker-loader.php:145-153 | every present value loosely equal to '1' passes `isset`, and everything `isset` rejects is `empty()` |
| `PhpValues.IsEmpty` | textbulker/includes/class-textbulker-loader.php:74-89 | a present value is `empty()` iff its string form is "" or "0" |
| `PhpValues.LooseEqOne` | textbulker/includes/class-textbulker-loader.php:146 | for an integer, a boolean or null, `== '1'` holds iff the value's string form is "1". Strings are the only values where the two tests can differ |
| `PhpValues.StringForm` | textbulker/includes/class-textbulker-loader.php:132 | the string form of a non-negative integer is its digits, and of a negative one a minus sign and the digits; in both cases the digits read back as the magnitude |
| `PhpValues.OneParsesAsOne` | textbulker/includes/class-textbulker-loader.php:146 | the right operand '1' is itself a numeric string with value 1 |
| `PhpValues.StringLooseEqOne` | textbulker/includes/class-textbulker-loader.php:146 | a string is loosely equal to '1' iff it is numeric and its value is 1, because the byte-comparison fallback can never succeed |
| `PhpValues.ParsesAsOne` | textbulker/includes/class-textbulker-loader.php:146 | any string that parses to exactly 1 is loosely equal to '1' |
| `PhpValues.OneIsLooseEqOne` | textbulker/includes/class-textbulker-loader.php:146 | the string "1" is loosely equal to '1' |
| `PhpValues.ZeroIsNotLooseEqOne` | textbulker/includes/class-textbulker-loader.php:146 | the string "0" is not loosely equal to '1' |
| `PhpValues.EmptyIsNotLooseEqOne` | textbulker/includes/class-textbulker-loader.php:146 | the empty string is not loosely equal to '1' |
| `PhpValues.IntStringLooseEqOne` | textbulker/includes/class-textbulker-loader.php:132 | the decimal form of an integer is loosely equal to '1' iff the integer is 1 |
| `PhpValues.StringFormKeepsLooseEqOne` | textbulker/includes/class-textbulker-loader.php:146 | casting any value to string first never changes the result of `== '1'` |
| `PhpValues.StringFormIsOne` | textbulker/includes/class-textbulker-loader.php:132 | the string form is "1" exactly for the integer 1, the string "1" and true |
| `PhpValues.LooseEqOneIsNonEmpty` | textbulker/includes/class-textbulker-loader.php:74 | every value loosely equal to '1' is non-empty. The integer 2 shows that the converse fails |
| `PhpValues.PaddedOneIsLooseEqOne` | textbulker/includes/class-textbulker-loader.php:146 | "1" with leading zeros and surrounding whitespace is loosely equal to '1' |
| `Properties.SanitizeIdempotent` | textbulker/includes/class-textbulker-loader.php:141-159 | sanitising a sanitised array changes nothing |
| `Properties.SanitizeFlagsIndependent` | textbulker/includes/class-textbulker-loader.php:145-156 | each output flag depends only on the input value under the same key |
| `Properties.SanitizeIgnoresOtherKeys` | textbulker/includes/class-textbulker-loader.php:141-158 | adding or changing any key other than the two flags leaves the output unchanged |
| `Properties.SanitizePaddedOne` | textbulker/includes/class-textbulker-loader.php:145-156 | a submitted "1" with leading zeros and surrounding whitespace sanitises to 1 |
| `Properties.SanitizeIsWellFormed` | textbulker/includes/class-textbulker-loader.php:141-159 | every sanitised row has only the two flag keys, each with value 0 or 1 |
| `Properties.ActivatePreservesWellFormed` | textbulker/textbulker.php:21-34 | activation over a missing or well-formed row stores a well-formed row |
| `Properties.WellFormedViewsAgree` | textbulker/includes/class-textbulker-loader.php:130-138 | on a well-formed row the checkbox, the `empty()` test, `== '1'` and "value is 1" agree for each flag |
| `Properties.CheckboxAndExposureDifferOnTwo` | textbulker/includes/class-textbulker-loader.php:74 | on a row holding 2, Yoast's fields are exposed while its checkbox is unchecked |
| `Properties.FieldListsDistinct` | textbulker/includes/class-textbulker-loader.php:76-90 | the six field names are pairwise distinct, and the two lists share none |
| `Properties.MetaRegistrationsMembers` | textbulker/includes/class-textbulker-loader.php:70-101 | there are 0, 3 or 6 registrations. A Yoast (Rank Math) field is registered iff Yoast (Rank Math) exposure holds, and no other key is registered |
| `Properties.MetaRegistrationsDistinct` | textbulker/includes/class-textbulker-loader.php:70-101 | no meta key is registered twice |
| `Properties.MetaRegistrationsOrdered` | textbulker/includes/class-textbulker-loader.php:70-101 | every Yoast field is registered before every Rank Math field |
| `Properties.NoRowNoRegistrations` | textbulker/includes/class-textbulker-loader.php:72-100 | with no stored row nothing is registered, whichever plugins are active |
| `Properties.SavedFormExposure` | textbulker/includes/class-textbulker-loader.php:74-100 | after a form save, a plugin's fields are exposed iff the plugin is active and the submitted value was set and loosely equal to '1' |
| `Properties.FreshActivationExposesActivePlugins` | textbulker/textbulker.php:21-34 | after a first activation, the registered keys are exactly the fields of the active SEO plugins, Yoast first |
| `Properties.ReactivationKeepsUserChoice` | textbulker/textbulker.php:32-33 | a stored `expose_yoast` of 0 survives reactivation while Yoast is active, so Yoast's fields stay unexposed |
| `Properties.DiagnosticsMatchRegistration` | textbulker/includes/class-textbulker-loader.php:175-179 | the diagnostics show a plugin as active and its exposure as enabled iff its fields are registered |
| `Properties.Encode` | textbulker/includes/class-textbulker-loader.php:141-159 | the array for a two-boolean record is well-formed and has both flag keys |
| `Properties.DecodeEncode` | textbulker/includes/class-textbulker-loader.php:74-89 | reading back an encoded record with `empty()` gives the record |
| `Properties.SanitizeIsEncoding` | textbulker/includes/class-textbulker-loader.php:141-159 | every sanitised row is the encoding of the record it decodes to |
| `Properties.RegistrationsFollowFlags` | textbulker/includes/class-textbulker-loader.php:70-101 | registration depends on the stored row only through the two-boolean record it decodes to |
| `Properties.PingIgnoresCaller` | textbulker/includes/class-textbulker-loader.php:48-58 | `/ping` treats every caller alike: the corrected callback gives everyone the same reply with status "ok", and the written one gives everyone the same non-refusal outcome |
| `Properties.EndpointsAgreeOnVersion` | textbulker/includes/class-textbulker-loader.php:10-55 | for an administrator, both corrected endpoints report the version "1.0.1" |
| `Properties.AddSettingsLinkInjective` | textbulker/textbulker.php:36-40 | different link lists stay different after the prepend |
| `Scenarios.SanitizeNothingChecked` | textbulker/includes/class-textbulker-loader.php:141-159 | `{}` sanitises to 0/0 |
| `Scenarios.SanitizeYoastChecked` | textbulker/includes/class-textbulker-loader.php:141-159 | `{expose_yoast: "1"}` sanitises to 1/0 |
| `Scenarios.SanitizeMixedStrings` | textbulker/includes/class-textbulker-loader.php:141-159 | `{expose_yoast: "0", expose_rankmath: "1"}` sanitises to 0/1 |
| `Scenarios.LeadingZeroIsOne` | textbulker/includes/class-textbulker-loader.php:146 | "01" is loosely equal to '1' |
| `Scenarios.LeadingSpaceIsOne` | textbulker/includes/class-textbulker-loader.php:146 | " 1" is loosely equal to '1' |
| `Scenarios.TrailingNewlineIsOne` | textbulker/includes/class-textbulker-loader.php:146 | "1\n" is loosely equal to '1' |
| `Scenarios.PlusOneIsOne` | textbulker/includes/class-textbulker-loader.php:146 | "+1" is loosely equal to '1' |
| `Scenarios.WordIsNotOne` | textbulker/includes/class-textbulker-loader.php:146 | "on" is not loosely equal to '1' |
| `Scenarios.MinusOneIsNotOne` | textbulker/includes/class-textbulker-loader.php:146 | "-1" is not loosely equal to '1' |
| `Scenarios.TenIsNotOne` | textbulker/includes/class-textbulker-loader.php:146 | "10" is not loosely equal to '1' |
| `Scenarios.ScalarExamples` | textbulker/includes/class-textbulker-loader.php:146 | 1 and true are loosely equal to '1'. 0, 2, false and null are not |
| `Scenarios.EndpointExamples` | textbulker/includes/class-textbulker-loader.php:38-58 | corrected: an administrator gets `{version: "1.0.1"}` from `/version`, anyone else is refused, and ping says "ok" to anyone. As written on WordPress: the administrator's `/version` and a visitor's `/ping` fail with the missing class, and a visitor's `/version` is refused |
| `Scenarios.RegistrationExamples` | textbulker/includes/class-textbulker-loader.php:70-101 | with both flags 0 nothing is registered. With `expose_yoast` 1 and Yoast active, exactly Yoast's three fields are registered. With Yoast inactive, nothing is registered |
| `Scenarios.ActivationExamples` | textbulker/textbulker.php:21-34 | a fresh activation with both plugins active stores 1/1. An existing `expose_yoast: 0` is kept. With neither plugin active and no row, the stored array is empty |

## Left out

- EndpointsAgreeOnVersion (`Properties.EndpointsAgreeOnVersion`): states the version of the corrected replies only. As
  written, neither callback returns a version (`Loader.AsWrittenCallbacksFail`).
- EndpointExamples (`Scenarios.EndpointExamples`): the 200 replies it states are the corrected ones. As written, those
  requests fail (its last three clauses).
- PingIgnoresCaller (`Properties.PingIgnoresCaller`): "status ok" is a promise of the corrected callback. As written,
  ping fails alike for every caller (its last two clauses).
- Plugin.AddSettingsLink: the action links are modelled by value and order only. The
  string keys `array_unshift` keeps (such as `deactivate`), and key 0 for the new
  link, are not modelled.
- Host API calls are not modelled: `add_action`, `register_rest_route`, `register_meta`,
  `register_setting`, `add_settings_section`, `add_settings_field`, `add_options_page`,
  `load_plugin_textdomain` and `update_option`. The model returns what they would
  be given. `run()` (lines 12-19) is only hook wiring.
- `current_user_can` and `is_plugin_active` are arguments. WordPress's own check of
  the `edit_posts` auth callback is not modelled. A registration only records the
  capability name.
- The HTML of the settings page and of the checkboxes is not modelled, nor is the
  text of the diagnostics lines. Only the `checked` decision and the four booleans
  behind the diagnostics are modelled. Localisation (`__`, `esc_html__`) is not
  modelled: the translated "Settings" caption of the link is a parameter.
- `Loader.Respond`: a refused `/version` request is a bare `Forbidden`. WordPress's
  actual 401/403 error body is the host's.
- `PhpValues.LooseEqOne`: a non-integer numeric string is compared by its exact
  decimal value, not by the IEEE double PHP converts it to. PHP also treats as 1 a
  string like "1.00000000000000000001", which rounds to 1.0, and the model does not.
  Floating point is out of scope.
- `PhpValues.LooseEqOne`: PHP 8 semantics are modelled. PHP 7 differs: it rejected
  trailing whitespace in numeric strings.
- PHP arrays, floats and objects as setting values are not modelled. Nor are
  integer array keys or `array_merge`'s renumbering of them. All settings keys are
  fixed strings.
- A non-array input to the sanitiser is not modelled. WordPress passes null when
  both boxes are unchecked. `isset` on it fails for both keys, so it behaves
  exactly like the empty map (`Scenarios.SanitizeNothingChecked`).
- A stored option that is not an array is not modelled. `array_merge` would reject it.
- Concurrent read-modify-write of the option row is not modelled. It is the host's concern.

## Findings

| source | as written | input that shows it | evidently intended | confidence | as-written member | corrected member |
|---|---|---|---|---|---|---|
| textbulker/includes/class-textbulker-loader.php:6-51 | `new WP_REST_Response(...)` at lines 41 and 51 is unqualified inside `namespace textbulker\textbulker` and there is no `use`, so it names `textbulker\textbulker\WP_REST_Response`. PHP does not fall back to the global namespace for classes, so the callback throws an `Error` | any GET `/ping`; a GET `/version` by a user with `manage_options` | `new \WP_REST_Response(...)`: a 200 reply with the version payload | high (not executed) | `Loader.RespondAsWritten`, `Loader.AsWrittenCallbacksFail` | `Loader.Respond`, `Loader.QualifiedCallbacksRespond` |
