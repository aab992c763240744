/** The plugin's main file: the activation hook, which seeds the settings row from
    the SEO plugins that are active, and the "Settings" link added to the plugin's
    row on the plugins screen. */
module Plugin {
  import opened Optional
  import opened PhpValues
  import opened Loader

  /** The defaults `textbulker_activate` computes: a flag set to 1 for each active
      SEO plugin, and no key at all for an inactive one. */
  function ActivationDefaults(yoastActive: bool, rankMathActive: bool): (d: Settings)
    ensures YoastFlag in d <==> yoastActive
    ensures RankMathFlag in d <==> rankMathActive
    ensures d.Keys <= {YoastFlag, RankMathFlag}
    ensures forall k :: k in d ==> d[k] == PInt(1)
  {
    var yoast: Settings := if yoastActive then map[YoastFlag := PInt(1)] else map[];
    if rankMathActive then yoast[RankMathFlag := PInt(1)] else yoast
  }

  /** `get_option('textbulker_settings', [])`: the stored array, or the empty array. */
  function StoredOrEmpty(stored: Option<Settings>): (m: Settings)
    ensures stored.Some? ==> m == stored.value
    ensures stored.None? ==> m == map[]
  {
    stored.GetOr(map[])
  }

  /** The row `textbulker_activate` writes: `array_merge($defaults, $existing)`, so an
      existing value always wins over a computed default. */
  function Activate(yoastActive: bool, rankMathActive: bool, stored: Option<Settings>): (r: Settings)
    ensures r.Keys == ActivationDefaults(yoastActive, rankMathActive).Keys + StoredOrEmpty(stored).Keys
    ensures forall k :: k in StoredOrEmpty(stored) ==> r[k] == StoredOrEmpty(stored)[k]
    ensures forall k :: k in r && k !in StoredOrEmpty(stored) ==> r[k] == PInt(1)
    ensures stored.None? ==> r == ActivationDefaults(yoastActive, rankMathActive)
  {
    ActivationDefaults(yoastActive, rankMathActive) + StoredOrEmpty(stored)
  }

  /** Activating a second time, with the same plugins active, writes the same row. */
  lemma ActivateIdempotent(yoastActive: bool, rankMathActive: bool, stored: Option<Settings>)
    ensures Activate(yoastActive, rankMathActive, Some(Activate(yoastActive, rankMathActive, stored)))
            == Activate(yoastActive, rankMathActive, stored)
  {
  }

  /** The opening tag of the settings link, pointing at the plugin's options page. */
  const LinkOpening: string := "<a href=\"options-general.php?page=" + SettingsPageSlug + "\">"
  const LinkClosing: string := "</a>"

  /** The anchor added to the plugin's action links; `caption` is the translated "Settings".
      The caption is the anchor's whole text, whatever it contains. */
  function SettingsLink(caption: string): (r: string)
    ensures |r| == |LinkOpening| + |caption| + |LinkClosing|
    ensures r[..|LinkOpening|] == LinkOpening
    ensures r[|LinkOpening|..|r| - |LinkClosing|] == caption
    ensures r[|r| - |LinkClosing|..] == LinkClosing
  {
    LinkOpening + caption + LinkClosing
  }

  /** `textbulker_add_settings_link`: `array_unshift` of the settings link. */
  function AddSettingsLink(links: seq<string>, caption: string): (r: seq<string>)
    ensures |r| == |links| + 1
    ensures r[0] == SettingsLink(caption)
    ensures r[1..] == links
  {
    [SettingsLink(caption)] + links
  }
}
