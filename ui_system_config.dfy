/**
 * The read-only configuration asset: per-screen behaviour flags, directed
 * transition overrides, the HUD and fallback keys, and the two first-match
 * lookups over its lists.
 */
module Configuration {
  import opened Wrappers

  /** Only the kind of a transition is kept; its duration and easing curve
      affect the fade's intermediate frames, never its terminal state. */
  datatype TransitionType = Instant | Fade

  datatype ScreenTransition = ScreenTransition(kind: TransitionType)

  datatype ScreenConfig = ScreenConfig(
    screenKey: string,
    showHud: bool,
    usesPlayerInput: bool,
    excludeFromHistory: bool)

  /** An override for the ordered pair (from, to); its transition reference may be unset. */
  datatype TransitionOverride = TransitionOverride(
    fromScreenKey: string,
    toScreenKey: string,
    transition: Option<ScreenTransition>)

  datatype UISystemConfig = UISystemConfig(
    defaultScreenTransition: Option<ScreenTransition>,
    defaultPopupTransition: Option<ScreenTransition>,
    hudScreenKey: string,
    fallbackScreenKey: string,
    screenConfigs: seq<ScreenConfig>,
    transitionOverrides: seq<TransitionOverride>)
  {
    /** `GetScreenConfig(key)`: the first entry whose key equals `key`, or null. */
    function GetScreenConfig(key: string): (r: Option<ScreenConfig>)
      ensures r.None? <==> forall i :: 0 <= i < |screenConfigs| ==> screenConfigs[i].screenKey != key
      ensures forall i :: 0 <= i < |screenConfigs| && IsFirstScreenMatch(screenConfigs, key, i) ==> r == Some(screenConfigs[i])
    {
      var r := FindScreenConfig(screenConfigs, key);
      FirstScreenMatchIsUnique(screenConfigs, key);
      r
    }

    /** `GetTransitionOverride(from, to)`: the transition of the first override
        for exactly this ordered pair, or null. */
    function GetTransitionOverride(fromKey: string, toKey: string): (r: Option<ScreenTransition>)
      ensures (forall i :: 0 <= i < |transitionOverrides| ==> !MatchesPair(transitionOverrides[i], fromKey, toKey)) ==> r.None?
      ensures forall i :: 0 <= i < |transitionOverrides| && MatchesPair(transitionOverrides[i], fromKey, toKey)
                          && (forall j :: 0 <= j < i ==> !MatchesPair(transitionOverrides[j], fromKey, toKey))
                          ==> r == transitionOverrides[i].transition
    {
      FindTransitionOverride(transitionOverrides, fromKey, toKey)
    }
  }

  /** A freshly created configuration asset. */
  function DefaultConfig(): (c: UISystemConfig)
    ensures c.hudScreenKey == "HUD" && c.fallbackScreenKey == "HUD"
    ensures c.screenConfigs == [] && c.transitionOverrides == []
    ensures c.defaultScreenTransition.None? && c.defaultPopupTransition.None?
  {
    UISystemConfig(None, None, "HUD", "HUD", [], [])
  }

  /** The first-match search of `GetScreenConfig` as a recursive function. */
  function FindScreenConfig(configs: seq<ScreenConfig>, key: string): (r: Option<ScreenConfig>)
    ensures r.None? <==> forall i :: 0 <= i < |configs| ==> configs[i].screenKey != key
    ensures r.Some? ==> exists i :: 0 <= i < |configs| && configs[i] == r.value && IsFirstScreenMatch(configs, key, i)
  {
    if configs == [] then None
    else if configs[0].screenKey == key then
      assert IsFirstScreenMatch(configs, key, 0);
      Some(configs[0])
    else
      var r := FindScreenConfig(configs[1..], key);
      if r.Some? then
        var i :| 0 <= i < |configs| - 1 && configs[1..][i] == r.value && IsFirstScreenMatch(configs[1..], key, i);
        assert IsFirstScreenMatch(configs, key, i + 1);
        r
      else
        assert forall i :: 1 <= i < |configs| ==> configs[1..][i - 1] == configs[i];
        r
  }

  /** `configs[i]` matches `key` and no earlier entry does. */
  predicate IsFirstScreenMatch(configs: seq<ScreenConfig>, key: string, i: int)
    requires 0 <= i < |configs|
  {
    configs[i].screenKey == key && forall j :: 0 <= j < i ==> configs[j].screenKey != key
  }

  /** At most one position is the first match of a key. */
  lemma FirstScreenMatchIsUnique(configs: seq<ScreenConfig>, key: string)
    ensures forall i, j ::
              (0 <= i < |configs| && 0 <= j < |configs| && IsFirstScreenMatch(configs, key, i) && IsFirstScreenMatch(configs, key, j))
              ==> i == j
  {
  }

  /** `c` is the first entry for `key` in a present configuration. */
  predicate IsFirstEntry(config: Option<UISystemConfig>, key: string, c: ScreenConfig) {
    && config.Some?
    && exists i :: 0 <= i < |config.value.screenConfigs| && config.value.screenConfigs[i] == c
                   && IsFirstScreenMatch(config.value.screenConfigs, key, i)
  }

  /** There is no configuration, or no entry for `key` in it. */
  predicate Unconfigured(config: Option<UISystemConfig>, key: string) {
    config.None? || forall i :: 0 <= i < |config.value.screenConfigs| ==> config.value.screenConfigs[i].screenKey != key
  }

  /** The override entry `o` is for exactly the ordered pair (fromKey, toKey). */
  predicate MatchesPair(o: TransitionOverride, fromKey: string, toKey: string) {
    o.fromScreenKey == fromKey && o.toScreenKey == toKey
  }

  /** The first-match search of `GetTransitionOverride`. Note that it returns the
      first matching entry's transition even when that reference is unset. */
  function FindTransitionOverride(overrides: seq<TransitionOverride>, fromKey: string, toKey: string): (r: Option<ScreenTransition>)
    ensures (forall i :: 0 <= i < |overrides| ==> !MatchesPair(overrides[i], fromKey, toKey)) ==> r.None?
    ensures forall i :: 0 <= i < |overrides| && MatchesPair(overrides[i], fromKey, toKey)
                        && (forall j :: 0 <= j < i ==> !MatchesPair(overrides[j], fromKey, toKey))
                        ==> r == overrides[i].transition
  {
    if overrides == [] then None
    else if MatchesPair(overrides[0], fromKey, toKey) then overrides[0].transition
    else
      var r := FindTransitionOverride(overrides[1..], fromKey, toKey);
      assert forall i :: 1 <= i < |overrides| ==> overrides[1..][i - 1] == overrides[i];
      r
  }

  /** `config != null ? config.GetScreenConfig(key) : null`, the guard every caller writes. */
  function ScreenConfigOf(config: Option<UISystemConfig>, key: string): (r: Option<ScreenConfig>)
    ensures r.None? <==> Unconfigured(config, key)
    ensures r.Some? ==> IsFirstEntry(config, key, r.value) && r.value.screenKey == key
    ensures forall c :: IsFirstEntry(config, key, c) ==> r == Some(c)
  {
    if config.Some? then config.value.GetScreenConfig(key) else None
  }

  /** `config != null ? config.HudScreenKey : "HUD"`. */
  function HudKey(config: Option<UISystemConfig>): (k: string)
    ensures config.None? ==> k == "HUD"
    ensures config.Some? ==> k == config.value.hudScreenKey
  {
    if config.Some? then config.value.hudScreenKey else "HUD"
  }

  // ------------------------------------------------------------------ lemmas

  /** The pair is directed: an override registered for (to, from) is not found
      when looking up (from, to) for two different keys. */
  lemma OverrideIsDirected(fromKey: string, toKey: string, t: Option<ScreenTransition>)
    requires fromKey != toKey
    ensures FindTransitionOverride([TransitionOverride(toKey, fromKey, t)], fromKey, toKey).None?
    ensures FindTransitionOverride([TransitionOverride(fromKey, toKey, t)], fromKey, toKey) == t
  {
  }
}
