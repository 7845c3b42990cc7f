/**
 * The screen handler's navigation policy as functions on a value of its
 * state. Every coroutine of the handler is one atomic step here: the
 * state a transition leaves behind is the state its instant path leaves,
 * since a fade's duration and curve change only the intermediate frames.
 */
module ScreenLogic {
  import opened Wrappers
  import opened Identifiers
  import opened Configuration
  import opened Collaborators

  /** What the screen handler owns, plus what it does to its collaborators:
      the event-bus log and the input handler's last focus. The history
      stack has its top at the END of `history`; `current` is the cache key
      of the screen instance that is showing, if any. */
  datatype ScreenState = ScreenState(
    currentId: ScreenId,
    current: Option<string>,
    history: seq<ScreenId>,
    cache: map<string, View>,
    hooks: seq<Hook<ScreenId>>,
    events: seq<UIEvent>,
    input: Option<InputMode>)

  /** What a handler is initialised with: the configuration (possibly null),
      the prefab loader as a predicate on keys (a prefab exists under
      `UI/Screens/<key>` and carries a screen component), and whether an
      input handler was supplied. */
  datatype ScreenEnv = ScreenEnv(
    config: Option<UISystemConfig>,
    loadable: string -> bool,
    hasInput: bool)

  /** The showing instance is a cached one. */
  predicate Wf(s: ScreenState) {
    s.current.Some? ==> s.current.value in s.cache
  }

  /** One screen at a time: the only active cached instance other than the
      HUD is the current one, and a current instance is cached, is not the
      HUD, and is active. The HUD's activity is independent. */
  predicate OneActive(s: ScreenState, env: ScreenEnv) {
    var hud := HudKey(env.config);
    && (forall k :: k in s.cache && k != hud && s.cache[k].active ==> s.current == Some(k))
    && (s.current.Some? ==> s.current.value in s.cache && s.current.value != hud && s.cache[s.current.value].active)
  }

  /** Nothing is ever evicted from the cache, and the hook calls and events
      made so far stay made. */
  predicate Extends(s: ScreenState, r: ScreenState) {
    && s.cache.Keys <= r.cache.Keys
    && s.hooks <= r.hooks
    && s.events <= r.events
  }

  /** The HUD entry is as it was: cached afterwards exactly when before, and unchanged. */
  predicate HudKept(s: ScreenState, r: ScreenState, hud: string) {
    && (hud in r.cache <==> hud in s.cache)
    && (hud in s.cache ==> r.cache[hud] == s.cache[hud])
  }

  /** Only screen notifications were raised between `s` and `r`. */
  predicate OnlyScreenEventsAdded(s: ScreenState, r: ScreenState)
    requires s.events <= r.events
  {
    forall i :: |s.events| <= i < |r.events| ==> r.events[i].ScreenShown? || r.events[i].ScreenHidden?
  }

  /** The focus that ends up recorded when the handler does not touch the input handler. */
  predicate InputUntouched(env: ScreenEnv, s: ScreenState, r: ScreenState) {
    !env.hasInput ==> r.input == s.input
  }

  // ------------------------------------------------------- pure lookups

  /** None hides the HUD; otherwise the first configuration entry for the key
      hides it when its `ShowHud` flag is off, and an unconfigured screen does not. */
  function ShouldHideHudForScreen(config: Option<UISystemConfig>, id: ScreenId): (r: bool)
    ensures id.IsNone() ==> r
    ensures forall c :: !id.IsNone() && IsFirstEntry(config, id.key, c) ==> (r <==> !c.showHud)
    ensures !id.IsNone() && Unconfigured(config, id.key) ==> !r
  {
    if id.IsNone() then true
    else match ScreenConfigOf(config, id.key)
      case Some(c) => !c.showHud
      case None => false
  }

  /** Only the first configuration entry of a screen other than None can show the HUD,
      by its `ShowHud` flag. */
  function ShouldShowHudForScreen(config: Option<UISystemConfig>, id: ScreenId): (r: bool)
    ensures id.IsNone() ==> !r
    ensures forall c :: !id.IsNone() && IsFirstEntry(config, id.key, c) ==> (r <==> c.showHud)
    ensures Unconfigured(config, id.key) ==> !r
  {
    if id.IsNone() then false
    else match ScreenConfigOf(config, id.key)
      case Some(c) => c.showHud
      case None => false
  }

  /** The first configuration entry's `ExcludeFromHistory` flag; false when unconfigured. */
  function IsExcludedFromHistory(config: Option<UISystemConfig>, id: ScreenId): (r: bool)
    ensures forall c :: IsFirstEntry(config, id.key, c) ==> (r <==> c.excludeFromHistory)
    ensures Unconfigured(config, id.key) ==> !r
  {
    match ScreenConfigOf(config, id.key)
    case Some(c) => c.excludeFromHistory
    case None => false
  }

  function GetDefaultTransition(config: Option<UISystemConfig>): (r: Option<ScreenTransition>)
    ensures config.None? ==> r.None?
    ensures config.Some? ==> r == config.value.defaultScreenTransition
  {
    if config.Some? then config.value.defaultScreenTransition else None
  }

  /** The transition for a (from, to) navigation: an override wins, then the
      default; no transition at all means an instant switch. */
  function GetTransition(config: Option<UISystemConfig>, from: ScreenId, to: ScreenId): (r: Option<ScreenTransition>)
    ensures config.None? ==> r.None?
    ensures config.Some? ==>
              var ov := config.value.transitionOverrides;
              forall i :: 0 <= i < |ov| && MatchesPair(ov[i], from.key, to.key)
                          && (forall j :: 0 <= j < i ==> !MatchesPair(ov[j], from.key, to.key))
                          ==> r == if ov[i].transition.Some? then ov[i].transition else config.value.defaultScreenTransition
    ensures config.Some? && (forall i :: 0 <= i < |config.value.transitionOverrides| ==>
                               !MatchesPair(config.value.transitionOverrides[i], from.key, to.key)) ==>
              r == config.value.defaultScreenTransition
  {
    if config.Some? && config.value.GetTransitionOverride(from.key, to.key).Some? then
      config.value.GetTransitionOverride(from.key, to.key)
    else
      GetDefaultTransition(config)
  }

  /** Whether a navigation from `previous` records `previous` on the history stack. */
  function PushesPrevious(config: Option<UISystemConfig>, previous: ScreenId, clearHistory: bool, addToHistory: bool): (r: bool)
    ensures r ==> addToHistory && !clearHistory && previous != ScreenId.None
    ensures r ==> forall c :: IsFirstEntry(config, previous.key, c) ==> !c.excludeFromHistory
    ensures addToHistory && !clearHistory && previous != ScreenId.None && Unconfigured(config, previous.key) ==> r
  {
    addToHistory && !clearHistory && !previous.IsNone() && !IsExcludedFromHistory(config, previous)
  }

  /** The focus chosen after a transition settles (`UpdateInputState`). */
  function InputAfterTransition(env: ScreenEnv, currentId: ScreenId, popupVisible: bool, last: Option<InputMode>): (r: Option<InputMode>)
    ensures !env.hasInput ==> r == last
    ensures env.hasInput && popupVisible ==> r == Some(UIMode)
    ensures forall c :: env.hasInput && !popupVisible && IsFirstEntry(env.config, currentId.key, c) ==>
              r == Some(if c.usesPlayerInput then PlayerMode else UIMode)
    ensures env.hasInput && !popupVisible && Unconfigured(env.config, currentId.key) ==> r == Some(UIMode)
  {
    if !env.hasInput then last
    else if popupVisible then Some(UIMode)
    else match ScreenConfigOf(env.config, currentId.key)
      case Some(c) => if c.usesPlayerInput then Some(PlayerMode) else Some(UIMode)
      case None => Some(UIMode)
  }

  // ------------------------------------------------------------ steps

  /** `GetOrCreateScreen`: a cache hit, or a fresh deactivated instance cached
      under the key, or nothing when the prefab cannot be loaded. */
  function GetOrCreateScreen(s: ScreenState, env: ScreenEnv, id: ScreenId): (r: (ScreenState, bool))
    requires Wf(s)
    ensures Wf(r.0) && Extends(s, r.0)
    ensures r.1 <==> id.key in s.cache || env.loadable(id.key)
    ensures r.1 ==> id.key in r.0.cache
    ensures id.key in s.cache || !env.loadable(id.key) ==> r.0 == s
    ensures r.0.cache.Keys == s.cache.Keys + (if r.1 then {id.key} else {})
    ensures forall k :: k in s.cache ==> r.0.cache[k] == s.cache[k]
    ensures r.0.(cache := s.cache, hooks := s.hooks) == s
    ensures r.1 && id.key !in s.cache ==>
              r.0.cache[id.key] == FreshView && r.0.hooks == s.hooks + [OnInitialize(id)]
    ensures OneActive(s, env) ==> OneActive(r.0, env)
  {
    if id.key in s.cache then (s, true)
    else if !env.loadable(id.key) then (s, false)
    else (s.(cache := s.cache[id.key := FreshView], hooks := s.hooks + [OnInitialize(id)]), true)
  }

  /** `ToggleHUD(visible)`: resolve the HUD instance and bring it to the requested
      visibility; a HUD already in that state, or one that cannot be loaded, is left alone. */
  function ToggleHud(s: ScreenState, env: ScreenEnv, visible: bool): (r: ScreenState)
    requires Wf(s)
    ensures Wf(r) && Extends(s, r) && OnlyScreenEventsAdded(s, r)
    ensures r.currentId == s.currentId && r.current == s.current && r.history == s.history && r.input == s.input
    ensures var hud := HudKey(env.config);
            hud in s.cache || env.loadable(hud) ==> hud in r.cache && r.cache[hud].active == visible
    ensures forall k :: k in s.cache && k != HudKey(env.config) ==> r.cache[k] == s.cache[k]
    ensures forall k :: k in r.cache && k != HudKey(env.config) ==> k in s.cache
    ensures OneActive(s, env) ==> OneActive(r, env)
  {
    var hudId := ScreenId(HudKey(env.config));
    var (t, found) := GetOrCreateScreen(s, env, hudId);
    if !found then t
    else
      var v := t.cache[hudId.key];
      if visible && !v.active then
        t.(cache := t.cache[hudId.key := View(true, FadedIn)],
           hooks := t.hooks + [OnShow(hudId, None)],
           events := t.events + [ScreenShown(hudId)])
      else if !visible && v.active then
        t.(cache := t.cache[hudId.key := View(false, FadedOut)],
           hooks := t.hooks + [OnHide(hudId)],
           events := t.events + [ScreenHidden(hudId)])
      else t
  }

  /** The first part of a transition: the showing screen is told to hide, faded
      out, deactivated, announced hidden, and forgotten as current. */
  function HideCurrent(s: ScreenState): (r: ScreenState)
    requires Wf(s)
    ensures Wf(r) && Extends(s, r) && OnlyScreenEventsAdded(s, r)
    ensures r.current.None? && r.cache.Keys == s.cache.Keys
    ensures r.currentId == s.currentId && r.history == s.history && r.input == s.input
    ensures s.current.None? ==> r == s
    ensures s.current.Some? ==>
              var left := ScreenId(s.current.value);
              && r.cache[left.key] == View(false, FadedOut)
              && r.hooks == s.hooks + [OnHide(left)]
              && r.events == s.events + [ScreenHidden(left)]
    ensures forall k :: k in s.cache && Some(k) != s.current ==> r.cache[k] == s.cache[k]
  {
    if s.current.None? then s
    else
      var k := s.current.value;
      s.(cache := s.cache[k := View(false, FadedOut)],
         hooks := s.hooks + [OnHide(ScreenId(k))],
         events := s.events + [ScreenHidden(ScreenId(k))],
         current := None)
  }

  /** The destination is resolved; if it resolves it is activated, faded in,
      shown with the payload, announced and made the current instance. */
  function ShowIncoming(s: ScreenState, env: ScreenEnv, id: ScreenId, data: Option<Payload>): (r: ScreenState)
    requires Wf(s)
    ensures Wf(r) && Extends(s, r) && OnlyScreenEventsAdded(s, r)
    ensures r.currentId == s.currentId && r.history == s.history && r.input == s.input
    ensures r.current == (if id.key in s.cache || env.loadable(id.key) then Some(id.key) else s.current)
    ensures id.key in s.cache || env.loadable(id.key) ==>
              && r.cache[id.key] == View(true, FadedIn)
              && r.hooks == s.hooks + (if id.key in s.cache then [] else [OnInitialize(id)]) + [OnShow(id, data)]
              && r.events == s.events + [ScreenShown(id)]
    ensures !(id.key in s.cache || env.loadable(id.key)) ==> r == s
    ensures forall k :: k in r.cache && k != id.key ==> k in s.cache && r.cache[k] == s.cache[k]
  {
    var (t, found) := GetOrCreateScreen(s, env, id);
    if !found then t
    else
      t.(cache := t.cache[id.key := View(true, FadedIn)],
         hooks := t.hooks + [OnShow(id, data)],
         events := t.events + [ScreenShown(id)],
         current := Some(id.key))
  }

  /** The history step of a transition, taken before anything is hidden. */
  function RecordHistory(s: ScreenState, env: ScreenEnv, clearHistory: bool, addToHistory: bool): (r: ScreenState)
    requires Wf(s)
    ensures Wf(r) && r.(history := s.history) == s
    ensures r.history == (if clearHistory then [] else s.history)
                         + (if PushesPrevious(env.config, s.currentId, clearHistory, addToHistory) then [s.currentId] else [])
  {
    var s1 := if clearHistory then s.(history := []) else s;
    if PushesPrevious(env.config, s.currentId, clearHistory, addToHistory)
    then s1.(history := s1.history + [s.currentId]) else s1
  }

  /** Leaving: the showing screen is hidden, then the HUD if the destination hides it. */
  function Leave(s: ScreenState, env: ScreenEnv, id: ScreenId): (r: ScreenState)
    requires Wf(s)
    ensures Wf(r) && Extends(s, r) && OnlyScreenEventsAdded(s, r)
    ensures r.current.None? && r.currentId == s.currentId && r.history == s.history && r.input == s.input
    ensures forall k :: k != HudKey(env.config) ==> (k in r.cache <==> k in s.cache)
    ensures OneActive(s, env) ==> OneActive(r, env)
    ensures var hud := HudKey(env.config);
            ShouldHideHudForScreen(env.config, id) && hud in r.cache ==> !r.cache[hud].active
    ensures var hud := HudKey(env.config);
            !ShouldHideHudForScreen(env.config, id) && s.current != Some(hud) ==> HudKept(s, r, hud)
  {
    var t := HideCurrent(s);
    if ShouldHideHudForScreen(env.config, id) then ToggleHud(t, env, false) else t
  }

  /** Arriving: the destination becomes the current id, its instance (unless it is
      the HUD or None) is shown, then the HUD if the destination shows it, and the
      input is re-routed. */
  function Arrive(s: ScreenState, env: ScreenEnv, id: ScreenId, data: Option<Payload>, popupVisible: bool): (r: ScreenState)
    requires Wf(s) && s.current.None?
    ensures Wf(r) && Extends(s, r) && OnlyScreenEventsAdded(s, r) && InputUntouched(env, s, r)
    ensures r.currentId == id && r.history == s.history
    ensures r.current == (if id.key != HudKey(env.config) && !id.IsNone() && (id.key in s.cache || env.loadable(id.key))
                          then Some(id.key) else None)
    ensures r.input == InputAfterTransition(env, id, popupVisible, s.input)
    ensures OneActive(s, env) ==> OneActive(r, env)
    ensures var hud := HudKey(env.config);
            ShouldShowHudForScreen(env.config, id) && (hud in s.cache || env.loadable(hud)) ==>
              hud in r.cache && r.cache[hud].active
    ensures !ShouldShowHudForScreen(env.config, id) ==> HudKept(s, r, HudKey(env.config))
  {
    var s3 := Present(s, env, id, data);
    s3.(input := InputAfterTransition(env, s3.currentId, popupVisible, s3.input))
  }

  /** Arriving before the input is re-routed: the destination becomes the current
      id, its instance (unless it is the HUD or None) is shown, then the HUD if the
      destination shows it. */
  function Present(s: ScreenState, env: ScreenEnv, id: ScreenId, data: Option<Payload>): (r: ScreenState)
    requires Wf(s) && s.current.None?
    ensures Wf(r) && Extends(s, r) && OnlyScreenEventsAdded(s, r)
    ensures r.currentId == id && r.history == s.history && r.input == s.input
    ensures r.current == (if id.key != HudKey(env.config) && !id.IsNone() && (id.key in s.cache || env.loadable(id.key))
                          then Some(id.key) else None)
    ensures OneActive(s, env) ==> OneActive(r, env)
    ensures var hud := HudKey(env.config);
            ShouldShowHudForScreen(env.config, id) && (hud in s.cache || env.loadable(hud)) ==>
              hud in r.cache && r.cache[hud].active
    ensures !ShouldShowHudForScreen(env.config, id) ==> HudKept(s, r, HudKey(env.config))
  {
    var s2 := ShowDestination(s.(currentId := id), env, id, data);
    if ShouldShowHudForScreen(env.config, id) then ToggleHud(s2, env, true) else s2
  }

  /** The destination's instance is shown unless it is the HUD or None; the HUD
      entry is left alone. */
  function ShowDestination(s: ScreenState, env: ScreenEnv, id: ScreenId, data: Option<Payload>): (r: ScreenState)
    requires Wf(s) && s.current.None?
    ensures Wf(r) && Extends(s, r) && OnlyScreenEventsAdded(s, r)
    ensures r.currentId == s.currentId && r.history == s.history && r.input == s.input
    ensures r.current == (if id.key != HudKey(env.config) && !id.IsNone() && (id.key in s.cache || env.loadable(id.key))
                          then Some(id.key) else None)
    ensures OneActive(s, env) ==> OneActive(r, env)
    ensures HudKept(s, r, HudKey(env.config))
  {
    if id.key != HudKey(env.config) && !id.IsNone() then ShowIncoming(s, env, id, data) else s
  }

  /** `ShowScreenRoutine(id, data, clearHistory, addToHistory)` as one step.
      `popupVisible` is what the facade reports when the input is re-routed. */
  function Routine(s: ScreenState, env: ScreenEnv, id: ScreenId, data: Option<Payload>,
                   clearHistory: bool, addToHistory: bool, popupVisible: bool): (r: ScreenState)
    requires Wf(s)
    ensures Wf(r) && Extends(s, r) && OnlyScreenEventsAdded(s, r) && InputUntouched(env, s, r)
    ensures r.currentId == id
    ensures r.history == (if clearHistory then [] else s.history)
                         + (if PushesPrevious(env.config, s.currentId, clearHistory, addToHistory) then [s.currentId] else [])
    ensures r.current == (if id.key != HudKey(env.config) && !id.IsNone() && (id.key in s.cache || env.loadable(id.key))
                          then Some(id.key) else None)
    ensures r.input == InputAfterTransition(env, id, popupVisible, s.input)
    ensures OneActive(s, env) ==> OneActive(r, env)
    ensures var hud := HudKey(env.config);
            ShouldHideHudForScreen(env.config, id) && hud in r.cache ==> !r.cache[hud].active
    ensures var hud := HudKey(env.config);
            ShouldShowHudForScreen(env.config, id) && (hud in s.cache || env.loadable(hud)) ==>
              hud in r.cache && r.cache[hud].active
    ensures var hud := HudKey(env.config);
            !ShouldHideHudForScreen(env.config, id) && !ShouldShowHudForScreen(env.config, id) && s.current != Some(hud) ==>
              HudKept(s, r, hud)
  {
    var s1 := RecordHistory(s, env, clearHistory, addToHistory);
    var s2 := Leave(s1, env, id);
    Arrive(s2, env, id, data, popupVisible)
  }

  /** `ShowScreen(id, data, clearHistory)`: the current non-None screen is not re-shown. */
  function ShowScreen(s: ScreenState, env: ScreenEnv, id: ScreenId, data: Option<Payload>,
                      clearHistory: bool, popupVisible: bool): (r: ScreenState)
    requires Wf(s)
    ensures Wf(r) && Extends(s, r) && OnlyScreenEventsAdded(s, r) && InputUntouched(env, s, r)
    ensures OneActive(s, env) ==> OneActive(r, env)
  {
    if ScreenEq(id, s.currentId) && !id.IsNone() then s
    else Routine(s, env, id, data, clearHistory, true, popupVisible)
  }

  /** `GoBack()`: pop the history, or fall back to the configured key when the
      history is empty and the fallback is set and not already current. */
  function GoBack(s: ScreenState, env: ScreenEnv, popupVisible: bool): (r: ScreenState)
    requires Wf(s)
    ensures Wf(r) && Extends(s, r) && InputUntouched(env, s, r)
    ensures OneActive(s, env) ==> OneActive(r, env)
  {
    if |s.history| > 0 then
      var previous := s.history[|s.history| - 1];
      var t := Routine(s.(history := s.history[..|s.history| - 1]), env, previous, None, false, false, popupVisible);
      t.(events := t.events + [BackNavigated])
    else if env.config.Some? && env.config.value.fallbackScreenKey != "" then
      var fallback := NewScreenId(Some(env.config.value.fallbackScreenKey));
      if ScreenNeq(fallback, s.currentId) then
        var t := Routine(s, env, fallback, None, false, false, popupVisible);
        t.(events := t.events + [BackNavigated])
      else s
    else s
  }

  /** The fallback `GoBack` navigates to when the history is empty, if any. */
  predicate FallsBack(s: ScreenState, env: ScreenEnv) {
    && env.config.Some?
    && env.config.value.fallbackScreenKey != ""
    && ScreenNeq(ScreenId(env.config.value.fallbackScreenKey), s.currentId)
  }

  /** The number of back-navigated notifications in a log. */
  function CountBack(events: seq<UIEvent>): nat {
    if events == [] then 0
    else CountBack(events[..|events| - 1]) + (if events[|events| - 1].BackNavigated? then 1 else 0)
  }

  /** The number of `OnShow` hooks for `id` in a log, whatever their payload. */
  function CountShow(hooks: seq<Hook<ScreenId>>, id: ScreenId): nat {
    if hooks == [] then 0
    else CountShow(hooks[..|hooks| - 1], id) + (if hooks[|hooks| - 1].OnShow? && hooks[|hooks| - 1].id == id then 1 else 0)
  }

  /** `added` is one `OnDispose` per cached key, each exactly once, in some order. */
  ghost predicate DisposesEachOnce(cache: map<string, View>, added: seq<Hook<ScreenId>>) {
    && (forall i :: 0 <= i < |added| ==> added[i].OnDispose? && added[i].id.key in cache && added[i].id == ScreenId(added[i].id.key))
    && (forall k :: k in cache ==> OnDispose(ScreenId(k)) in added)
    && (forall i, j :: 0 <= i < j < |added| ==> added[i] != added[j])
  }

  // ================================================================ lemmas

  /** Re-showing the current screen, when it is not None, changes nothing:
      no history, cache, current-id, hook, event or input change. */
  lemma ShowCurrentIsNoop(s: ScreenState, env: ScreenEnv, data: Option<Payload>, clearHistory: bool, popupVisible: bool)
    requires Wf(s) && !s.currentId.IsNone()
    ensures ShowScreen(s, env, s.currentId, data, clearHistory, popupVisible) == s
  {
  }

  /** A None destination is always navigated to, even when None is current. */
  lemma ShowNoneIsNotNoop(s: ScreenState, env: ScreenEnv, data: Option<Payload>, clearHistory: bool, popupVisible: bool)
    requires Wf(s) && s.currentId.IsNone()
    ensures ShowScreen(s, env, ScreenId.None, data, clearHistory, popupVisible)
         == Routine(s, env, ScreenId.None, data, clearHistory, true, popupVisible)
  {
  }

  /** Without clearHistory, the previous screen is pushed exactly when it is not
      None and not excluded from history; the destination becomes current. */
  lemma ShowScreenHistory(s: ScreenState, env: ScreenEnv, id: ScreenId, data: Option<Payload>, popupVisible: bool)
    requires Wf(s) && !(id == s.currentId && !id.IsNone())
    ensures var r := ShowScreen(s, env, id, data, false, popupVisible);
            && r.currentId == id
            && r.history == s.history + (if !s.currentId.IsNone() && !IsExcludedFromHistory(env.config, s.currentId)
                                         then [s.currentId] else [])
  {
  }

  /** With clearHistory the stack ends empty: the previous screen is not pushed. */
  lemma ShowScreenClearsHistory(s: ScreenState, env: ScreenEnv, id: ScreenId, data: Option<Payload>, popupVisible: bool)
    requires Wf(s) && !(id == s.currentId && !id.IsNone())
    ensures var r := ShowScreen(s, env, id, data, true, popupVisible);
            r.currentId == id && r.history == []
  {
  }

  lemma {:induction false} CountBackAppend(a: seq<UIEvent>, b: seq<UIEvent>)
    ensures CountBack(a + b) == CountBack(a) + CountBack(b)
    decreases |b|
  {
    if b == [] {
      assert a + b == a;
    } else {
      assert (a + b)[..|a + b| - 1] == a + b[..|b| - 1];
      CountBackAppend(a, b[..|b| - 1]);
    }
  }

  lemma {:induction false} CountBackScreenEvents(s: ScreenState, r: ScreenState)
    requires s.events <= r.events && OnlyScreenEventsAdded(s, r)
    ensures CountBack(r.events) == CountBack(s.events)
    decreases |r.events|
  {
    if |r.events| > |s.events| {
      var r' := r.(events := r.events[..|r.events| - 1]);
      CountBackScreenEvents(s, r');
    } else {
      assert r.events == s.events;
    }
  }

  /** `GoBack` with a non-empty history pops exactly the top entry and makes it
      current, never pushes the screen it left, and raises exactly one
      back-navigated notification. */
  lemma GoBackPops(s: ScreenState, env: ScreenEnv, popupVisible: bool)
    requires Wf(s) && |s.history| > 0
    ensures var r := GoBack(s, env, popupVisible);
            && r.currentId == s.history[|s.history| - 1]
            && r.history == s.history[..|s.history| - 1]
            && CountBack(r.events) == CountBack(s.events) + 1
            && r.events[|r.events| - 1] == BackNavigated
  {
    var s1 := s.(history := s.history[..|s.history| - 1]);
    var t := Routine(s1, env, s.history[|s.history| - 1], None, false, false, popupVisible);
    CountBackScreenEvents(s1, t);
    CountBackAppend(t.events, [BackNavigated]);
  }

  /** `GoBack` with an empty history navigates to the fallback exactly when it is
      set and differs from the current screen; otherwise it changes nothing. */
  lemma GoBackWithEmptyHistory(s: ScreenState, env: ScreenEnv, popupVisible: bool)
    requires Wf(s) && |s.history| == 0
    ensures var r := GoBack(s, env, popupVisible);
            if FallsBack(s, env) then
              && r.currentId == ScreenId(env.config.value.fallbackScreenKey)
              && r.history == []
              && CountBack(r.events) == CountBack(s.events) + 1
            else r == s
  {
    if FallsBack(s, env) {
      var t := Routine(s, env, ScreenId(env.config.value.fallbackScreenKey), None, false, false, popupVisible);
      CountBackScreenEvents(s, t);
      CountBackAppend(t.events, [BackNavigated]);
    }
  }

  /** The HUD decisions: never both; None hides; a screen without a
      configuration entry leaves the HUD alone; a configured screen decides. */
  lemma HudDecisions(config: Option<UISystemConfig>, id: ScreenId)
    ensures !(ShouldHideHudForScreen(config, id) && ShouldShowHudForScreen(config, id))
    ensures id.IsNone() ==> ShouldHideHudForScreen(config, id)
    ensures !id.IsNone() && ScreenConfigOf(config, id.key).None? ==>
              !ShouldHideHudForScreen(config, id) && !ShouldShowHudForScreen(config, id)
    ensures !id.IsNone() && ScreenConfigOf(config, id.key).Some? ==>
              ShouldShowHudForScreen(config, id) == ScreenConfigOf(config, id.key).value.showHud
              && ShouldHideHudForScreen(config, id) == !ScreenConfigOf(config, id.key).value.showHud
  {
  }

  /** Showing an active HUD, or hiding an inactive one, does nothing. */
  lemma ToggleHudAlreadyThere(s: ScreenState, env: ScreenEnv, visible: bool)
    requires Wf(s) && HudKey(env.config) in s.cache && s.cache[HudKey(env.config)].active == visible
    ensures ToggleHud(s, env, visible) == s
  {
  }

  /** A destination that is the HUD key or None gets no current instance; any
      other destination is current exactly when it is cached or loadable. */
  lemma RoutineCurrentInstance(s: ScreenState, env: ScreenEnv, id: ScreenId, data: Option<Payload>,
                               clearHistory: bool, addToHistory: bool, popupVisible: bool)
    requires Wf(s)
    ensures var r := Routine(s, env, id, data, clearHistory, addToHistory, popupVisible);
            && (id.key == HudKey(env.config) || id.IsNone() ==> r.current.None?)
            && (id.key != HudKey(env.config) && !id.IsNone() ==>
                  (r.current == Some(id.key) <==> id.key in s.cache || env.loadable(id.key)))
  {
  }

  /** The payload hand-off: a destination that resolves and is neither the HUD nor
      None is told `OnShow` exactly once during the transition, with the caller's
      payload, and is announced shown. */
  lemma RoutineHandsOverPayload(s: ScreenState, env: ScreenEnv, id: ScreenId, data: Option<Payload>,
                                clearHistory: bool, addToHistory: bool, popupVisible: bool)
    requires Wf(s)
    requires id.key != HudKey(env.config) && !id.IsNone() && (id.key in s.cache || env.loadable(id.key))
    ensures var r := Routine(s, env, id, data, clearHistory, addToHistory, popupVisible);
            && OnShow(id, data) in r.hooks[|s.hooks|..]
            && CountShow(r.hooks[|s.hooks|..], id) == 1
            && ScreenShown(id) in r.events[|s.events|..]
  {
    RoutineShowsDestinationOnce(s, env, id, data, clearHistory, addToHistory, popupVisible);
    var s2 := Leave(RecordHistory(s, env, clearHistory, addToHistory), env, id);
    ArriveHandsOverPayload(s2, env, id, data, popupVisible);
    var r := Arrive(s2, env, id, data, popupVisible);
    SuffixWidens(s.hooks, s2.hooks, r.hooks, OnShow(id, data));
    SuffixWidens(s.events, s2.events, r.events, ScreenShown(id));
  }

  lemma ArriveHandsOverPayload(s: ScreenState, env: ScreenEnv, id: ScreenId, data: Option<Payload>, popupVisible: bool)
    requires Wf(s) && s.current.None?
    requires id.key != HudKey(env.config) && !id.IsNone() && (id.key in s.cache || env.loadable(id.key))
    ensures var r := Arrive(s, env, id, data, popupVisible);
            && OnShow(id, data) in r.hooks[|s.hooks|..]
            && ScreenShown(id) in r.events[|s.events|..]
  {
    var a1 := s.(currentId := id);
    var a2 := ShowIncoming(a1, env, id, data);
    var a3 := if ShouldShowHudForScreen(env.config, id) then ToggleHud(a2, env, true) else a2;
    assert a2.hooks[|a2.hooks| - 1] == OnShow(id, data);
    assert a2.events[|a2.events| - 1] == ScreenShown(id);
    SuffixContains(s.hooks, a2.hooks[..|a2.hooks| - 1], a3.hooks, OnShow(id, data));
    SuffixContains(s.events, a2.events[..|a2.events| - 1], a3.events, ScreenShown(id));
  }

  /** A transition tells a destination other than the HUD `OnShow` once when it is
      not None and resolves, and never otherwise. */
  lemma RoutineShowsDestinationOnce(s: ScreenState, env: ScreenEnv, id: ScreenId, data: Option<Payload>,
                                    clearHistory: bool, addToHistory: bool, popupVisible: bool)
    requires Wf(s) && id.key != HudKey(env.config)
    ensures var r := Routine(s, env, id, data, clearHistory, addToHistory, popupVisible);
            CountShow(r.hooks[|s.hooks|..], id) ==
              (if !id.IsNone() && (id.key in s.cache || env.loadable(id.key)) then 1 else 0)
  {
    var s1 := RecordHistory(s, env, clearHistory, addToHistory);
    var s2 := Leave(s1, env, id);
    var r := Arrive(s2, env, id, data, popupVisible);
    LeaveShowsNothing(s1, env, id);
    PresentShowsDestinationOnce(s2, env, id, data);
    assert r.hooks == Present(s2, env, id, data).hooks;
    assert r.hooks[|s.hooks|..] == s2.hooks[|s.hooks|..] + r.hooks[|s2.hooks|..];
    CountShowAppend(s2.hooks[|s.hooks|..], r.hooks[|s2.hooks|..], id);
    CountShowAbsent(s2.hooks[|s.hooks|..], id);
  }

  /** Leaving tells no screen `OnShow`: it only hides. */
  lemma LeaveShowsNothing(s: ScreenState, env: ScreenEnv, id: ScreenId)
    requires Wf(s)
    ensures var r := Leave(s, env, id);
            forall i :: |s.hooks| <= i < |r.hooks| ==> !r.hooks[i].OnShow?
  {
    var t := HideCurrent(s);
    ToggleHudOnlyHud(t, env, false);
  }

  /** Toggling the HUD adds hooks for the HUD alone, and `OnShow` only when showing it. */
  lemma ToggleHudOnlyHud(s: ScreenState, env: ScreenEnv, visible: bool)
    requires Wf(s)
    ensures var r := ToggleHud(s, env, visible);
            forall i :: |s.hooks| <= i < |r.hooks| ==>
              r.hooks[i].id == ScreenId(HudKey(env.config)) && (r.hooks[i].OnShow? ==> visible)
  {
  }

  /** The arrival before the input step shows a destination other than the HUD
      once when it is not None and resolves, and never otherwise. */
  lemma PresentShowsDestinationOnce(s: ScreenState, env: ScreenEnv, id: ScreenId, data: Option<Payload>)
    requires Wf(s) && s.current.None? && id.key != HudKey(env.config)
    ensures var r := Present(s, env, id, data);
            CountShow(r.hooks[|s.hooks|..], id) ==
              (if !id.IsNone() && (id.key in s.cache || env.loadable(id.key)) then 1 else 0)
  {
    var a0 := s.(currentId := id);
    var a1 := ShowDestination(a0, env, id, data);
    var r := Present(s, env, id, data);
    ShowDestinationShowsOnce(a0, env, id, data);
    if ShouldShowHudForScreen(env.config, id) {
      ToggleHudOnlyHud(a1, env, true);
      CountShowIgnoresOthers(s.hooks, a1.hooks, r.hooks, id);
    }
  }

  /** Hooks added after `mid` that are for other ids leave the count after `a` unchanged. */
  lemma CountShowIgnoresOthers(a: seq<Hook<ScreenId>>, mid: seq<Hook<ScreenId>>, c: seq<Hook<ScreenId>>, id: ScreenId)
    requires a <= mid <= c
    requires forall i :: |mid| <= i < |c| ==> c[i].id != id
    ensures CountShow(c[|a|..], id) == CountShow(mid[|a|..], id)
  {
    assert c[|a|..] == mid[|a|..] + c[|mid|..];
    CountShowAppend(mid[|a|..], c[|mid|..], id);
    CountShowAbsent(c[|mid|..], id);
  }

  /** Showing the destination adds one `OnShow` for it when it is not the HUD or
      None and resolves, and none otherwise. */
  lemma ShowDestinationShowsOnce(s: ScreenState, env: ScreenEnv, id: ScreenId, data: Option<Payload>)
    requires Wf(s) && s.current.None? && id.key != HudKey(env.config)
    ensures var r := ShowDestination(s, env, id, data);
            CountShow(r.hooks[|s.hooks|..], id) ==
              (if !id.IsNone() && (id.key in s.cache || env.loadable(id.key)) then 1 else 0)
  {
    var r := ShowDestination(s, env, id, data);
    if !id.IsNone() && (id.key in s.cache || env.loadable(id.key)) {
      var init: seq<Hook<ScreenId>> := if id.key in s.cache then [] else [OnInitialize(id)];
      assert r.hooks[|s.hooks|..] == init + [OnShow(id, data)];
      assert CountShow(init, id) == 0 by {
        if init != [] {
          assert init[..|init| - 1] == [];
        }
      }
      assert (init + [OnShow(id, data)])[..|init| + 1 - 1] == init;
    } else {
      assert r.hooks[|s.hooks|..] == [];
    }
  }

  lemma {:induction false} CountShowAppend(a: seq<Hook<ScreenId>>, b: seq<Hook<ScreenId>>, id: ScreenId)
    ensures CountShow(a + b, id) == CountShow(a, id) + CountShow(b, id)
    decreases |b|
  {
    if b == [] {
      assert a + b == a;
    } else {
      assert (a + b)[..|a + b| - 1] == a + b[..|b| - 1];
      CountShowAppend(a, b[..|b| - 1], id);
    }
  }

  /** A log with no `OnShow` for `id` counts none. */
  lemma {:induction false} CountShowAbsent(hooks: seq<Hook<ScreenId>>, id: ScreenId)
    requires forall i :: 0 <= i < |hooks| ==> !(hooks[i].OnShow? && hooks[i].id == id)
    ensures CountShow(hooks, id) == 0
    decreases |hooks|
  {
    if hooks != [] {
      CountShowAbsent(hooks[..|hooks| - 1], id);
    }
  }

  /** An element just after a middle prefix `b` of `c` lies in the part of `c` after `a`. */
  lemma SuffixContains<T>(a: seq<T>, b: seq<T>, c: seq<T>, x: T)
    requires a <= b && |b| < |c| && b <= c && c[|b|] == x
    ensures x in c[|a|..]
  {
    assert c[|a|..][|b| - |a|] == x;
  }

  /** Whatever lies after a longer prefix `b` of `c` also lies after a shorter one `a`. */
  lemma SuffixWidens<T>(a: seq<T>, b: seq<T>, c: seq<T>, x: T)
    requires a <= b && b <= c && x in c[|b|..]
    ensures x in c[|a|..]
  {
    var i :| 0 <= i < |c| - |b| && c[|b|..][i] == x;
    assert c[|a|..][i + |b| - |a|] == x;
  }

  /** A cache hit is returned without reloading, an unloadable key leaves the cache
      unchanged, and entries are never removed by a navigation. */
  lemma InstanceResolution(s: ScreenState, env: ScreenEnv, id: ScreenId)
    requires Wf(s)
    ensures id.key in s.cache ==> GetOrCreateScreen(s, env, id) == (s, true)
    ensures id.key !in s.cache && !env.loadable(id.key) ==> GetOrCreateScreen(s, env, id) == (s, false)
    ensures forall data, clear, pv :: s.cache.Keys <= ShowScreen(s, env, id, data, clear, pv).cache.Keys
    ensures forall pv :: s.cache.Keys <= GoBack(s, env, pv).cache.Keys
  {
  }

  /** After a transition the input goes to UI if a popup is visible, else to the
      player exactly when the destination's configuration uses player input;
      with no input handler nothing is switched. */
  lemma InputAfterTransitionDecision(s: ScreenState, env: ScreenEnv, id: ScreenId, data: Option<Payload>,
                                     clearHistory: bool, addToHistory: bool, popupVisible: bool)
    requires Wf(s)
    ensures var r := Routine(s, env, id, data, clearHistory, addToHistory, popupVisible);
            && (!env.hasInput ==> r.input == s.input)
            && (env.hasInput && popupVisible ==> r.input == Some(UIMode))
            && (env.hasInput && !popupVisible ==>
                  (r.input == Some(PlayerMode) <==>
                     ScreenConfigOf(env.config, id.key).Some? && ScreenConfigOf(env.config, id.key).value.usesPlayerInput)
                  && r.input.Some?)
  {
  }

  /** An override for the pair wins; otherwise the default; no configuration means instant. */
  lemma TransitionChoice(config: Option<UISystemConfig>, from: ScreenId, to: ScreenId)
    ensures config.None? ==> GetTransition(config, from, to).None?
    ensures config.Some? && FindTransitionOverride(config.value.transitionOverrides, from.key, to.key).Some? ==>
              GetTransition(config, from, to) == FindTransitionOverride(config.value.transitionOverrides, from.key, to.key)
    ensures config.Some? && FindTransitionOverride(config.value.transitionOverrides, from.key, to.key).None? ==>
              GetTransition(config, from, to) == config.value.defaultScreenTransition
  {
  }

  /** A screen excluded from history is skipped on the way back:
      A, then E (excluded), then F, then back, returns to A. */
  lemma ExcludedScreenSkippedOnBack(s: ScreenState, env: ScreenEnv, e: ScreenId, f: ScreenId, pv: bool)
    requires Wf(s) && !s.currentId.IsNone() && !e.IsNone() && !f.IsNone()
    requires s.currentId != e && e != f
    requires !IsExcludedFromHistory(env.config, s.currentId) && IsExcludedFromHistory(env.config, e)
    ensures var s1 := ShowScreen(s, env, e, None, false, pv);
            var s2 := ShowScreen(s1, env, f, None, false, pv);
            var s3 := GoBack(s2, env, pv);
            s3.currentId == s.currentId && s3.history == s.history
  {
    var s1 := ShowScreen(s, env, e, None, false, pv);
    ShowScreenHistory(s, env, e, None, pv);
    var s2 := ShowScreen(s1, env, f, None, false, pv);
    ShowScreenHistory(s1, env, f, None, pv);
    assert s2.history == s.history + [s.currentId];
    GoBackPops(s2, env, pv);
  }

  /** The current screen may also be on the history stack: A, then E (excluded),
      then A again leaves A current with A on top of the stack, and going back
      re-shows A. */
  lemma CurrentMayBeInHistory(s: ScreenState, env: ScreenEnv, e: ScreenId, pv: bool)
    requires Wf(s) && !s.currentId.IsNone() && !e.IsNone() && s.currentId != e
    requires !IsExcludedFromHistory(env.config, s.currentId) && IsExcludedFromHistory(env.config, e)
    ensures var s1 := ShowScreen(s, env, e, None, false, pv);
            var s2 := ShowScreen(s1, env, s.currentId, None, false, pv);
            && s2.currentId == s.currentId
            && s2.history == s.history + [s.currentId]
            && GoBack(s2, env, pv).currentId == s.currentId
  {
    var s1 := ShowScreen(s, env, e, None, false, pv);
    ShowScreenHistory(s, env, e, None, pv);
    ShowScreenHistory(s1, env, s.currentId, None, pv);
    var s2 := ShowScreen(s1, env, s.currentId, None, false, pv);
    GoBackPops(s2, env, pv);
  }

  /** Back from A, B, C (nothing excluded): B, then A, then the fallback. */
  lemma BackThroughHistory(s: ScreenState, env: ScreenEnv, b: ScreenId, c: ScreenId, pv: bool)
    requires Wf(s) && s.history == []
    requires !s.currentId.IsNone() && !b.IsNone() && !c.IsNone()
    requires s.currentId != b && b != c
    requires !IsExcludedFromHistory(env.config, s.currentId) && !IsExcludedFromHistory(env.config, b)
    requires env.config.Some? && env.config.value.fallbackScreenKey != ""
    requires env.config.value.fallbackScreenKey != s.currentId.key
    ensures var s1 := ShowScreen(s, env, b, None, false, pv);
            var s2 := ShowScreen(s1, env, c, None, false, pv);
            var s3 := GoBack(s2, env, pv);
            var s4 := GoBack(s3, env, pv);
            var s5 := GoBack(s4, env, pv);
            && s3.currentId == b && s4.currentId == s.currentId
            && s5.currentId == ScreenId(env.config.value.fallbackScreenKey)
            && s3.history == [s.currentId] && s4.history == [] && s5.history == []
  {
    var s1 := ShowScreen(s, env, b, None, false, pv);
    ShowScreenHistory(s, env, b, None, pv);
    var s2 := ShowScreen(s1, env, c, None, false, pv);
    ShowScreenHistory(s1, env, c, None, pv);
    assert s2.history == [s.currentId, b];
    var s3 := GoBack(s2, env, pv);
    GoBackPops(s2, env, pv);
    var s4 := GoBack(s3, env, pv);
    GoBackPops(s3, env, pv);
    GoBackWithEmptyHistory(s4, env, pv);
  }
}
