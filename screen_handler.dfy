/**
 * `ScreenHandler`: the component that owns the current screen, the history
 * stack and the screen cache, and updates them in place. Each method is
 * proved to leave exactly the state the corresponding function of
 * `ScreenLogic` describes.
 */
module ScreenHandling {
  import opened Wrappers
  import opened Identifiers
  import opened Configuration
  import opened Collaborators
  import opened ScreenLogic

  class ScreenHandler {
    const config: Option<UISystemConfig>
    const loader: string -> bool
    const inputHandler: InputRecorder?
    const bus: EventBus

    var currentScreenId: ScreenId
    var currentScreen: Option<string>
    var history: seq<ScreenId>
    var screenCache: map<string, View>
    ghost var hooks: seq<Hook<ScreenId>>

    /** What the handler was initialised with. */
    function Env(): ScreenEnv {
      ScreenEnv(config, loader, inputHandler != null)
    }

    /** The handler's state, with the bus log and the input handler's last focus. */
    ghost function State(): ScreenState
      reads this, bus, inputHandler
    {
      ScreenState(currentScreenId, currentScreen, history, screenCache, hooks, bus.log,
                  if inputHandler == null then None else inputHandler.mode)
    }

    /** The handler's own fields as a state; the bus log and the input focus belong
        to shared collaborators and are left empty here. */
    ghost function Own(): ScreenState
      reads this
    {
      ScreenState(currentScreenId, currentScreen, history, screenCache, hooks, [], None)
    }

    /** The current instance, when there is one, is cached. */
    ghost predicate Cached()
      reads this
    {
      Wf(Own())
    }

    /** Cached, and one screen at a time. */
    ghost predicate Valid()
      reads this
    {
      Wf(Own()) && OneActive(Own(), Env())
    }

    /** The input handler's cancel binding is not the handler's business. */
    twostate predicate CancelBindingKept()
      reads inputHandler
    {
      inputHandler != null ==> inputHandler.cancelBound == old(inputHandler.cancelBound)
    }

    /** `AddComponent<ScreenHandler>()` followed by `Initialize(canvas, config, inputHandler)`. */
    constructor (config: Option<UISystemConfig>, loader: string -> bool, inputHandler: InputRecorder?, bus: EventBus)
      ensures this.config == config && this.loader == loader
      ensures this.inputHandler == inputHandler && this.bus == bus
      ensures currentScreenId == ScreenId.None && currentScreen.None?
      ensures history == [] && screenCache == map[] && hooks == []
      ensures Valid()
    {
      this.config := config;
      this.loader := loader;
      this.inputHandler := inputHandler;
      this.bus := bus;
      currentScreenId := ScreenId.None;
      currentScreen := None;
      history := [];
      screenCache := map[];
      hooks := [];
    }

    /** `CurrentScreen`: the identifier of the modelled state. */
    function CurrentScreen(): (r: ScreenId)
      reads this
      ensures r == Own().currentId
    {
      currentScreenId
    }

    method ShowScreen(id: ScreenId, data: Option<Payload>, clearHistory: bool, popupVisible: bool)
      requires Valid()
      modifies this, bus, inputHandler
      ensures Valid() && CancelBindingKept()
      ensures State() == ScreenLogic.ShowScreen(old(State()), Env(), id, data, clearHistory, popupVisible)
    {
      if ScreenEq(id, currentScreenId) && !id.IsNone() {
        return;
      }
      ShowScreenRoutine(id, data, clearHistory, true, popupVisible);
    }

    method GoBack(popupVisible: bool)
      requires Valid()
      modifies this, bus, inputHandler
      ensures Valid() && CancelBindingKept()
      ensures State() == ScreenLogic.GoBack(old(State()), Env(), popupVisible)
    {
      if |history| > 0 {
        var previous := history[|history| - 1];
        history := history[..|history| - 1];
        ShowScreenRoutine(previous, None, false, false, popupVisible);
        bus.Raise(BackNavigated);
        return;
      }

      if config.Some? && config.value.fallbackScreenKey != "" {
        var fallback := NewScreenId(Some(config.value.fallbackScreenKey));
        if ScreenNeq(fallback, currentScreenId) {
          ShowScreenRoutine(fallback, None, false, false, popupVisible);
          bus.Raise(BackNavigated);
        }
      }
    }

    method ShowHUD()
      requires Valid()
      modifies this, bus
      ensures Valid()
      ensures State() == ToggleHud(old(State()), Env(), true)
    {
      ToggleHUD(true);
    }

    method HideHUD()
      requires Valid()
      modifies this, bus
      ensures Valid()
      ensures State() == ToggleHud(old(State()), Env(), false)
    {
      ToggleHUD(false);
    }

    /** Calls `OnDispose` on every cached screen, once each; the order of a
        dictionary's values is left open. */
    method DisposeAll()
      modifies this
      ensures Valid() == old(Valid())
      ensures State().(hooks := old(hooks)) == old(State())
      ensures old(hooks) <= hooks
      ensures DisposesEachOnce(screenCache, hooks[|old(hooks)|..])
    {
      var remaining := screenCache.Keys;
      ghost var added: seq<Hook<ScreenId>> := [];
      while remaining != {}
        invariant remaining <= screenCache.Keys
        invariant currentScreenId == old(currentScreenId) && currentScreen == old(currentScreen)
        invariant history == old(history) && screenCache == old(screenCache)
        invariant hooks == old(hooks) + added
        invariant forall i :: 0 <= i < |added| ==> added[i].OnDispose? && added[i].id.key in screenCache - remaining
                                                   && added[i].id == ScreenId(added[i].id.key)
        invariant forall k :: k in screenCache && k !in remaining ==> OnDispose(ScreenId(k)) in added
        invariant forall i, j :: 0 <= i < j < |added| ==> added[i] != added[j]
        decreases remaining
      {
        var k :| k in remaining;
        hooks := hooks + [OnDispose(ScreenId(k))];
        added := added + [OnDispose(ScreenId(k))];
        remaining := remaining - {k};
      }
      assert hooks[|old(hooks)|..] == added;
      assert Own() == old(Own()).(hooks := hooks);
    }

    /** `ShowScreenRoutine`, run to completion. */
    method ShowScreenRoutine(id: ScreenId, data: Option<Payload>, clearHistory: bool, addToHistory: bool, popupVisible: bool)
      requires Valid()
      modifies this, bus, inputHandler
      ensures Valid() && CancelBindingKept()
      ensures State() == Routine(old(State()), Env(), id, data, clearHistory, addToHistory, popupVisible)
    {
      var previousId := currentScreenId;

      if clearHistory {
        history := [];
      }
      if addToHistory && !clearHistory && !previousId.IsNone() && !IsExcludedFromHistory(config, previousId) {
        history := history + [previousId];
      }
      ghost var recorded := State();
      assert recorded == RecordHistory(old(State()), Env(), clearHistory, addToHistory);
      assert OneActive(recorded, Env()) by {
        assert recorded.current == old(currentScreen) && recorded.cache == old(screenCache);
        assert OneActive(old(Own()), Env());
      }

      HideCurrentScreen();

      var hideHud := ShouldHideHudForScreen(config, id);
      if hideHud {
        ToggleHUD(false);
      }
      assert State() == Leave(recorded, Env(), id);
      assert OneActive(Own(), Env()) by {
        assert OneActive(State(), Env());
        assert Own().current == State().current && Own().cache == State().cache;
      }
      EnterScreen(id, data, popupVisible);
    }

    /** The rest of the routine once the outgoing screen is gone: the destination
        becomes current, its instance and then the HUD are shown as configured,
        and the input is re-routed. */
    method EnterScreen(id: ScreenId, data: Option<Payload>, popupVisible: bool)
      requires Valid() && currentScreen.None?
      modifies this, bus, inputHandler
      ensures Valid() && CancelBindingKept()
      ensures State() == Arrive(old(State()), Env(), id, data, popupVisible)
    {
      var showHud := ShouldShowHudForScreen(config, id);
      currentScreenId := id;
      ghost var entered := State();
      var hudKey := HudKey(config);
      if id.key != hudKey && !id.IsNone() {
        ShowIncomingScreen(id, data);
      }
      ghost var shown := State();
      assert shown == if id.key != hudKey && !id.IsNone() then ShowIncoming(entered, Env(), id, data) else entered;
      if showHud {
        ToggleHUD(true);
      }
      ghost var settled := State();
      assert settled == if showHud then ToggleHud(shown, Env(), true) else shown;
      UpdateInputState(popupVisible);
    }

    /** The outgoing half of the routine: hide, fade out, deactivate, announce. */
    method HideCurrentScreen()
      requires Cached()
      modifies this, bus
      ensures Cached()
      ensures State() == HideCurrent(old(State()))
    {
      if currentScreen.Some? {
        var k := currentScreen.value;
        hooks := hooks + [OnHide(ScreenId(k))];
        screenCache := screenCache[k := View(false, FadedOut)];
        bus.Raise(ScreenHidden(ScreenId(k)));
        currentScreen := None;
      }
    }

    /** The incoming half: resolve, activate, fade in, show with the payload, announce. */
    method ShowIncomingScreen(id: ScreenId, data: Option<Payload>)
      requires Cached()
      modifies this, bus
      ensures Cached()
      ensures State() == ShowIncoming(old(State()), Env(), id, data)
    {
      var found := GetOrCreateScreen(id);
      if found {
        screenCache := screenCache[id.key := View(true, FadedIn)];
        hooks := hooks + [OnShow(id, data)];
        bus.Raise(ScreenShown(id));
        currentScreen := Some(id.key);
      }
    }

    method GetOrCreateScreen(id: ScreenId) returns (found: bool)
      requires Cached()
      modifies this
      ensures Cached()
      ensures (State(), found) == ScreenLogic.GetOrCreateScreen(old(State()), Env(), id)
    {
      if id.key in screenCache {
        return true;
      }
      if !loader(id.key) {
        return false;
      }
      hooks := hooks + [OnInitialize(id)];
      screenCache := screenCache[id.key := FreshView];
      return true;
    }

    method ToggleHUD(visible: bool)
      requires Cached()
      modifies this, bus
      ensures Cached()
      ensures State() == ToggleHud(old(State()), Env(), visible)
    {
      var hudId := ScreenId(HudKey(config));
      var found := GetOrCreateScreen(hudId);
      if !found {
        return;
      }
      var hud := screenCache[hudId.key];
      if visible && !hud.active {
        screenCache := screenCache[hudId.key := View(true, FadedIn)];
        hooks := hooks + [OnShow(hudId, None)];
        bus.Raise(ScreenShown(hudId));
      } else if !visible && hud.active {
        hooks := hooks + [OnHide(hudId)];
        screenCache := screenCache[hudId.key := View(false, FadedOut)];
        bus.Raise(ScreenHidden(hudId));
      }
    }

    /** `UpdateInputState`; `popupVisible` is `UIManager.Instance.IsPopupVisible`. */
    method UpdateInputState(popupVisible: bool)
      modifies inputHandler
      ensures CancelBindingKept()
      ensures State() == old(State()).(input := InputAfterTransition(Env(), currentScreenId, popupVisible, old(State()).input))
    {
      if inputHandler == null {
        return;
      }
      if popupVisible {
        inputHandler.SwitchToUI();
        return;
      }
      var screenConfig := ScreenConfigOf(config, currentScreenId.key);
      if screenConfig.Some? && screenConfig.value.usesPlayerInput {
        inputHandler.SwitchToPlayer();
      } else {
        inputHandler.SwitchToUI();
      }
    }
  }
}
