/**
 * `UIManager`: the single entry point the game talks to. It owns one
 * `ScreenHandler` and one `PopupHandler`, forwards every call to them, routes
 * the cancel action, and registers itself as the process-wide instance.
 * The static `Instance` property is the `InstanceSlot` object every caller
 * shares.
 */
module Facade {
  import opened Wrappers
  import opened Identifiers
  import opened Configuration
  import opened Collaborators
  import ScreenLogic
  import PopupLogic
  import opened ScreenHandling
  import opened PopupHandling

  /** The static `UIManager.Instance`. */
  class InstanceSlot {
    var instance: UIManager?

    constructor ()
      ensures instance == null
    {
      instance := null;
    }
  }

  /** `UIManager.Instance != null && UIManager.Instance.IsPopupVisible`, as the screen handler asks it. */
  function PopupVisibleOf(slot: InstanceSlot): (r: bool)
    reads slot, slot.instance, if slot.instance == null then {} else {slot.instance.popupHandler}
    ensures slot.instance == null ==> !r
    ensures slot.instance != null && slot.instance.popupHandler != null ==>
              r == PopupLogic.IsPopupVisible(slot.instance.popupHandler.Own())
  {
    slot.instance != null && slot.instance.IsPopupVisible()
  }

  /** `UIManager.Instance.CurrentScreen`, `None` when there is no instance, as the popup handler asks it. */
  function CurrentScreenOf(slot: InstanceSlot): (r: Option<ScreenId>)
    reads slot, slot.instance, if slot.instance == null then {} else {slot.instance.screenHandler}
    ensures r.None? <==> slot.instance == null
    ensures slot.instance != null ==> r == Some(slot.instance.CurrentScreen())
    ensures slot.instance != null && slot.instance.screenHandler != null ==>
              r == Some(slot.instance.screenHandler.Own().currentId)
  {
    if slot.instance == null then None else Some(slot.instance.CurrentScreen())
  }

  class UIManager {
    const config: Option<UISystemConfig>
    /** `Resources.Load<UIScreen>` and `Resources.Load<UIPopup>` by key: whether a prefab exists. */
    const screenLoader: string -> bool
    const popupLoader: string -> bool
    /** The static `UIEvents` channel. */
    const bus: EventBus

    /** `Destroy(gameObject)` was requested on this duplicate. */
    var destroyed: bool
    /** `InitializeCanvases` ran: the two canvases and the (inactive) blocker panel exist. */
    var hasCanvases: bool
    var screenHandler: ScreenHandler?
    var popupHandler: PopupHandler?
    var inputHandler: InputRecorder?
    /** `OnCancelPressed != null`. */
    var hasCancelCallback: bool
    /** How often `OnCancelPressed` has been invoked. */
    ghost var cancelInvocations: nat

    ghost predicate Valid()
      reads this, screenHandler, popupHandler
    {
      && (screenHandler != null ==>
            && screenHandler.Valid()
            && screenHandler.config == config && screenHandler.loader == screenLoader
            && screenHandler.inputHandler == inputHandler && screenHandler.bus == bus)
      && (popupHandler != null ==>
            && popupHandler.Valid()
            && popupHandler.config == config && popupHandler.loader == popupLoader
            && popupHandler.inputHandler == inputHandler && popupHandler.bus == bus)
    }

    /** Both handlers exist: `Initialize` has run. */
    ghost predicate Ready()
      reads this, screenHandler, popupHandler
    {
      Valid() && screenHandler != null && popupHandler != null && inputHandler != null
    }

    /** A fresh component before `Awake`: no handlers, no input handler, no callback. */
    constructor (config: Option<UISystemConfig>, screenLoader: string -> bool, popupLoader: string -> bool, bus: EventBus)
      ensures this.config == config && this.screenLoader == screenLoader
      ensures this.popupLoader == popupLoader && this.bus == bus
      ensures !destroyed && !hasCanvases && !hasCancelCallback && cancelInvocations == 0
      ensures screenHandler == null && popupHandler == null && inputHandler == null
      ensures Valid()
      ensures CurrentScreen() == ScreenId.None && !IsPopupVisible()
    {
      this.config := config;
      this.screenLoader := screenLoader;
      this.popupLoader := popupLoader;
      this.bus := bus;
      destroyed := false;
      hasCanvases := false;
      screenHandler := null;
      popupHandler := null;
      inputHandler := null;
      hasCancelCallback := false;
      cancelInvocations := 0;
    }

    /** `CurrentScreen`: `ScreenId.None` until the screen handler exists. */
    function CurrentScreen(): (r: ScreenId)
      reads this, screenHandler
      ensures screenHandler == null ==> r == ScreenId.None
      ensures screenHandler != null ==> r == screenHandler.CurrentScreen() && r == screenHandler.Own().currentId
    {
      if screenHandler != null then screenHandler.CurrentScreen() else ScreenId.None
    }

    /** `IsPopupVisible`: false until the popup handler exists. */
    function IsPopupVisible(): (r: bool)
      reads this, popupHandler
      ensures popupHandler == null ==> !r
      ensures popupHandler != null ==> r == PopupLogic.IsPopupVisible(popupHandler.Own())
    {
      popupHandler != null && popupHandler.IsPopupVisible()
    }

    /** `Awake`: a second manager destroys itself and leaves the instance alone. */
    method Awake(slot: InstanceSlot)
      modifies this, slot
      ensures old(slot.instance) != null && old(slot.instance) != this ==>
                destroyed && slot.instance == old(slot.instance) && hasCanvases == old(hasCanvases)
      ensures !(old(slot.instance) != null && old(slot.instance) != this) ==>
                destroyed == old(destroyed) && slot.instance == this && hasCanvases
      ensures screenHandler == old(screenHandler) && popupHandler == old(popupHandler)
      ensures inputHandler == old(inputHandler) && hasCancelCallback == old(hasCancelCallback)
      ensures cancelInvocations == old(cancelInvocations)
    {
      if slot.instance != null && slot.instance != this {
        destroyed := true;
        return;
      }
      slot.instance := this;
      hasCanvases := true;
    }

    /** `OnDestroy`: disposes both caches and clears the instance only when it is this manager. */
    method OnDestroy(slot: InstanceSlot)
      requires Valid()
      modifies slot, screenHandler, popupHandler
      ensures Valid()
      ensures slot.instance == if old(slot.instance) == this then null else old(slot.instance)
      ensures screenHandler != null ==>
                && screenHandler.State().(hooks := old(screenHandler.hooks)) == old(screenHandler.State())
                && old(screenHandler.hooks) <= screenHandler.hooks
                && ScreenLogic.DisposesEachOnce(screenHandler.screenCache, screenHandler.hooks[|old(screenHandler.hooks)|..])
      ensures popupHandler != null ==>
                && popupHandler.State().(hooks := old(popupHandler.hooks)) == old(popupHandler.State())
                && old(popupHandler.hooks) <= popupHandler.hooks
                && PopupLogic.DisposesEachOnce(popupHandler.popupCache, popupHandler.hooks[|old(popupHandler.hooks)|..])
    {
      if screenHandler != null {
        screenHandler.DisposeAll();
      }
      if popupHandler != null {
        popupHandler.DisposeAll();
      }
      if slot.instance == this {
        slot.instance := null;
      }
    }

    /** `Initialize(inputHandler)`: new handlers on the canvases, then the cancel binding. */
    method Initialize(input: InputRecorder)
      requires Valid()
      modifies this, input
      ensures Ready() && inputHandler == input
      ensures fresh(screenHandler) && fresh(popupHandler)
      ensures screenHandler.State() == ScreenLogic.ScreenState(ScreenId.None, None, [], map[], [], bus.log, input.mode)
      ensures popupHandler.State() == PopupLogic.PopupState(None, [], 0, false, map[], [], bus.log, input.mode)
      ensures popupHandler.hasBlocker == hasCanvases
      ensures input.cancelBound && input.mode == old(input.mode)
      ensures CurrentScreen() == ScreenId.None && !IsPopupVisible()
      ensures hasCanvases == old(hasCanvases) && destroyed == old(destroyed)
      ensures hasCancelCallback == old(hasCancelCallback) && cancelInvocations == old(cancelInvocations)
    {
      inputHandler := input;
      screenHandler := new ScreenHandler(config, screenLoader, inputHandler, bus);
      popupHandler := new PopupHandler(config, popupLoader, inputHandler, hasCanvases, bus);
      input.BindCancelAction();
    }

    /** All four `ShowScreen` overloads: no data is `None`, no `clearHistory` is false. */
    method ShowScreen(slot: InstanceSlot, id: ScreenId, data: Option<Payload>, clearHistory: bool)
      requires Ready()
      modifies screenHandler, bus, inputHandler
      ensures Ready() && screenHandler.CancelBindingKept()
      ensures screenHandler.State()
           == ScreenLogic.ShowScreen(old(screenHandler.State()), screenHandler.Env(), id, data, clearHistory, old(PopupVisibleOf(slot)))
      ensures unchanged(popupHandler)
    {
      var popupVisible := PopupVisibleOf(slot);
      screenHandler.ShowScreen(id, data, clearHistory, popupVisible);
    }

    method GoBack(slot: InstanceSlot)
      requires Ready()
      modifies screenHandler, bus, inputHandler
      ensures Ready() && screenHandler.CancelBindingKept()
      ensures screenHandler.State()
           == ScreenLogic.GoBack(old(screenHandler.State()), screenHandler.Env(), old(PopupVisibleOf(slot)))
      ensures unchanged(popupHandler)
    {
      var popupVisible := PopupVisibleOf(slot);
      screenHandler.GoBack(popupVisible);
    }

    method ShowHUD()
      requires Ready()
      modifies screenHandler, bus
      ensures Ready()
      ensures screenHandler.State() == ScreenLogic.ToggleHud(old(screenHandler.State()), screenHandler.Env(), true)
      ensures unchanged(popupHandler)
    {
      screenHandler.ShowHUD();
    }

    method HideHUD()
      requires Ready()
      modifies screenHandler, bus
      ensures Ready()
      ensures screenHandler.State() == ScreenLogic.ToggleHud(old(screenHandler.State()), screenHandler.Env(), false)
      ensures unchanged(popupHandler)
    {
      screenHandler.HideHUD();
    }

    /** Both `ShowPopup` overloads: no data is `None`, the default priority is 0. */
    method ShowPopup(slot: InstanceSlot, id: PopupId, data: Option<Payload>, priority: int)
      requires Ready()
      modifies popupHandler, bus, inputHandler
      ensures Ready() && popupHandler.CancelBindingKept()
      ensures popupHandler.State() == PopupLogic.ShowPopup(old(popupHandler.State()), popupHandler.Env(), id, data, priority)
      ensures unchanged(screenHandler)
    {
      popupHandler.ShowPopup(id, data, priority);
    }

    method DismissPopup(slot: InstanceSlot)
      requires Ready()
      modifies popupHandler, bus, inputHandler
      ensures Ready() && popupHandler.CancelBindingKept()
      ensures popupHandler.State()
           == PopupLogic.DismissPopup(old(popupHandler.State()), popupHandler.Env(), old(CurrentScreenOf(slot)))
      ensures unchanged(screenHandler)
    {
      var currentScreen := CurrentScreenOf(slot);
      popupHandler.DismissPopup(currentScreen);
    }

    /** `HandleCancel`, bound to the input handler's cancel action: a visible popup is
        dismissed, otherwise the game's `OnCancelPressed` runs if one is set. */
    method HandleCancel(slot: InstanceSlot)
      requires Ready()
      modifies this, popupHandler, bus, inputHandler
      ensures screenHandler == old(screenHandler) && popupHandler == old(popupHandler)
      ensures inputHandler == old(inputHandler) && hasCancelCallback == old(hasCancelCallback)
      ensures destroyed == old(destroyed) && hasCanvases == old(hasCanvases)
      ensures Ready() && popupHandler.CancelBindingKept()
      ensures old(IsPopupVisible()) ==>
                && popupHandler.State() == PopupLogic.DismissRoutine(old(popupHandler.State()), popupHandler.Env(), old(CurrentScreenOf(slot)))
                && cancelInvocations == old(cancelInvocations)
      ensures !old(IsPopupVisible()) ==>
                && popupHandler.State() == old(popupHandler.State())
                && cancelInvocations == old(cancelInvocations) + (if hasCancelCallback then 1 else 0)
      ensures unchanged(screenHandler)
    {
      if popupHandler.IsPopupVisible() {
        DismissPopup(slot);
        return;
      }
      if hasCancelCallback {
        cancelInvocations := cancelInvocations + 1;
      }
    }

    /** Sets or clears `OnCancelPressed`. */
    method SetCancelCallback(present: bool)
      modifies this
      ensures hasCancelCallback == present
      ensures screenHandler == old(screenHandler) && popupHandler == old(popupHandler)
      ensures inputHandler == old(inputHandler) && cancelInvocations == old(cancelInvocations)
      ensures destroyed == old(destroyed) && hasCanvases == old(hasCanvases)
    {
      hasCancelCallback := present;
    }
  }
}
