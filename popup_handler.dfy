/**
 * `PopupHandler`: the component that owns the showing popup, the pending
 * list, the order counter, the blocker flag and the popup cache, and updates
 * them in place. Each method is proved to leave exactly the state the
 * corresponding function of `PopupLogic` describes.
 */
module PopupHandling {
  import opened Wrappers
  import opened Identifiers
  import opened Configuration
  import opened Collaborators
  import opened PopupLogic

  class PopupHandler {
    const config: Option<UISystemConfig>
    const loader: string -> bool
    const inputHandler: InputRecorder?
    const hasBlocker: bool
    const bus: EventBus

    var currentPopup: Option<string>
    var pendingQueue: seq<PendingPopup>
    var orderCounter: int
    var blockerActive: bool
    var popupCache: map<string, View>
    ghost var hooks: seq<Hook<PopupId>>

    function Env(): PopupEnv {
      PopupEnv(config, loader, inputHandler != null, hasBlocker)
    }

    ghost function State(): PopupState
      reads this, bus, inputHandler
    {
      PopupState(currentPopup, pendingQueue, orderCounter, blockerActive, popupCache, hooks, bus.log,
                 if inputHandler == null then None else inputHandler.mode)
    }

    /** The handler's own fields as a state; the bus log and the input focus belong
        to shared collaborators and are left empty here. */
    ghost function Own(): PopupState
      reads this
    {
      PopupState(currentPopup, pendingQueue, orderCounter, blockerActive, popupCache, hooks, [], None)
    }

    /** The queue is sorted and numbered below the counter; the current popup is cached. */
    ghost predicate Queued()
      reads this
    {
      Wf(Own())
    }

    /** Queued, and modal: only the current popup is active, and the blocker is up
        exactly while one is. */
    ghost predicate Valid()
      reads this
    {
      Wf(Own()) && Modal(Own(), Env())
    }

    twostate predicate CancelBindingKept()
      reads inputHandler
    {
      inputHandler != null ==> inputHandler.cancelBound == old(inputHandler.cancelBound)
    }

    /** `AddComponent<PopupHandler>()` followed by `Initialize(canvas, blocker, config, inputHandler)`;
        the blocker panel starts deactivated. */
    constructor (config: Option<UISystemConfig>, loader: string -> bool, inputHandler: InputRecorder?,
                 hasBlocker: bool, bus: EventBus)
      ensures this.config == config && this.loader == loader && this.hasBlocker == hasBlocker
      ensures this.inputHandler == inputHandler && this.bus == bus
      ensures currentPopup.None? && pendingQueue == [] && orderCounter == 0 && !blockerActive
      ensures popupCache == map[] && hooks == []
      ensures Valid()
    {
      this.config := config;
      this.loader := loader;
      this.inputHandler := inputHandler;
      this.hasBlocker := hasBlocker;
      this.bus := bus;
      currentPopup := None;
      pendingQueue := [];
      orderCounter := 0;
      blockerActive := false;
      popupCache := map[];
      hooks := [];
    }

    /** `IsPopupVisible`, as `PopupLogic.IsPopupVisible` on the handler's state. */
    function IsPopupVisible(): (r: bool)
      reads this
      ensures r == PopupLogic.IsPopupVisible(Own())
    {
      currentPopup.Some?
    }

    method ShowPopup(id: PopupId, data: Option<Payload>, priority: int)
      requires Valid()
      modifies this, bus, inputHandler
      ensures Valid() && CancelBindingKept()
      ensures State() == PopupLogic.ShowPopup(old(State()), Env(), id, data, priority)
    {
      if currentPopup.Some? {
        Enqueue(id, data, priority);
        return;
      }
      ShowPopupRoutine(id, data);
    }

    /** `DismissPopup()`; `currentScreen` is `UIManager.Instance.CurrentScreen`,
        `None` when there is no instance. */
    method DismissPopup(currentScreen: Option<ScreenId>)
      requires Valid()
      modifies this, bus, inputHandler
      ensures Valid() && CancelBindingKept()
      ensures State() == PopupLogic.DismissPopup(old(State()), Env(), currentScreen)
    {
      if currentPopup.None? {
        return;
      }
      DismissPopupRoutine(currentScreen);
    }

    /** Calls `OnDispose` on every cached popup, once each. */
    method DisposeAll()
      modifies this
      ensures Valid() == old(Valid())
      ensures State().(hooks := old(hooks)) == old(State())
      ensures old(hooks) <= hooks
      ensures DisposesEachOnce(popupCache, hooks[|old(hooks)|..])
    {
      var remaining := popupCache.Keys;
      ghost var added: seq<Hook<PopupId>> := [];
      while remaining != {}
        invariant remaining <= popupCache.Keys
        invariant currentPopup == old(currentPopup) && pendingQueue == old(pendingQueue)
        invariant orderCounter == old(orderCounter) && blockerActive == old(blockerActive)
        invariant popupCache == old(popupCache)
        invariant hooks == old(hooks) + added
        invariant forall i :: 0 <= i < |added| ==> added[i].OnDispose? && added[i].id.key in popupCache - remaining
                                                   && added[i].id == PopupId(added[i].id.key)
        invariant forall k :: k in popupCache && k !in remaining ==> OnDispose(PopupId(k)) in added
        invariant forall i, j :: 0 <= i < j < |added| ==> added[i] != added[j]
        decreases remaining
      {
        var k :| k in remaining;
        hooks := hooks + [OnDispose(PopupId(k))];
        added := added + [OnDispose(PopupId(k))];
        remaining := remaining - {k};
      }
      assert hooks[|old(hooks)|..] == added;
      assert Own() == old(Own()).(hooks := hooks);
      InvariantsIgnoreHooks(old(Own()), Env(), hooks);
    }

    /** `Enqueue`: `Add` followed by `Sort` is `Insert` (see `PopupLogic.EnqueueIsAddThenSort`). */
    method Enqueue(id: PopupId, data: Option<Payload>, priority: int)
      requires Valid()
      modifies this
      ensures Valid()
      ensures State() == PopupLogic.Enqueue(old(State()), Env(), id, data, priority)
    {
      ghost var after := PopupLogic.Enqueue(State(), Env(), id, data, priority);
      var pending := PendingPopup(id, priority, data, orderCounter);
      orderCounter := orderCounter + 1;
      pendingQueue := Insert(pendingQueue, pending);
      assert State() == after;
    }

    /** `Dequeue`; its only caller checks that the list is not empty. */
    method Dequeue() returns (pending: PendingPopup)
      requires Queued() && |pendingQueue| > 0
      modifies this
      ensures Queued()
      ensures (State(), pending) == PopupLogic.Dequeue(old(State()))
    {
      pending := pendingQueue[0];
      pendingQueue := pendingQueue[1..];
    }

    method ShowPopupRoutine(id: PopupId, data: Option<Payload>)
      requires Queued()
      modifies this, bus, inputHandler
      ensures Queued() && CancelBindingKept()
      ensures old(Idle(Own(), Env())) ==> Valid()
      ensures State() == ShowRoutine(old(State()), Env(), id, data)
    {
      if hasBlocker {
        blockerActive := true;
      }

      var found := GetOrCreatePopup(id);
      if !found {
        if hasBlocker {
          blockerActive := false;
        }
        return;
      }

      currentPopup := Some(id.key);
      popupCache := popupCache[id.key := View(true, FadedIn)];
      hooks := hooks + [OnShow(id, data)];
      bus.Raise(PopupOpened(id));
      if inputHandler != null {
        inputHandler.SwitchToUI();
      }
    }

    method DismissPopupRoutine(currentScreen: Option<ScreenId>)
      requires Valid() && currentPopup.Some?
      modifies this, bus, inputHandler
      ensures Valid() && CancelBindingKept()
      ensures State() == DismissRoutine(old(State()), Env(), currentScreen)
    {
      var k := currentPopup.value;
      popupCache := popupCache[k := View(false, FadedOut)];
      hooks := hooks + [OnDismiss(PopupId(k))];
      var closedId := PopupId(k);
      currentPopup := None;
      ghost var closed := State();
      assert Idle(Own(), Env());

      if |pendingQueue| > 0 {
        var next := Dequeue();
        assert Idle(Own(), Env());
        ShowPopupRoutine(next.id, next.data);
      } else {
        if hasBlocker {
          blockerActive := false;
        }
        UpdateInputAfterPopup(currentScreen);
        assert Modal(Own(), Env());
      }
      ghost var settled := State();
      assert settled == if |closed.queue| > 0 then ShowRoutine(closed.(queue := closed.queue[1..]), Env(), closed.queue[0].id, closed.queue[0].data)
                        else (if hasBlocker then closed.(blockerActive := false) else closed).(input := InputAfterPopup(Env(), currentScreen, closed.input));

      bus.Raise(PopupClosed(closedId));
    }

    method UpdateInputAfterPopup(currentScreen: Option<ScreenId>)
      modifies inputHandler
      ensures CancelBindingKept()
      ensures State() == old(State()).(input := InputAfterPopup(Env(), currentScreen, old(State()).input))
    {
      if inputHandler == null {
        return;
      }
      if currentScreen.None? {
        return;
      }
      var screenConfig := ScreenConfigOf(config, currentScreen.value.key);
      if screenConfig.Some? && screenConfig.value.usesPlayerInput {
        inputHandler.SwitchToPlayer();
      } else {
        inputHandler.SwitchToUI();
      }
    }

    method GetOrCreatePopup(id: PopupId) returns (found: bool)
      requires Queued()
      modifies this
      ensures Queued()
      ensures (State(), found) == PopupLogic.GetOrCreatePopup(old(State()), Env(), id)
    {
      if id.key in popupCache {
        return true;
      }
      if !loader(id.key) {
        return false;
      }
      hooks := hooks + [OnInitialize(id)];
      popupCache := popupCache[id.key := FreshView];
      return true;
    }
  }
}
