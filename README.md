# UI navigation system: a verified model

This project models the runtime core of a Unity UI navigation library.

- **`ScreenHandler`** shows one screen at a time. It keeps a history stack for back navigation, shows and hides the HUD, and caches screen instances by key.
- **`PopupHandler`** shows one popup at a time. Other requests wait in a queue ordered by priority, then by arrival order. A modal blocker panel stays on while popups are showing.
- **`UIManager`** is a singleton facade. It owns both handlers, forwards calls to them, and routes the cancel action: cancel dismisses the visible popup, or otherwise calls the game's callback.
- **`UISystemConfig`** answers first-match lookups: per-screen settings and directed transition overrides.
- **`ScreenId` / `PopupId`** are string keys compared ordinally. The registry behind their generated enums (`EnumCodeGenerator.AddEntry` / `HasEntry`) hands out indices that are never reused.

Files:

| file | module | contents |
|---|---|---|
| `wrappers.dfy` | `Wrappers` | `Option`, standing for a nullable reference. |
| `identifiers.dfy` | `Identifiers` | `ScreenId` and `PopupId`: construction, equality operators, `Equals(object)`, string conversion. |
| `ui_system_config.dfy` | `Configuration` | The configuration asset and its two lookups. |
| `collaborators.dfy` | `Collaborators` | The notifications `UIEvents` raises; the lifecycle hooks of screens and popups; a component's visible state; the input handler, which records the last focus and the cancel binding. |
| `screen_logic.dfy` | `ScreenLogic` | The screen handler's state as a value. Each operation is a function on that value, and the lemmas state navigation properties. |
| `screen_handler.dfy` | `ScreenHandling` | The `ScreenHandler` class. Its methods update fields in place and are proved equal to the `ScreenLogic` functions. |
| `popup_logic.dfy` | `PopupLogic` | The same for popups: queue ordering, serving order, show and dismiss. |
| `popup_handler.dfy` | `PopupHandling` | The `PopupHandler` class, proved against `PopupLogic`. |
| `facade.dfy` | `Facade` | `UIManager` and the static `Instance`. |
| `enum_registry.dfy` | `Registry` | `RegistryData` and the `AddEntry` / `HasEntry` loops. |

## How the model is built

- **Coroutines.** Every coroutine (`ShowScreenRoutine`, `ToggleHUD`, `ShowPopupRoutine`, `DismissPopupRoutine`, and the fades) is one atomic step that runs to completion. Under that reading the statements after a `StartCoroutine` run after the routine's effects. This is a simplification, and "Left out" says where it changes the order of notifications.
- **Fades.** A fade keeps only its end state. `View(active, fade)` records whether the game object is active and which fade completed last: `Untouched`, `FadedIn` or `FadedOut`. For a `FadedIn` or `FadedOut` view, the end state also gives the canvas group's alpha (1 or 0) and its interactable/raycast flags. Every transition, instant or timed, ends in the same state, so the choice of transition (`GetTransition`, `GetDefaultTransition`) has no effect on the modelled state. It is modelled and proved on its own.
- **Notifications and hooks.**
  - The notifications go to one `EventBus` object, which holds a ghost log.
  - The calls into screen and popup components (`OnInitialize`, `OnShow`, `OnHide`, `OnDismiss`, `OnDispose`) go to a ghost `hooks` log on each handler.
  - The input handler is a shared `InputRecorder` object. It records the last focus switch and whether the cancel action is bound.
- **Loading.** `Resources.Load` plus `GetComponent` is a function `loader: string -> bool`. It says whether a prefab with the right component exists for a key.
- **Reading the singleton.** The handlers read `UIManager.Instance`. In the model they take what they read as a parameter instead:
  - `popupVisible` goes to the screen handler;
  - `currentScreen`, which is `None` when there is no instance, goes to the popup handler.
  
  `UIManager` computes both from the `InstanceSlot` object that stands for the static property.
- **Invariants.** Each handler's `Valid()` holds between calls.
  - For screens, `ScreenLogic.OneActive` says one screen shows at a time. The only active cached instance other than the HUD is the current one, and a current instance is cached, active and not the HUD.
  - For popups, `PopupLogic.Modal` says one popup shows at a time. A cached popup is active exactly when it is current. A supplied blocker is up exactly while a popup is current.
  - The steps inside a routine keep a weaker invariant: only that the current instance is cached.

## Model

| member | source | states |
|---|---|---|
| Wrappers.Option.GetOr | Runtime/Identifiers/ScreenId.cs:13 | Replacing a missing value by a default returns the value when present and the default otherwise (`key ?? string.Empty`). |
| Identifiers.NewScreenId | Runtime/Identifiers/ScreenId.cs:11-14 | A null key gives the none identifier; any other key is kept as is. |
| Identifiers.NewPopupId | Runtime/Identifiers/PopupId.cs:11-14 | A null key gives the none identifier; any other key is kept as is. |
| Identifiers.ScreenId.IsNone | Runtime/Identifiers/ScreenId.cs:16 | True exactly for `ScreenId.None`. |
| Identifiers.ScreenId.Equals | Runtime/Identifiers/ScreenId.cs:18 | Ordinal key equality is equality of the identifiers. |
| Identifiers.ScreenId.EqualsObject | Runtime/Identifiers/ScreenId.cs:19 | True exactly for this identifier boxed as a `ScreenId`. |
| Identifiers.ScreenId.ToString | Runtime/Identifiers/ScreenId.cs:21 | Constructing an identifier from the returned string gives this identifier back. |
| Identifiers.ScreenEq | Runtime/Identifiers/ScreenId.cs:23 | `==` holds exactly for equal identifiers. |
| Identifiers.ScreenNeq | Runtime/Identifiers/ScreenId.cs:24 | `!=` holds exactly for different identifiers. |
| Identifiers.ScreenToString | Runtime/Identifiers/ScreenId.cs:26 | The implicit string conversion agrees with `ToString()` and round-trips through the constructor. |
| Identifiers.PopupId.IsNone | Runtime/Identifiers/PopupId.cs:16 | True exactly for `PopupId.None`. |
| Identifiers.PopupId.Equals | Runtime/Identifiers/PopupId.cs:18 | Ordinal key equality is equality of the identifiers. |
| Identifiers.PopupId.EqualsObject | Runtime/Identifiers/PopupId.cs:19 | True exactly for this identifier boxed as a `PopupId`. |
| Identifiers.PopupId.ToString | Runtime/Identifiers/PopupId.cs:21 | Constructing an identifier from the returned string gives this identifier back. |
| Identifiers.PopupEq | Runtime/Identifiers/PopupId.cs:23 | `==` holds exactly for equal identifiers. |
| Identifiers.PopupNeq | Runtime/Identifiers/PopupId.cs:24 | `!=` holds exactly for different identifiers. |
| Identifiers.PopupToString | Runtime/Identifiers/PopupId.cs:26 | The implicit string conversion agrees with `ToString()` and round-trips through the constructor. |
| Identifiers.ScreenIsNoneIffEmpty | Runtime/Identifiers/ScreenId.cs:7-16 | `IsNone` holds exactly for the empty key, and `ScreenId.None` is none. |
| Identifiers.ScreenEqualityIsKeyEquality | Runtime/Identifiers/ScreenId.cs:11-23 | `==` holds exactly when the keys are ordinally equal, which is value equality; a null-key identifier equals `None`. |
| Identifiers.ScreenNeqNegatesEq | Runtime/Identifiers/ScreenId.cs:23-24 | `!=` is the negation of `==`. |
| Identifiers.ScreenEqualsObjectOnlyScreenIds | Runtime/Identifiers/ScreenId.cs:19 | `Equals(object)` holds only for a boxed `ScreenId` with an equal key; never for null, a `PopupId` or a string with the same characters. |
| Identifiers.ScreenStringConversions | Runtime/Identifiers/ScreenId.cs:21-26 | `ToString()` and the implicit string conversion both return the key; constructing from a key and converting back gives the key. |
| Identifiers.PopupIsNoneIffEmpty | Runtime/Identifiers/PopupId.cs:7-16 | `IsNone` holds exactly for the empty key, and `PopupId.None` is none. |
| Identifiers.PopupEqualityIsKeyEquality | Runtime/Identifiers/PopupId.cs:11-23 | `==` holds exactly when the keys are ordinally equal; a null-key identifier equals `None`. |
| Identifiers.PopupNeqNegatesEq | Runtime/Identifiers/PopupId.cs:23-24 | `!=` is the negation of `==`. |
| Identifiers.PopupEqualsObjectOnlyPopupIds | Runtime/Identifiers/PopupId.cs:19 | `Equals(object)` holds only for a boxed `PopupId` with an equal key. |
| Identifiers.PopupStringConversions | Runtime/Identifiers/PopupId.cs:21-26 | `ToString()` and the implicit conversion return the key. |
| Configuration.DefaultConfig | Runtime/Configuration/UISystemConfig.cs:9-23 | A new asset has HUD and fallback key `"HUD"`, no default transitions, and empty lists. |
| Configuration.UISystemConfig.GetScreenConfig | Runtime/Configuration/UISystemConfig.cs:25-33 | Null exactly when no entry has the key. Otherwise the result is the entry at the first position holding the key. |
| Configuration.UISystemConfig.GetTransitionOverride | Runtime/Configuration/UISystemConfig.cs:35-44 | Null when no entry is for the ordered pair. Otherwise the transition of the first entry for exactly that pair, set or not. |
| Configuration.FindScreenConfig | Runtime/Configuration/UISystemConfig.cs:25-33 | Null exactly when no entry has the key. Otherwise the result is the first entry with that key. |
| Configuration.FindTransitionOverride | Runtime/Configuration/UISystemConfig.cs:35-44 | Null when no entry is for the ordered pair. Otherwise the result is the transition of the first entry for exactly that pair. |
| Configuration.HudKey | Runtime/Core/ScreenHandler.cs:128 | The HUD key is the configured one, or `"HUD"` without a configuration. |
| Configuration.ScreenConfigOf | Runtime/Core/ScreenHandler.cs:208 | The null-guarded lookup is null exactly when there is no configuration or no entry for the key. Otherwise it is the first entry for the key, and that first entry is unique. |
| Configuration.OverrideIsDirected | Runtime/Configuration/UISystemConfig.cs:40 | An override for (to, from) is not found when looking up (from, to) with two different keys; one for (from, to) is. |
| Collaborators.EventBus.Raise | Runtime/Core/UIEvents.cs:13-36 | Raising a notification appends it to the log and changes nothing else. |
| Collaborators.InputRecorder.SwitchToUI | Runtime/Core/IUIInputHandler.cs:7 | The last focus becomes UI; the cancel binding is unchanged. |
| Collaborators.InputRecorder.SwitchToPlayer | Runtime/Core/IUIInputHandler.cs:8 | The last focus becomes the player; the cancel binding is unchanged. |
| Collaborators.InputRecorder.BindCancelAction | Runtime/Core/IUIInputHandler.cs:9 | The cancel action is bound; the focus is unchanged. |
| ScreenLogic.ShouldHideHudForScreen | Runtime/Core/ScreenHandler.cs:203-213 | None hides the HUD. Otherwise the HUD is hidden exactly when the screen's first configuration entry has `ShowHud` off. An unconfigured screen does not hide it. |
| ScreenLogic.ShouldShowHudForScreen | Runtime/Core/ScreenHandler.cs:215-225 | None never shows the HUD, and neither does an unconfigured screen. Otherwise the first entry's `ShowHud` flag decides. |
| ScreenLogic.IsExcludedFromHistory | Runtime/Core/ScreenHandler.cs:227-234 | The first configuration entry's `ExcludeFromHistory` flag; false for an unconfigured screen. |
| ScreenLogic.GetDefaultTransition | Runtime/Core/ScreenHandler.cs:248-254 | The configuration's default screen transition; none without a configuration. |
| ScreenLogic.GetTransition | Runtime/Core/ScreenHandler.cs:236-246 | No transition without a configuration. Otherwise the first override for the ordered pair wins when its transition is set. An unset one, or no override for the pair, gives the default. |
| ScreenLogic.PushesPrevious | Runtime/Core/ScreenHandler.cs:106 | Pushing needs adding, no clearing, and a previous screen other than None whose first configuration entry does not exclude it. An unconfigured previous screen is always pushed under those conditions. |
| ScreenLogic.InputAfterTransition | Runtime/Core/ScreenHandler.cs:302-318 | Without an input handler the focus is kept. A visible popup forces UI. Otherwise the destination's first configuration entry chooses player or UI by `UsesPlayerInput`, and an unconfigured destination gets UI. |
| ScreenLogic.GetOrCreateScreen | Runtime/Core/ScreenHandler.cs:151-177 | Found exactly when the key is cached or loadable. A cached or unloadable key changes nothing. A new key is cached as a fresh, inactive, untouched view, and exactly `OnInitialize(id)` is appended to the hooks. No other entry changes. It keeps one screen at a time. |
| ScreenLogic.ToggleHud | Runtime/Core/ScreenHandler.cs:179-201 | Only the HUD entry changes, and the current screen, history and input do not. Only screen notifications are added, and it keeps one screen at a time. |
| ScreenLogic.HideCurrent | Runtime/Core/ScreenHandler.cs:111-118 | With a current screen, the screen left ends inactive and faded out, with exactly `OnHide` appended to the hooks and exactly its screen-hidden notification raised. Afterwards no screen is current and every other entry, the keys and history are kept. With nothing current it is a no-op. |
| ScreenLogic.ShowIncoming | Runtime/Core/ScreenHandler.cs:129-143 | A cached or loadable destination ends active and faded in and becomes the current instance. The hooks gain `OnInitialize` if it was new, then `OnShow(id, data)` with the caller's payload, and one screen-shown notification is raised. An unresolvable destination changes nothing. No other entry changes; history and input are kept. |
| ScreenLogic.RecordHistory | Runtime/Core/ScreenHandler.cs:101-107 | `clearHistory` empties the stack. The previous screen is pushed exactly when adding, not clearing, not None and not excluded. Nothing else changes. |
| ScreenLogic.Leave | Runtime/Core/ScreenHandler.cs:109-124 | Leaves no current instance and keeps the current id, history and input. Only the HUD key can be added to the cache. When the destination hides the HUD, a cached HUD ends inactive. When it does not, the HUD entry is unchanged unless the HUD was itself the instance being left. It keeps one screen at a time. |
| ScreenLogic.ShowDestination | Runtime/Core/ScreenHandler.cs:128-143 | The destination's instance becomes current exactly when its key is not the HUD, not None, and cached or loadable. The current id, history, input and HUD entry are kept, only screen notifications are added, and one screen at a time is kept. |
| ScreenLogic.Arrive | Runtime/Core/ScreenHandler.cs:126-148 | The destination id becomes current. Its instance is current exactly when the key is not the HUD, not None, and cached or loadable. When the destination shows the HUD and the HUD is cached or loadable, the HUD ends cached and active; when it does not show it, the HUD entry is unchanged. The input ends as the transition's input rule says. It keeps one screen at a time. |
| ScreenLogic.Present | Runtime/Core/ScreenHandler.cs:126-146 | Arriving up to the input step: the destination id becomes current, and its instance is current exactly when it is not the HUD, not None, and cached or loadable. A destination that shows the HUD leaves a cached or loadable HUD cached and active; one that does not leaves the HUD entry unchanged. History and input are kept, and one screen at a time is kept. |
| ScreenLogic.Routine | Runtime/Core/ScreenHandler.cs:99-149 | The whole transition: the new current id; the history after clearing and pushing; the instance rule; the input decision. The cache only grows, the hook and notification logs only grow, and only screen notifications are added. A destination that hides the HUD leaves a cached HUD inactive. One that shows it leaves a cached or loadable HUD cached and active. With neither flag, the HUD entry is unchanged unless the HUD was the instance being left. It keeps one screen at a time: the only active non-HUD instance is the current one. |
| ScreenLogic.ShowScreen | Runtime/Core/ScreenHandler.cs:27-97 | The screen state stays well formed and keeps one screen at a time. The cache, hooks and log only grow, and only screen notifications are added. |
| ScreenLogic.GoBack | Runtime/Core/ScreenHandler.cs:37-59 | The state stays well formed and keeps one screen at a time. The cache, hooks and log only grow. |
| ScreenLogic.ShowCurrentIsNoop | Runtime/Core/ScreenHandler.cs:90-91 | Showing the screen that is already current, when it is not None, changes nothing at all. |
| ScreenLogic.ShowNoneIsNotNoop | Runtime/Core/ScreenHandler.cs:90-96 | Showing None while None is current still runs the transition. |
| ScreenLogic.ShowScreenHistory | Runtime/Core/ScreenHandler.cs:27-107 | Without clearing, the destination becomes current. The previous screen is pushed exactly when it is not None and not excluded from history. |
| ScreenLogic.ShowScreenClearsHistory | Runtime/Core/ScreenHandler.cs:103-107 | With `clearHistory`, the history ends empty and the destination is current. |
| ScreenLogic.CountBackAppend | Runtime/Core/UIEvents.cs:33-36 | The number of back-navigated notifications in a concatenated log is the sum of its parts. |
| ScreenLogic.CountBackScreenEvents | Runtime/Core/ScreenHandler.cs:99-149 | A step that only adds screen notifications adds no back-navigated notification. |
| ScreenLogic.GoBackPops | Runtime/Core/ScreenHandler.cs:42-47 | With a non-empty history, the top is popped and becomes current. The screen left is not pushed. Exactly one back-navigated notification is raised; it is the last entry of the log only because the routine is one atomic step (see "Left out"). |
| ScreenLogic.GoBackWithEmptyHistory | Runtime/Core/ScreenHandler.cs:50-58 | With an empty history, the fallback screen is shown, with one back-navigated notification, exactly when a configuration is present, its fallback key is not empty and differs from the current screen. Otherwise nothing changes. |
| ScreenLogic.HudDecisions | Runtime/Core/ScreenHandler.cs:203-225 | The HUD is never both hidden and shown for the same screen. None hides the HUD. A screen without a configuration entry leaves it alone. A configured screen shows or hides it by its `ShowHud` flag. |
| ScreenLogic.ToggleHudAlreadyThere | Runtime/Core/ScreenHandler.cs:187-200 | Showing an active HUD, or hiding an inactive one, changes nothing. |
| ScreenLogic.RoutineCurrentInstance | Runtime/Core/ScreenHandler.cs:128-143 | The HUD key or None never becomes the current instance. Any other destination does exactly when it is cached or loadable. |
| ScreenLogic.RoutineHandsOverPayload | Runtime/Core/ScreenHandler.cs:133-141 | A destination that is not the HUD, not None, and cached or loadable is told `OnShow` exactly once during the transition, with the caller's payload, and is announced shown. |
| ScreenLogic.RoutineShowsDestinationOnce | Runtime/Core/ScreenHandler.cs:99-149 | For a destination other than the HUD, the transition adds exactly one `OnShow` for it when it is not None and cached or loadable, and none otherwise. |
| ScreenLogic.LeaveShowsNothing | Runtime/Core/ScreenHandler.cs:109-124 | Leaving adds no `OnShow` hook for any screen. |
| ScreenLogic.ToggleHudOnlyHud | Runtime/Core/ScreenHandler.cs:179-201 | Toggling the HUD adds hooks for the HUD alone, and an `OnShow` only when showing it. |
| ScreenLogic.PresentShowsDestinationOnce | Runtime/Core/ScreenHandler.cs:126-146 | Arriving before the input step adds one `OnShow` for a destination other than the HUD when it is not None and resolves, and none otherwise. |
| ScreenLogic.ShowDestinationShowsOnce | Runtime/Core/ScreenHandler.cs:128-143 | Showing the destination adds one `OnShow` for it when it is not the HUD or None and resolves, and none otherwise. |
| ScreenLogic.ArriveHandsOverPayload | Runtime/Core/ScreenHandler.cs:130-146 | The arrival step alone: such a destination receives `OnShow(id, data)` and is announced shown, whatever the HUD step does afterwards. |
| ScreenLogic.InstanceResolution | Runtime/Core/ScreenHandler.cs:151-170 | A cached key is served without loading. An unloadable key leaves the cache unchanged. No navigation removes a cache entry. |
| ScreenLogic.InputAfterTransitionDecision | Runtime/Core/ScreenHandler.cs:302-319 | Without an input handler nothing is switched. A visible popup forces UI. Otherwise the focus goes to the player exactly when the destination's configuration uses player input, and to UI otherwise. |
| ScreenLogic.TransitionChoice | Runtime/Core/ScreenHandler.cs:236-254 | Without a configuration the transition is instant. A matching override wins; otherwise the default screen transition is used. |
| ScreenLogic.ExcludedScreenSkippedOnBack | Runtime/Core/ScreenHandler.cs:42-107 | After A, then an excluded E, then F, going back returns to A with the original history. |
| ScreenLogic.CurrentMayBeInHistory | Runtime/Core/ScreenHandler.cs:88-107 | After A, then an excluded E, then A again, A is both current and on top of the history, and going back re-shows A. |
| ScreenLogic.BackThroughHistory | Runtime/Core/ScreenHandler.cs:37-59 | After A, B, C (none excluded), three backs go to B, then A, then the fallback, with history `[A]`, `[]`, `[]`. |
| ScreenHandling.ScreenHandler.ShowScreen | Runtime/Core/ScreenHandler.cs:27-97 | The in-place update leaves exactly the state `ScreenLogic.ShowScreen` describes. It keeps the handler invariant (the current instance is cached and the only active non-HUD instance) and the cancel binding. |
| ScreenHandling.ScreenHandler.GoBack | Runtime/Core/ScreenHandler.cs:37-59 | Leaves exactly `ScreenLogic.GoBack`'s state. |
| ScreenHandling.ScreenHandler.ShowHUD | Runtime/Core/ScreenHandler.cs:61-68 | Leaves exactly the state of showing the HUD. |
| ScreenHandling.ScreenHandler.HideHUD | Runtime/Core/ScreenHandler.cs:70-77 | Leaves exactly the state of hiding the HUD. |
| ScreenHandling.ScreenHandler.DisposeAll | Runtime/Core/ScreenHandler.cs:79-86 | Calls `OnDispose` once on each cached screen, in some order, and changes nothing else. |
| ScreenHandling.ScreenHandler.ShowScreenRoutine | Runtime/Core/ScreenHandler.cs:99-149 | The step-by-step routine leaves exactly `ScreenLogic.Routine`'s state. |
| ScreenHandling.ScreenHandler.EnterScreen | Runtime/Core/ScreenHandler.cs:126-148 | Leaves exactly `ScreenLogic.Arrive`'s state. |
| ScreenHandling.ScreenHandler.HideCurrentScreen | Runtime/Core/ScreenHandler.cs:111-118 | Leaves exactly `ScreenLogic.HideCurrent`'s state. |
| ScreenHandling.ScreenHandler.ShowIncomingScreen | Runtime/Core/ScreenHandler.cs:129-143 | Leaves exactly `ScreenLogic.ShowIncoming`'s state. |
| ScreenHandling.ScreenHandler.GetOrCreateScreen | Runtime/Core/ScreenHandler.cs:151-177 | The result and the new state are those of `ScreenLogic.GetOrCreateScreen`. |
| ScreenHandling.ScreenHandler.ToggleHUD | Runtime/Core/ScreenHandler.cs:179-201 | Leaves exactly `ScreenLogic.ToggleHud`'s state. |
| ScreenHandling.ScreenHandler.UpdateInputState | Runtime/Core/ScreenHandler.cs:302-319 | Only the input focus changes, as `InputAfterTransition` decides. |
| ScreenHandling.ScreenHandler.constructor | Runtime/Core/ScreenHandler.cs:9-25 | A new handler has the none screen current, no instance, an empty history, cache and hook log. |
| ScreenHandling.ScreenHandler.CurrentScreen | Runtime/Core/ScreenHandler.cs:18 | Returns the current id of the modelled state. |
| PopupLogic.Insert | Runtime/Core/PopupHandler.cs:94-101 | The queue after adding holds the old contents plus the new request, one longer. |
| PopupLogic.Compare | Runtime/Core/PopupHandler.cs:95-101 | The sort comparator is negative exactly when the first request goes first (higher priority, or equal priority and earlier order), positive exactly when the second does, and zero only on equal priority and order. |
| PopupLogic.IsPopupVisible | Runtime/Core/PopupHandler.cs:28 | Visible only with a current popup. In a modal state, visible exactly when some cached popup is active. |
| PopupLogic.Enqueue | Runtime/Core/PopupHandler.cs:84-102 | The request gets the current order and the counter increases by one. The queue stays sorted and gains exactly the new request. Nothing else changes, so modality is kept. |
| PopupLogic.Dequeue | Runtime/Core/PopupHandler.cs:104-109 | Returns the head and leaves the rest. Every later entry is ordered after the head. |
| PopupLogic.GetOrCreatePopup | Runtime/Core/PopupHandler.cs:181-202 | Found exactly when the key is cached or loadable. A cached or unloadable key changes nothing. A new key is cached as a fresh, inactive view with exactly `OnInitialize(id)` appended. No other entry changes. Modality and idleness are kept. |
| PopupLogic.ShowRoutine | Runtime/Core/PopupHandler.cs:111-137 | A resolvable popup becomes current, active and faded in. The hooks gain `OnInitialize` if it was new, then `OnShow(id, data)` with the payload. One popup-opened notification is raised, the blocker is on, and the input is on UI. An unresolvable one only leaves the blocker off. Queue and counter are kept. From an idle state the result is modal. |
| PopupLogic.InputAfterPopup | Runtime/Core/PopupHandler.cs:163-179 | Without an input handler or a facade instance the focus is kept. Otherwise the current screen's first configuration entry chooses player or UI by `UsesPlayerInput`, and an unconfigured screen gets UI. |
| PopupLogic.DismissRoutine | Runtime/Core/PopupHandler.cs:139-161 | The closed popup's `OnDismiss` is the first hook added and the popup-closed notification the last. With an empty queue these are the only hook and the only notification added. With requests queued, the head is dequeued. A resolvable head then receives `OnInitialize` if it was new and `OnShow` with its queued payload, and is announced opened before the close. An unresolvable head adds nothing beyond the dismiss and the close. The state stays well formed, the logs only grow, and modality is kept: only the current popup is active, and a supplied blocker is up exactly while one is current. |
| PopupLogic.ShowPopup | Runtime/Core/PopupHandler.cs:40-82 | The state stays well formed, the logs only grow, and modality is kept. |
| PopupLogic.DismissPopup | Runtime/Core/PopupHandler.cs:50-59 | With nothing showing, nothing changes. Otherwise the showing popup is dismissed first and its close is the last notification. The state stays well formed, the logs only grow, and modality is kept. |
| PopupLogic.CompareIsAntisymmetric | Runtime/Core/PopupHandler.cs:95-101 | The sort comparator is antisymmetric, and no two requests each go before the other. |
| PopupLogic.InsertSorted | Runtime/Core/PopupHandler.cs:91-101 | Inserting a request newer than every queued one keeps the queue sorted. |
| PopupLogic.SortedIsUnique | Runtime/Core/PopupHandler.cs:95-101 | Two sorted queues with the same contents are equal, so any correct sort gives the same queue. |
| PopupLogic.SortedHeadFirst | Runtime/Core/PopupHandler.cs:95-101 | The head of a sorted queue goes before every other entry. |
| PopupLogic.SortedTail | Runtime/Core/PopupHandler.cs:107 | Removing the head keeps the queue sorted. |
| PopupLogic.EnqueueIsAddThenSort | Runtime/Core/PopupHandler.cs:84-102 | Any sorted arrangement of the old queue plus the new request, which is what `Add` then `Sort` gives, equals the modelled queue. The order handed out is newer than every queued one. |
| PopupLogic.DequeueServesHead | Runtime/Core/PopupHandler.cs:104-109 | The served request has the highest priority, and the earliest order among equal priorities. |
| PopupLogic.ServedByPriorityThenArrival | Runtime/Core/PopupHandler.cs:84-101 | Requests of priority 1, 5, 5, 2 arriving in that order are served 5 (first), 5 (second), 2, 1. |
| PopupLogic.InsertEqualPriorityAfter | Runtime/Core/PopupHandler.cs:95-101 | A request of equal priority goes behind an earlier one. |
| PopupLogic.InsertBetween | Runtime/Core/PopupHandler.cs:95-101 | In a queue of three, a request that precedes neither of the first two entries but does precede the third goes third. |
| PopupLogic.InsertAhead | Runtime/Core/PopupHandler.cs:95-101 | A request that precedes the head goes first. |
| PopupLogic.InsertBehind | Runtime/Core/PopupHandler.cs:95-101 | A request that does not precede the head goes after it. |
| PopupLogic.VisibleIffCurrent | Runtime/Core/PopupHandler.cs:28 | A popup is visible exactly when one is current. |
| PopupLogic.ShowWhileVisibleOnlyEnqueues | Runtime/Core/PopupHandler.cs:72-76 | While a popup is visible, a request of any priority only queues. The current popup, cache, blocker, hooks, notifications and input are unchanged. |
| PopupLogic.ShowWhenIdle | Runtime/Core/PopupHandler.cs:111-137 | With nothing visible, an unresolvable popup leaves nothing current and the blocker off, with no notification. A resolvable one becomes current and active, with the blocker on and the input on UI. It receives `OnInitialize` if new, then `OnShow` with exactly the payload, and one popup-opened notification is raised. |
| PopupLogic.DismissWhenIdleIsNoop | Runtime/Core/PopupHandler.cs:52-53 | Dismissing with nothing visible changes nothing. |
| PopupLogic.IdleQueueWaits | Runtime/Core/PopupHandler.cs:50-81 | With popups queued but none showing, a dismiss changes nothing. A new request is shown directly, or not at all, and the queue is left as it is. |
| PopupLogic.DismissChainsToHead | Runtime/Core/PopupHandler.cs:139-160 | With requests queued, the head is dequeued and shown. A resolvable head becomes current with the blocker still on, receives `OnShow` with its queued payload right after the closed popup's `OnDismiss` (and its `OnInitialize` when new), and is announced opened just before the close. An unresolvable head leaves nothing current, the blocker off and the input untouched. The closed popup ends inactive unless the head has its key. The popup-closed notification is the last log entry only because the routines are atomic. |
| PopupLogic.DismissLastRestoresInput | Runtime/Core/PopupHandler.cs:147-179 | Dismissing the last popup leaves nothing current, the blocker off, exactly one `OnDismiss` hook and exactly one popup-closed notification. The input follows the current screen's `UsesPlayerInput` flag, and is unchanged without an input handler or a facade instance. |
| PopupLogic.NoPreemption | Runtime/Core/PopupHandler.cs:70-76 | A request never replaces the showing popup. |
| PopupHandling.PopupHandler.ShowPopup | Runtime/Core/PopupHandler.cs:40-82 | The in-place update leaves exactly `PopupLogic.ShowPopup`'s state. It keeps the queue sorted and the handler modal. |
| PopupHandling.PopupHandler.DismissPopup | Runtime/Core/PopupHandler.cs:50-59 | Leaves exactly `PopupLogic.DismissPopup`'s state. |
| PopupHandling.PopupHandler.DisposeAll | Runtime/Core/PopupHandler.cs:61-68 | Calls `OnDispose` once on each cached popup and changes nothing else. |
| PopupHandling.PopupHandler.Enqueue | Runtime/Core/PopupHandler.cs:84-102 | Leaves exactly `PopupLogic.Enqueue`'s state. |
| PopupHandling.PopupHandler.Dequeue | Runtime/Core/PopupHandler.cs:104-109 | Returns the head and leaves exactly `PopupLogic.Dequeue`'s state. |
| PopupHandling.PopupHandler.ShowPopupRoutine | Runtime/Core/PopupHandler.cs:111-137 | Leaves exactly `PopupLogic.ShowRoutine`'s state. |
| PopupHandling.PopupHandler.DismissPopupRoutine | Runtime/Core/PopupHandler.cs:139-161 | Leaves exactly `PopupLogic.DismissRoutine`'s state. |
| PopupHandling.PopupHandler.UpdateInputAfterPopup | Runtime/Core/PopupHandler.cs:163-179 | Only the input focus changes, as `InputAfterPopup` decides from the facade's current screen. |
| PopupHandling.PopupHandler.GetOrCreatePopup | Runtime/Core/PopupHandler.cs:181-202 | The result and new state are those of `PopupLogic.GetOrCreatePopup`. |
| PopupHandling.PopupHandler.constructor | Runtime/Core/PopupHandler.cs:17-38 | A new handler has nothing current, an empty queue, counter 0, the blocker off, and an empty cache. |
| PopupHandling.PopupHandler.IsPopupVisible | Runtime/Core/PopupHandler.cs:28 | Agrees with `PopupLogic.IsPopupVisible` on the handler's state. |
| Facade.CurrentScreenOf | Runtime/Core/PopupHandler.cs:168-172 | There is no current screen to read exactly when there is no facade instance. Otherwise it is the instance's current screen: the screen handler's current id once that handler exists. |
| Facade.PopupVisibleOf | Runtime/Core/ScreenHandler.cs:307 | False without a facade instance. Otherwise it is the instance's popup handler's visibility. |
| Facade.UIManager.CurrentScreen | Runtime/Core/UIManager.cs:25 | Returns `ScreenId.None` until the screen handler exists, and the screen handler's current id after that. |
| Facade.UIManager.IsPopupVisible | Runtime/Core/UIManager.cs:26 | False until the popup handler exists. Afterwards it is the popup handler's visibility. |
| Facade.UIManager.constructor | Runtime/Core/UIManager.cs:9-26 | A new manager has no handlers, reports the none screen and no visible popup. |
| Facade.UIManager.Awake | Runtime/Core/UIManager.cs:28-40 | A second manager marks itself destroyed and leaves the instance alone. Otherwise it becomes the instance and creates its canvases. |
| Facade.UIManager.OnDestroy | Runtime/Core/UIManager.cs:42-52 | Disposes every cached screen and popup once. Clears the instance only when it is this manager. |
| Facade.UIManager.Initialize | Runtime/Core/UIManager.cs:54-69 | Creates two new empty handlers sharing the configuration, input handler and notification channel. The popup handler has a blocker exactly when the canvases exist. The cancel action is bound, and the focus is untouched. |
| Facade.UIManager.ShowScreen | Runtime/Core/UIManager.cs:71-89 | Forwards to the screen handler, with popup visibility read from the instance. Popups are untouched. |
| Facade.UIManager.GoBack | Runtime/Core/UIManager.cs:91-94 | Forwards to the screen handler; popups are untouched. |
| Facade.UIManager.ShowHUD | Runtime/Core/UIManager.cs:96-99 | Forwards to the screen handler. |
| Facade.UIManager.HideHUD | Runtime/Core/UIManager.cs:101-104 | Forwards to the screen handler. |
| Facade.UIManager.ShowPopup | Runtime/Core/UIManager.cs:106-114 | Forwards to the popup handler; screens are untouched. |
| Facade.UIManager.DismissPopup | Runtime/Core/UIManager.cs:116-119 | Forwards to the popup handler, with the current screen read from the instance. |
| Facade.UIManager.HandleCancel | Runtime/Core/UIManager.cs:170-179 | A visible popup is dismissed and the game callback is not called. Otherwise nothing but the callback happens, once, if one is set. The destroyed and canvas flags are unchanged. |
| Facade.UIManager.SetCancelCallback | Runtime/Core/UIManager.cs:23 | Assigning `OnCancelPressed` sets or clears the callback only; handlers, invocations, destroyed and canvas flags are unchanged. |
| Registry.FirstMatch | Editor/CodeGen/EnumCodeGenerator.cs:44-48 | The first position holding the name, or the length exactly when the name is absent. |
| Registry.MaxIndex | Editor/CodeGen/EnumCodeGenerator.cs:50-55 | At least 0 and at least every index. It is 0 or one of the indices. |
| Registry.Add | Editor/CodeGen/EnumCodeGenerator.cs:42-60 | The entries after adding extend the old ones by at most one, and the name is registered. |
| Registry.AddEntry | Editor/CodeGen/EnumCodeGenerator.cs:42-60 | The two loops leave exactly the entries and return exactly the index that `Add` describes. |
| Registry.HasEntry | Editor/CodeGen/EnumCodeGenerator.cs:62-70 | True exactly when some entry has the name; the data is not changed. |
| Registry.AddExistingIsNoop | Editor/CodeGen/EnumCodeGenerator.cs:44-48 | A registered name returns its first entry's index and leaves the entries unchanged. |
| Registry.AddNewAppends | Editor/CodeGen/EnumCodeGenerator.cs:50-59 | A new name is appended once at the end. Its index is above every existing index and one more than the largest index, or 1 when all indices are 0 or below. The first entry gets 1. |
| Registry.HasEntryAfterAdd | Editor/CodeGen/EnumCodeGenerator.cs:57-70 | After adding, the name is registered and no entry is lost. |
| Registry.AddReturnsRegisteredIndex | Editor/CodeGen/EnumCodeGenerator.cs:47-59 | The index returned is the index of the name's first entry afterwards. |
| Registry.AddIdempotent | Editor/CodeGen/EnumCodeGenerator.cs:44-58 | Adding the same name twice has the effect of adding it once and returns the same index. |
| Registry.AddPreservesUniqueNames | Editor/CodeGen/EnumCodeGenerator.cs:44-58 | Names stay unique. |
| Registry.AddPreservesDistinctIndices | Editor/CodeGen/EnumCodeGenerator.cs:50-58 | Indices stay distinct. |
| Registry.AddKeepsOtherNames | Editor/CodeGen/EnumCodeGenerator.cs:58 | Every name registered before keeps its position and index. |

## Left out

- Fades are not modelled over time: the frame-by-frame alpha, `Time.unscaledDeltaTime`, animation curves and durations are all floating-point and time-driven. Only each fade's end state is kept (see above).
- Coroutine interleaving is not modelled. `StopCoroutine` cancelling a routine that is part-way through, and the partial states a cancelled routine leaves, are out of scope, because each routine is one atomic step.
- The order of notifications under timed fades is not modelled. `StartCoroutine` returns at the routine's first `yield`. So when a fade takes time, `GoBack` raises the back-navigated notification (lines 46 and 56 of ScreenHandler.cs) before the routine raises its screen-shown notification. Likewise, `DismissPopupRoutine` raises the popup-closed notification (line 160 of PopupHandler.cs) before the next popup's popup-opened notification. `ScreenLogic.GoBackPops` and `PopupLogic.DismissChainsToHead` place these notifications last. That order is an artifact of treating each routine as atomic; it does not hold for timed fades.
- `Instantiate`, `SetActive`, `SetParent`, `SetAsFirstSibling`, `DontDestroyOnLoad` and `Destroy` are Unity engine calls. The model keeps only their effect on the handler state (an active flag, a destroyed flag).
- `InitializeCanvases` and `CreateBlockerPanel` (Runtime/Core/UIManager.cs:121-168) are layout and rendering setup. The model keeps only the fact that the canvases and the inactive blocker exist.
- The `cached != null` check in `GetOrCreateScreen`/`GetOrCreatePopup` tests for a destroyed Unity object. Destroyed cache entries do not exist in the model.
- A prefab without the component (`GetComponent` returning null, lines 161-166 of ScreenHandler.cs) is modelled as "not loadable". The temporary instance that is created and destroyed is not.
- C# `int` wrap-around is not modelled. This covers the popup order counter (`_orderCounter++`) and the registry's `maxIndex + 1`; both are unbounded integers here. `Registry.AddNewAppends` is stated for unbounded integers, so it does not cover the wrap at `int.MaxValue`.
- Strings in the configuration (`HudScreenKey`, `FallbackScreenKey`, `ScreenKey`) are modelled as non-null. A serialised asset never holds null there. `GetTransitionOverride`'s result can still be an unset reference, and is an `Option`.
- `default(ScreenId)` / `default(PopupId)`, the zero value of the struct with a null key, is not modelled. Every identifier comes from the constructor. The null-key constructor is modelled as `NewScreenId(None)`.
- `GetHashCode` is not modelled. No modelled operation depends on it other than through dictionary lookup by key.
- `EnumCodeGenerator.LoadRegistry`, `SaveRegistry`, `GenerateScreenIds` and `GeneratePopupIds` are JSON and file I/O plus template substitution, with a template that is not part of this model. They are left out, as is everything under `Editor/` other than the registry list logic.
- `RegistryEntry` is a class in the source. It is a value here, because no code changes an entry after creating it.
- Screen and popup data payloads are opaque (`Payload`): the handlers only pass them to `OnShow`, and the model does not interpret them.
- The `OnCancelPressed` delegate is reduced to "set or not" and an invocation count, because what the game's callback does is outside the library.
- `Facade.UIManager.ShowScreen` and the other forwarding methods require `Initialize` to have run first. Without it the source dereferences a null handler (a `NullReferenceException`), which is not modelled.
- `Facade.UIManager.Initialize` requires a non-null input handler. With null, the source creates both handlers and then throws at the `BindCancelAction` call; that partial state is not modelled.
- Behaviour worth knowing, modelled as written:
  - The current screen can also be on the history stack (`ScreenLogic.CurrentMayBeInHistory`).
  - When a dequeued popup cannot be loaded, the blocker goes off and the input stays as the closed popup left it: `UpdateInputAfterPopup` is not called on that path. The rest of the queue then waits with nothing showing. A `DismissPopup` returns at once, and a `ShowPopup` shows its own request directly and leaves the queue alone (`PopupLogic.IdleQueueWaits`). The queue moves again only once a later popup is shown and dismissed.
