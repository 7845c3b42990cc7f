/**
 * What the two handlers talk to but do not own: the event bus (`UIEvents`),
 * the input-routing collaborator (`IUIInputHandler`), and the observable
 * state of a view instance (`UIScreen` / `UIPopup`) together with the hook
 * calls the handlers make on it.
 */
module Collaborators {
  import opened Wrappers
  import opened Identifiers

  /** The five notifications of the event bus. */
  datatype UIEvent =
    | ScreenShown(screen: ScreenId)
    | ScreenHidden(screen: ScreenId)
    | PopupOpened(popup: PopupId)
    | PopupClosed(popup: PopupId)
    | BackNavigated

  /** The payload of a show call is opaque to the navigation core. */
  type Payload = string

  /** The lifecycle hooks a handler calls on a view instance identified by `Id`. */
  datatype Hook<Id> =
    | OnInitialize(id: Id)
    | OnShow(id: Id, data: Option<Payload>)
    | OnHide(id: Id)
    | OnDismiss(id: Id)
    | OnDispose(id: Id)

  /** The terminal result of the last fade applied to a view's canvas group:
      `FadedIn` is fully opaque and interactable, `FadedOut` transparent and
      not interactable, `Untouched` whatever the prefab was authored with. */
  datatype Fade = Untouched | FadedIn | FadedOut

  /** A cached view instance: whether its game object is active, and its fade. */
  datatype View = View(active: bool, fade: Fade)

  /** A freshly instantiated view: deactivated, canvas group as authored. */
  const FreshView: View := View(false, Untouched)

  datatype InputMode = UIMode | PlayerMode

  /** The event bus. Subscribers are outside the model; what was raised, in order, is its log. */
  class EventBus {
    ghost var log: seq<UIEvent>

    constructor ()
      ensures log == []
    {
      log := [];
    }

    method Raise(e: UIEvent)
      modifies this
      ensures log == old(log) + [e]
    {
      log := log + [e];
    }
  }

  /** The input-routing collaborator, reduced to the last focus it was switched
      to and whether a cancel action has been bound. */
  class InputRecorder {
    var mode: Option<InputMode>
    var cancelBound: bool

    constructor ()
      ensures mode.None? && !cancelBound
    {
      mode := None;
      cancelBound := false;
    }

    method SwitchToUI()
      modifies this
      ensures mode == Some(UIMode) && cancelBound == old(cancelBound)
    {
      mode := Some(UIMode);
    }

    method SwitchToPlayer()
      modifies this
      ensures mode == Some(PlayerMode) && cancelBound == old(cancelBound)
    {
      mode := Some(PlayerMode);
    }

    method BindCancelAction()
      modifies this
      ensures cancelBound && mode == old(mode)
    {
      cancelBound := true;
    }
  }
}
