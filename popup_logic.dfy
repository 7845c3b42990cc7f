/**
 * The popup handler's policy as functions on a value of its state: at most
 * one popup showing, a pending list kept sorted by priority (descending)
 * then arrival order (ascending), and a modal blocker.
 */
module PopupLogic {
  import opened Wrappers
  import opened Identifiers
  import opened Configuration
  import opened Collaborators

  /** A queued request. `order` is the value the arrival counter had. */
  datatype PendingPopup = PendingPopup(id: PopupId, priority: int, data: Option<Payload>, order: int)

  /** What the popup handler owns, plus the bus log and the input handler's last focus. */
  datatype PopupState = PopupState(
    current: Option<string>,
    queue: seq<PendingPopup>,
    orderCounter: int,
    blockerActive: bool,
    cache: map<string, View>,
    hooks: seq<Hook<PopupId>>,
    events: seq<UIEvent>,
    input: Option<InputMode>)

  /** What the handler was initialised with: the configuration, the prefab loader
      (`UI/Popups/<key>` exists and carries a popup component), whether an input
      handler and a blocker panel were supplied. */
  datatype PopupEnv = PopupEnv(
    config: Option<UISystemConfig>,
    loadable: string -> bool,
    hasInput: bool,
    hasBlocker: bool)

  // ------------------------------------------------------------ ordering

  /** `Int32.CompareTo`. */
  function CompareInt(x: int, y: int): int {
    if x < y then -1 else if x > y then 1 else 0
  }

  /** The comparison passed to `List.Sort`: higher priority first, then lower order. */
  function Compare(a: PendingPopup, b: PendingPopup): (r: int)
    ensures r < 0 <==> Before(a, b)
    ensures r > 0 <==> Before(b, a)
    ensures r == 0 <==> a.priority == b.priority && a.order == b.order
  {
    var p := CompareInt(b.priority, a.priority);
    if p != 0 then p else CompareInt(a.order, b.order)
  }

  /** `a` is served before `b`. */
  predicate Before(a: PendingPopup, b: PendingPopup) {
    a.priority > b.priority || (a.priority == b.priority && a.order < b.order)
  }

  /** Every element is served before every later one. */
  predicate Sorted(q: seq<PendingPopup>) {
    forall i, j :: 0 <= i < j < |q| ==> Before(q[i], q[j])
  }

  /** The handler's invariant: the queue is sorted, every queued order was handed
      out before the counter's present value, and the showing popup is cached. */
  predicate Wf(s: PopupState) {
    && Sorted(s.queue)
    && (forall i :: 0 <= i < |s.queue| ==> s.queue[i].order < s.orderCounter)
    && (s.current.Some? ==> s.current.value in s.cache)
  }

  /** The invariants are about the handler's fields, not about the hook log. */
  lemma InvariantsIgnoreHooks(s: PopupState, env: PopupEnv, hooks: seq<Hook<PopupId>>)
    ensures Wf(s.(hooks := hooks)) == Wf(s) && Modal(s.(hooks := hooks), env) == Modal(s, env)
  {
  }

  /** Modality: a cached popup is active exactly when it is the current one; a
      supplied blocker is up exactly while a popup is current, and an absent one
      is never marked up. */
  predicate Modal(s: PopupState, env: PopupEnv) {
    && (forall k :: k in s.cache ==> (s.cache[k].active <==> s.current == Some(k)))
    && (env.hasBlocker ==> (s.blockerActive <==> s.current.Some?))
    && (!env.hasBlocker ==> !s.blockerActive)
  }

  /** The state a show routine starts from: nothing current and nothing active.
      The blocker may still be up when the routine chains from a dismiss. */
  predicate Idle(s: PopupState, env: PopupEnv) {
    && s.current.None?
    && (forall k :: k in s.cache ==> !s.cache[k].active)
    && (!env.hasBlocker ==> !s.blockerActive)
  }

  predicate Extends(s: PopupState, r: PopupState) {
    && s.cache.Keys <= r.cache.Keys
    && s.hooks <= r.hooks
    && s.events <= r.events
    && s.orderCounter <= r.orderCounter
  }

  /** `p` goes into the sorted list at its place: the effect of `Add` then `Sort`. */
  function Insert(q: seq<PendingPopup>, p: PendingPopup): (r: seq<PendingPopup>)
    ensures multiset(r) == multiset(q) + multiset{p}
    ensures |r| == |q| + 1
  {
    if q == [] then [p]
    else if Before(p, q[0]) then [p] + q
    else
      assert q == [q[0]] + q[1..];
      [q[0]] + Insert(q[1..], p)
  }

  // --------------------------------------------------------------- steps

  /** `IsPopupVisible`: in a modal state, exactly when a cached popup is active. */
  function IsPopupVisible(s: PopupState): (r: bool)
    ensures r ==> s.current.Some?
    ensures forall env: PopupEnv :: Wf(s) && Modal(s, env) ==> (r <==> exists k :: k in s.cache && s.cache[k].active)
  {
    s.current.Some?
  }

  /** `Enqueue`: the request gets the counter's value, which is then incremented. */
  function Enqueue(s: PopupState, env: PopupEnv, id: PopupId, data: Option<Payload>, priority: int): (r: PopupState)
    requires Wf(s)
    ensures Wf(r) && Extends(s, r)
    ensures r.orderCounter == s.orderCounter + 1
    ensures r.(queue := s.queue, orderCounter := s.orderCounter) == s
    ensures Modal(s, env) ==> Modal(r, env)
    ensures Sorted(r.queue)
    ensures multiset(r.queue) == multiset(s.queue) + multiset{PendingPopup(id, priority, data, s.orderCounter)}
  {
    var pending := PendingPopup(id, priority, data, s.orderCounter);
    InsertSorted(s.queue, pending);
    var q := Insert(s.queue, pending);
    assert forall i :: 0 <= i < |q| ==> q[i].order <= s.orderCounter by {
      forall i | 0 <= i < |q| ensures q[i].order <= s.orderCounter {
        assert q[i] in multiset(q);
        if q[i] != pending {
          assert q[i] in multiset(s.queue);
        }
      }
    }
    s.(queue := q, orderCounter := s.orderCounter + 1)
  }

  /** `Dequeue`: remove and return the head. Only called on a non-empty queue. */
  function Dequeue(s: PopupState): (r: (PopupState, PendingPopup))
    requires Wf(s) && |s.queue| > 0
    ensures Wf(r.0) && Extends(s, r.0)
    ensures r.1 == s.queue[0] && r.0 == s.(queue := s.queue[1..])
    ensures forall i :: 0 < i < |s.queue| ==> Before(r.1, s.queue[i])
  {
    (s.(queue := s.queue[1..]), s.queue[0])
  }

  function GetOrCreatePopup(s: PopupState, env: PopupEnv, id: PopupId): (r: (PopupState, bool))
    requires Wf(s)
    ensures Wf(r.0) && Extends(s, r.0)
    ensures r.1 <==> id.key in s.cache || env.loadable(id.key)
    ensures r.1 ==> id.key in r.0.cache
    ensures id.key in s.cache || !env.loadable(id.key) ==> r.0 == s
    ensures r.0.(cache := s.cache, hooks := s.hooks) == s
    ensures r.1 && id.key !in s.cache ==> r.0.cache[id.key] == FreshView && r.0.hooks == s.hooks + [OnInitialize(id)]
    ensures forall k :: k in r.0.cache && k != id.key ==> k in s.cache && r.0.cache[k] == s.cache[k]
    ensures Modal(s, env) ==> Modal(r.0, env)
    ensures Idle(s, env) ==> Idle(r.0, env)
  {
    if id.key in s.cache then (s, true)
    else if !env.loadable(id.key) then (s, false)
    else (s.(cache := s.cache[id.key := FreshView], hooks := s.hooks + [OnInitialize(id)]), true)
  }

  /** `ShowPopupRoutine(id, data)`: blocker on, resolve; an unresolvable popup turns
      the blocker back off; a resolved one becomes current, is shown, announced,
      and switches the input to UI. */
  function ShowRoutine(s: PopupState, env: PopupEnv, id: PopupId, data: Option<Payload>): (r: PopupState)
    requires Wf(s)
    ensures Wf(r) && Extends(s, r)
    ensures r.queue == s.queue && r.orderCounter == s.orderCounter
    ensures Idle(s, env) ==> Modal(r, env)
    ensures id.key in s.cache || env.loadable(id.key) ==>
              && r.current == Some(id.key)
              && r.cache[id.key] == View(true, FadedIn)
              && r.hooks == s.hooks + (if id.key in s.cache then [] else [OnInitialize(id)]) + [OnShow(id, data)]
              && r.events == s.events + [PopupOpened(id)]
              && r.blockerActive == (env.hasBlocker || s.blockerActive)
              && r.input == (if env.hasInput then Some(UIMode) else s.input)
    ensures !(id.key in s.cache || env.loadable(id.key)) ==>
              r == (if env.hasBlocker then s.(blockerActive := false) else s)
    ensures forall k :: k in r.cache && k != id.key ==> k in s.cache && r.cache[k] == s.cache[k]
  {
    var s1 := if env.hasBlocker then s.(blockerActive := true) else s;
    var (s2, found) := GetOrCreatePopup(s1, env, id);
    if !found then
      if env.hasBlocker then s2.(blockerActive := false) else s2
    else
      s2.(current := Some(id.key),
          cache := s2.cache[id.key := View(true, FadedIn)],
          hooks := s2.hooks + [OnShow(id, data)],
          events := s2.events + [PopupOpened(id)],
          input := if env.hasInput then Some(UIMode) else s2.input)
  }

  /** `UpdateInputAfterPopup`: the focus follows the screen that is current in
      the facade (`None` when there is no facade instance). */
  function InputAfterPopup(env: PopupEnv, currentScreen: Option<ScreenId>, last: Option<InputMode>): (r: Option<InputMode>)
    ensures !env.hasInput || currentScreen.None? ==> r == last
    ensures forall c :: env.hasInput && currentScreen.Some? && IsFirstEntry(env.config, currentScreen.value.key, c) ==>
              r == Some(if c.usesPlayerInput then PlayerMode else UIMode)
    ensures env.hasInput && currentScreen.Some? && Unconfigured(env.config, currentScreen.value.key) ==> r == Some(UIMode)
  {
    if !env.hasInput || currentScreen.None? then last
    else match ScreenConfigOf(env.config, currentScreen.value.key)
      case Some(c) => if c.usesPlayerInput then Some(PlayerMode) else Some(UIMode)
      case None => Some(UIMode)
  }

  /** `DismissPopupRoutine(current)`: fade out, dismiss, deactivate, forget; then
      either show the head of the queue with the blocker left on, or turn the
      blocker off and hand the input back to the screen; announce the close. */
  function DismissRoutine(s: PopupState, env: PopupEnv, currentScreen: Option<ScreenId>): (r: PopupState)
    requires Wf(s) && s.current.Some?
    ensures Wf(r) && Extends(s, r)
    ensures Modal(s, env) ==> Modal(r, env)
    ensures |r.hooks| > |s.hooks| && r.hooks[|s.hooks|] == OnDismiss(PopupId(s.current.value))
    ensures |r.events| > 0 && r.events[|r.events| - 1] == PopupClosed(PopupId(s.current.value))
    ensures |s.queue| == 0 ==>
              && r.hooks == s.hooks + [OnDismiss(PopupId(s.current.value))]
              && r.events == s.events + [PopupClosed(PopupId(s.current.value))]
    ensures |s.queue| > 0 ==> r.queue == s.queue[1..]
    ensures |s.queue| > 0 ==>
            var head := s.queue[0]; var closed := PopupId(s.current.value);
            (head.id.key in s.cache || env.loadable(head.id.key)) ==>
              && r.hooks == s.hooks + [OnDismiss(closed)]
                              + (if head.id.key in s.cache then [] else [OnInitialize(head.id)])
                              + [OnShow(head.id, head.data)]
              && r.events == s.events + [PopupOpened(head.id), PopupClosed(closed)]
    ensures |s.queue| > 0 ==>
            var head := s.queue[0]; var closed := PopupId(s.current.value);
            !(head.id.key in s.cache || env.loadable(head.id.key)) ==>
              && r.hooks == s.hooks + [OnDismiss(closed)]
              && r.events == s.events + [PopupClosed(closed)]
  {
    var k := s.current.value;
    var closedId := PopupId(k);
    var s1 := s.(cache := s.cache[k := View(false, FadedOut)],
                 hooks := s.hooks + [OnDismiss(closedId)],
                 current := None);
    var s2 :=
      if |s1.queue| > 0 then
        var (t, next) := Dequeue(s1);
        ShowRoutine(t, env, next.id, next.data)
      else
        var t := if env.hasBlocker then s1.(blockerActive := false) else s1;
        t.(input := InputAfterPopup(env, currentScreen, t.input));
    s2.(events := s2.events + [PopupClosed(closedId)])
  }

  /** `ShowPopup(id, data, priority)`: queue behind a visible popup, else show now. */
  function ShowPopup(s: PopupState, env: PopupEnv, id: PopupId, data: Option<Payload>, priority: int): (r: PopupState)
    requires Wf(s)
    ensures Wf(r) && Extends(s, r)
    ensures Modal(s, env) ==> Modal(r, env)
  {
    if s.current.Some? then Enqueue(s, env, id, data, priority)
    else ShowRoutine(s, env, id, data)
  }

  /** `DismissPopup()`: nothing showing, nothing to do. */
  function DismissPopup(s: PopupState, env: PopupEnv, currentScreen: Option<ScreenId>): (r: PopupState)
    requires Wf(s)
    ensures Wf(r) && Extends(s, r)
    ensures Modal(s, env) ==> Modal(r, env)
    ensures s.current.None? ==> r == s
    ensures s.current.Some? ==>
              && |r.hooks| > |s.hooks| && r.hooks[|s.hooks|] == OnDismiss(PopupId(s.current.value))
              && |r.events| > 0 && r.events[|r.events| - 1] == PopupClosed(PopupId(s.current.value))
  {
    if s.current.None? then s
    else DismissRoutine(s, env, currentScreen)
  }

  /** `added` is one `OnDispose` per cached key, each exactly once, in some order. */
  ghost predicate DisposesEachOnce(cache: map<string, View>, added: seq<Hook<PopupId>>) {
    && (forall i :: 0 <= i < |added| ==> added[i].OnDispose? && added[i].id.key in cache && added[i].id == PopupId(added[i].id.key))
    && (forall k :: k in cache ==> OnDispose(PopupId(k)) in added)
    && (forall i, j :: 0 <= i < j < |added| ==> added[i] != added[j])
  }

  // ================================================================ lemmas

  /** The comparison passed to `Sort` is antisymmetric, and `Before` never holds
      both ways, so the sorted order it induces is well defined. */
  lemma CompareIsAntisymmetric(a: PendingPopup, b: PendingPopup)
    ensures Compare(a, b) == -Compare(b, a)
    ensures !(Before(a, b) && Before(b, a))
  {
  }

  /** Inserting a request whose order is newer than every queued one keeps the list sorted. */
  lemma {:induction false} InsertSorted(q: seq<PendingPopup>, p: PendingPopup)
    requires Sorted(q)
    requires forall i :: 0 <= i < |q| ==> q[i].order < p.order
    ensures Sorted(Insert(q, p))
  {
    if q != [] && !Before(p, q[0]) {
      var tail := q[1..];
      assert Sorted(tail) by {
        forall i, j | 0 <= i < j < |tail| ensures Before(tail[i], tail[j]) {
          assert tail[i] == q[i + 1] && tail[j] == q[j + 1];
        }
      }
      InsertSorted(tail, p);
      var r := Insert(q, p);
      forall x | x in multiset(Insert(tail, p)) ensures Before(q[0], x) {
        assert x in multiset(tail) + multiset{p};
        if x == p {
          assert Before(q[0], p);
        } else {
          assert x in tail;
          var j :| 0 <= j < |tail| && tail[j] == x;
          assert q[j + 1] == x;
        }
      }
      forall i, j | 0 <= i < j < |r| ensures Before(r[i], r[j]) {
        if i == 0 {
          assert r[j] == Insert(tail, p)[j - 1];
          assert r[j] in multiset(Insert(tail, p));
        } else {
          assert r[i] == Insert(tail, p)[i - 1] && r[j] == Insert(tail, p)[j - 1];
        }
      }
    } else if q != [] {
      var r := Insert(q, p);
      forall i, j | 0 <= i < j < |r| ensures Before(r[i], r[j]) {
        if i == 0 {
          assert r[j] == q[j - 1];
          if j > 1 {
            assert Before(q[0], q[j - 1]);
          }
        } else {
          assert r[i] == q[i - 1] && r[j] == q[j - 1];
        }
      }
    }
  }

  /** A list sorted by `Before` is determined by its contents: any two sorted
      arrangements of the same requests are equal. So whichever algorithm `Sort`
      uses, `Add` then `Sort` yields exactly `Insert`. */
  lemma {:induction false} SortedIsUnique(a: seq<PendingPopup>, b: seq<PendingPopup>)
    requires Sorted(a) && Sorted(b) && multiset(a) == multiset(b)
    ensures a == b
    decreases |a|
  {
    if a != [] {
      assert |b| == |multiset(b)| == |multiset(a)| == |a|;
      assert a[0] in multiset(b);
      assert b[0] in multiset(a);
      if a[0] != b[0] {
        SortedHeadFirst(a, b[0]);
        SortedHeadFirst(b, a[0]);
        assert false;
      }
      assert a == [a[0]] + a[1..] && b == [b[0]] + b[1..];
      assert multiset(a) == multiset{a[0]} + multiset(a[1..]);
      assert multiset(b) == multiset{b[0]} + multiset(b[1..]);
      calc {
        multiset(a[1..]);
        multiset(a) - multiset{a[0]};
        multiset(b) - multiset{b[0]};
        multiset(b[1..]);
      }
      SortedTail(a);
      SortedTail(b);
      SortedIsUnique(a[1..], b[1..]);
    } else {
      assert |b| == |multiset(b)| == 0;
    }
  }

  /** The head of a sorted list is served before every other element of it. */
  lemma SortedHeadFirst(q: seq<PendingPopup>, x: PendingPopup)
    requires Sorted(q) && |q| > 0 && x in multiset(q) && x != q[0]
    ensures Before(q[0], x)
  {
    var k :| 0 <= k < |q| && q[k] == x;
  }

  lemma SortedTail(q: seq<PendingPopup>)
    requires Sorted(q) && |q| > 0
    ensures Sorted(q[1..])
  {
    forall i, j | 0 <= i < j < |q| - 1 ensures Before(q[1..][i], q[1..][j]) {
      assert q[1..][i] == q[i + 1] && q[1..][j] == q[j + 1];
    }
  }

  /** `Enqueue` hands out a strictly larger order each time; afterwards the queue is
      the old queue plus the new request, sorted; since the sorted arrangement is
      unique, this is the queue `Add` followed by `Sort` produces. */
  lemma EnqueueIsAddThenSort(s: PopupState, env: PopupEnv, id: PopupId, data: Option<Payload>, priority: int, sortedByList: seq<PendingPopup>)
    requires Wf(s)
    requires Sorted(sortedByList) && multiset(sortedByList) == multiset(s.queue + [PendingPopup(id, priority, data, s.orderCounter)])
    ensures var r := Enqueue(s, env, id, data, priority);
            && r.queue == sortedByList
            && (forall i :: 0 <= i < |s.queue| ==> s.queue[i].order < s.orderCounter)
            && r.orderCounter > s.orderCounter
  {
    var r := Enqueue(s, env, id, data, priority);
    assert multiset(s.queue + [PendingPopup(id, priority, data, s.orderCounter)])
        == multiset(s.queue) + multiset{PendingPopup(id, priority, data, s.orderCounter)};
    SortedIsUnique(r.queue, sortedByList);
  }

  /** The head is served first: highest priority, earliest among equal priorities. */
  lemma DequeueServesHead(s: PopupState)
    requires Wf(s) && |s.queue| > 0
    ensures var (r, head) := Dequeue(s);
            && (forall i :: 0 <= i < |s.queue| ==> s.queue[i].priority <= head.priority)
            && (forall i :: 0 <= i < |s.queue| && s.queue[i].priority == head.priority ==> head.order <= s.queue[i].order)
            && r.queue == s.queue[1..]
  {
  }

  /** Requests with priorities 1, 5, 5, 2, arriving in that order, are served as
      5 (first), 5 (second), 2, 1. */
  lemma ServedByPriorityThenArrival(a: PopupId, b: PopupId, c: PopupId, d: PopupId, n: int)
    ensures var p1 := PendingPopup(a, 1, None, n);
            var p2 := PendingPopup(b, 5, None, n + 1);
            var p3 := PendingPopup(c, 5, None, n + 2);
            var p4 := PendingPopup(d, 2, None, n + 3);
            Insert(Insert(Insert(Insert([], p1), p2), p3), p4) == [p2, p3, p4, p1]
  {
    var p1 := PendingPopup(a, 1, None, n);
    var p2 := PendingPopup(b, 5, None, n + 1);
    var p3 := PendingPopup(c, 5, None, n + 2);
    var p4 := PendingPopup(d, 2, None, n + 3);
    assert Insert([], p1) == [p1];
    InsertAhead([p1], p2);
    InsertEqualPriorityAfter(p2, p1, p3);
    InsertBetween(p2, p3, p1, p4);
  }

  /** Third arrival: equal priority to the head, so it goes behind it. */
  lemma InsertEqualPriorityAfter(p2: PendingPopup, p1: PendingPopup, p3: PendingPopup)
    requires !Before(p3, p2) && Before(p3, p1)
    ensures Insert([p2, p1], p3) == [p2, p3, p1]
  {
    InsertBehind([p2, p1], p3);
    assert [p2, p1][1..] == [p1];
    InsertAhead([p1], p3);
  }

  /** Fourth arrival: behind both of the higher priority, ahead of the lowest. */
  lemma InsertBetween(p2: PendingPopup, p3: PendingPopup, p1: PendingPopup, p4: PendingPopup)
    requires !Before(p4, p2) && !Before(p4, p3) && Before(p4, p1)
    ensures Insert([p2, p3, p1], p4) == [p2, p3, p4, p1]
  {
    InsertBehind([p2, p3, p1], p4);
    assert [p2, p3, p1][1..] == [p3, p1];
    InsertBehind([p3, p1], p4);
    assert [p3, p1][1..] == [p1];
    InsertAhead([p1], p4);
  }

  lemma InsertAhead(q: seq<PendingPopup>, p: PendingPopup)
    requires q != [] && Before(p, q[0])
    ensures Insert(q, p) == [p] + q
  {
  }

  lemma InsertBehind(q: seq<PendingPopup>, p: PendingPopup)
    requires q != [] && !Before(p, q[0])
    ensures Insert(q, p) == [q[0]] + Insert(q[1..], p)
  {
  }

  /** `IsPopupVisible` holds exactly when a current popup is set. */
  lemma VisibleIffCurrent(s: PopupState)
    ensures IsPopupVisible(s) <==> s.current.Some?
  {
  }

  /** While a popup is visible, a request only enqueues, whatever its priority:
      the showing popup, cache, blocker, hooks, events and input are unchanged. */
  lemma ShowWhileVisibleOnlyEnqueues(s: PopupState, env: PopupEnv, id: PopupId, data: Option<Payload>, priority: int)
    requires Wf(s) && IsPopupVisible(s)
    ensures var r := ShowPopup(s, env, id, data, priority);
            && r.(queue := s.queue, orderCounter := s.orderCounter) == s
            && multiset(r.queue) == multiset(s.queue) + multiset{PendingPopup(id, priority, data, s.orderCounter)}
            && r.orderCounter == s.orderCounter + 1
  {
  }

  /** Showing with nothing visible: an unresolvable popup leaves the blocker off and
      no popup current; a resolvable one becomes current with the blocker on and
      the input on UI, and is announced. */
  lemma ShowWhenIdle(s: PopupState, env: PopupEnv, id: PopupId, data: Option<Payload>, priority: int)
    requires Wf(s) && !IsPopupVisible(s)
    ensures var r := ShowPopup(s, env, id, data, priority);
            && r.queue == s.queue
            && (!(id.key in s.cache || env.loadable(id.key)) ==>
                  r.current.None? && (env.hasBlocker ==> !r.blockerActive) && r.events == s.events)
            && (id.key in s.cache || env.loadable(id.key) ==>
                  && r.current == Some(id.key)
                  && (env.hasBlocker ==> r.blockerActive)
                  && (env.hasInput ==> r.input == Some(UIMode))
                  && r.events == s.events + [PopupOpened(id)]
                  && r.hooks == s.hooks + (if id.key in s.cache then [] else [OnInitialize(id)]) + [OnShow(id, data)]
                  && r.cache[id.key] == View(true, FadedIn))
  {
  }

  /** A request left in the queue while nothing is showing is not picked up by the
      next request or dismiss: `DismissPopup` returns at once, and `ShowPopup` shows
      the new request directly and leaves the queue as it is. */
  lemma IdleQueueWaits(s: PopupState, env: PopupEnv, currentScreen: Option<ScreenId>, id: PopupId,
                       data: Option<Payload>, priority: int)
    requires Wf(s) && s.current.None? && |s.queue| > 0
    ensures DismissPopup(s, env, currentScreen) == s
    ensures var r := ShowPopup(s, env, id, data, priority);
            && r.queue == s.queue
            && r.current == (if id.key in s.cache || env.loadable(id.key) then Some(id.key) else None)
  {
  }

  /** Dismissing with nothing visible is a no-op. */
  lemma DismissWhenIdleIsNoop(s: PopupState, env: PopupEnv, currentScreen: Option<ScreenId>)
    requires Wf(s) && !IsPopupVisible(s)
    ensures DismissPopup(s, env, currentScreen) == s
  {
  }

  /** Dismissing with requests queued: the closed popup is deactivated, the head is
      dequeued and shown; if it resolves the blocker is still on, so it was never
      turned off in between. The close is announced. */
  lemma DismissChainsToHead(s: PopupState, env: PopupEnv, currentScreen: Option<ScreenId>)
    requires Wf(s) && IsPopupVisible(s) && |s.queue| > 0
    ensures var r := DismissPopup(s, env, currentScreen);
            var head := s.queue[0];
            var closed := s.current.value;
            && r.queue == s.queue[1..]
            && (head.id.key in s.cache || env.loadable(head.id.key) ==>
                  && r.current == Some(head.id.key) && (env.hasBlocker ==> r.blockerActive)
                  && r.hooks == s.hooks + [OnDismiss(PopupId(closed))]
                                  + (if head.id.key in s.cache then [] else [OnInitialize(head.id)])
                                  + [OnShow(head.id, head.data)]
                  && r.events == s.events + [PopupOpened(head.id), PopupClosed(PopupId(closed))])
            && (!(head.id.key in s.cache || env.loadable(head.id.key)) ==>
                  r.current.None? && (env.hasBlocker ==> !r.blockerActive) && r.input == s.input)
            && r.events[|r.events| - 1] == PopupClosed(PopupId(closed))
            && (closed != head.id.key ==> r.cache[closed] == View(false, FadedOut))
  {
  }

  /** Dismissing the last popup: nothing current, blocker off, and the input
      follows the current screen's `UsesPlayerInput` flag. */
  lemma DismissLastRestoresInput(s: PopupState, env: PopupEnv, currentScreen: Option<ScreenId>)
    requires Wf(s) && IsPopupVisible(s) && |s.queue| == 0
    ensures var r := DismissPopup(s, env, currentScreen);
            && r.current.None? && r.queue == []
            && (env.hasBlocker ==> !r.blockerActive)
            && r.events == s.events + [PopupClosed(PopupId(s.current.value))]
            && r.hooks == s.hooks + [OnDismiss(PopupId(s.current.value))]
            && (env.hasInput && currentScreen.Some? ==>
                  (r.input == Some(PlayerMode) <==>
                     ScreenConfigOf(env.config, currentScreen.value.key).Some?
                     && ScreenConfigOf(env.config, currentScreen.value.key).value.usesPlayerInput)
                  && r.input.Some?)
            && (!env.hasInput || currentScreen.None? ==> r.input == s.input)
  {
  }

  /** The showing popup is never replaced by a request: only a dismiss changes it. */
  lemma NoPreemption(s: PopupState, env: PopupEnv, id: PopupId, data: Option<Payload>, priority: int)
    requires Wf(s) && IsPopupVisible(s)
    ensures ShowPopup(s, env, id, data, priority).current == s.current
  {
  }
}
