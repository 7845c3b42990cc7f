/**
 * The two identifier structs of the navigation system, `ScreenId` and
 * `PopupId`: immutable string keys, compared by exact (ordinal) key
 * equality, with a distinguished empty key standing for "no view".
 */
module Identifiers {
  import opened Wrappers

  /** A screen identifier. The key is never null once constructed. */
  datatype ScreenId = ScreenId(key: string) {

    /** `ScreenId.None`, the identifier with the empty key. */
    static const None: ScreenId := ScreenId("")

    /** `IsNone`: `string.IsNullOrEmpty(Key)`; the key is never null here. */
    function IsNone(): (r: bool)
      ensures r <==> this == None
    {
      |key| == 0
    }

    /** `Equals(ScreenId)`: ordinal equality of the two keys. */
    function Equals(other: ScreenId): (r: bool)
      ensures r <==> this == other
    {
      key == other.key
    }

    /** `Equals(object)`: the argument must be a boxed `ScreenId`. */
    function EqualsObject(obj: Boxed): (r: bool)
      ensures r <==> obj == BoxedScreen(this)
    {
      obj.BoxedScreen? && Equals(obj.screen)
    }

    /** `ToString()`: constructing from the result gives this identifier back. */
    function ToString(): (r: string)
      ensures NewScreenId(Some(r)) == this
    {
      key
    }
  }

  /** A popup identifier, built exactly like `ScreenId`. */
  datatype PopupId = PopupId(key: string) {

    static const None: PopupId := PopupId("")

    function IsNone(): (r: bool)
      ensures r <==> this == None
    {
      |key| == 0
    }

    function Equals(other: PopupId): (r: bool)
      ensures r <==> this == other
    {
      key == other.key
    }

    function EqualsObject(obj: Boxed): (r: bool)
      ensures r <==> obj == BoxedPopup(this)
    {
      obj.BoxedPopup? && Equals(obj.popup)
    }

    function ToString(): (r: string)
      ensures NewPopupId(Some(r)) == this
    {
      key
    }
  }

  /** The argument of `Equals(object)`: null, a boxed identifier, or some other object. */
  datatype Boxed =
    | Null
    | BoxedScreen(screen: ScreenId)
    | BoxedPopup(popup: PopupId)
    | BoxedString(text: string)

  /** The constructor `new ScreenId(key)`: a null key becomes the empty key. */
  function NewScreenId(key: Option<string>): (id: ScreenId)
    ensures key.None? ==> id.IsNone()
    ensures key.Some? ==> id.key == key.value
  {
    ScreenId(key.GetOr(""))
  }

  /** The constructor `new PopupId(key)`. */
  function NewPopupId(key: Option<string>): (id: PopupId)
    ensures key.None? ==> id.IsNone()
    ensures key.Some? ==> id.key == key.value
  {
    PopupId(key.GetOr(""))
  }

  /** `operator ==` and `operator !=` on screen identifiers. */
  function ScreenEq(left: ScreenId, right: ScreenId): (r: bool)
    ensures r <==> left == right
  {
    left.Equals(right)
  }

  function ScreenNeq(left: ScreenId, right: ScreenId): (r: bool)
    ensures r <==> left != right
  {
    !left.Equals(right)
  }

  /** The implicit conversion `(string)id`: it agrees with `ToString()`. */
  function ScreenToString(id: ScreenId): (r: string)
    ensures r == id.ToString() && NewScreenId(Some(r)) == id
  {
    id.key
  }

  function PopupEq(left: PopupId, right: PopupId): (r: bool)
    ensures r <==> left == right
  {
    left.Equals(right)
  }

  function PopupNeq(left: PopupId, right: PopupId): (r: bool)
    ensures r <==> left != right
  {
    !left.Equals(right)
  }

  function PopupToString(id: PopupId): (r: string)
    ensures r == id.ToString() && NewPopupId(Some(r)) == id
  {
    id.key
  }

  // ---------------------------------------------------------------- ScreenId

  /** `IsNone` holds exactly for the empty key, and `None` is none. */
  lemma ScreenIsNoneIffEmpty(id: ScreenId)
    ensures id.IsNone() <==> id.key == ""
    ensures ScreenId.None.IsNone()
  {
  }

  /** Equality is ordinal key equality, i.e. equality of the identifiers as values;
      in particular `new ScreenId(null) == ScreenId.None`. */
  lemma ScreenEqualityIsKeyEquality(a: ScreenId, b: ScreenId)
    ensures ScreenEq(a, b) <==> a.key == b.key
    ensures ScreenEq(a, b) <==> a == b
    ensures ScreenEq(NewScreenId(None), ScreenId.None)
  {
  }

  lemma ScreenNeqNegatesEq(a: ScreenId, b: ScreenId)
    ensures ScreenNeq(a, b) <==> !ScreenEq(a, b)
  {
  }

  /** `Equals(object)` holds only for a boxed `ScreenId` with an equal key: never for
      null, a `PopupId` or a string with the same characters. */
  lemma ScreenEqualsObjectOnlyScreenIds(a: ScreenId, obj: Boxed)
    ensures a.EqualsObject(obj) <==> obj == BoxedScreen(a)
    ensures !a.EqualsObject(BoxedPopup(PopupId(a.key)))
    ensures !a.EqualsObject(BoxedString(a.key))
    ensures !a.EqualsObject(Null)
  {
  }

  lemma ScreenStringConversions(id: ScreenId, key: string)
    ensures id.ToString() == ScreenToString(id) == id.key
    ensures NewScreenId(Some(key)).ToString() == key
  {
  }

  // ----------------------------------------------------------------- PopupId

  lemma PopupIsNoneIffEmpty(id: PopupId)
    ensures id.IsNone() <==> id.key == ""
    ensures PopupId.None.IsNone()
  {
  }

  lemma PopupEqualityIsKeyEquality(a: PopupId, b: PopupId)
    ensures PopupEq(a, b) <==> a.key == b.key
    ensures PopupEq(a, b) <==> a == b
    ensures PopupEq(NewPopupId(None), PopupId.None)
  {
  }

  lemma PopupNeqNegatesEq(a: PopupId, b: PopupId)
    ensures PopupNeq(a, b) <==> !PopupEq(a, b)
  {
  }

  lemma PopupEqualsObjectOnlyPopupIds(a: PopupId, obj: Boxed)
    ensures a.EqualsObject(obj) <==> obj == BoxedPopup(a)
    ensures !a.EqualsObject(BoxedScreen(ScreenId(a.key)))
    ensures !a.EqualsObject(BoxedString(a.key))
    ensures !a.EqualsObject(Null)
  {
  }

  lemma PopupStringConversions(id: PopupId, key: string)
    ensures id.ToString() == PopupToString(id) == id.key
    ensures NewPopupId(Some(key)).ToString() == key
  {
  }
}
