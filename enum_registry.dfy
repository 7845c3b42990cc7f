/**
 * The name registry behind the generated `ScreenIdEnum` / `PopupIdEnum`:
 * an append-only list of (name, index) entries. A name is registered once;
 * a new name gets one more than the largest index so far, so indices are
 * never reused.
 */
module Registry {

  datatype RegistryEntry = RegistryEntry(name: string, index: int)

  /** `RegistryData`: the serialised list, updated in place by `AddEntry`. */
  class RegistryData {
    var entries: seq<RegistryEntry>

    constructor ()
      ensures entries == []
    {
      entries := [];
    }
  }

  predicate HasName(entries: seq<RegistryEntry>, name: string) {
    exists i :: 0 <= i < |entries| && entries[i].name == name
  }

  /** No name appears twice. */
  predicate UniqueNames(entries: seq<RegistryEntry>) {
    forall i, j :: 0 <= i < j < |entries| ==> entries[i].name != entries[j].name
  }

  /** No index appears twice. */
  predicate DistinctIndices(entries: seq<RegistryEntry>) {
    forall i, j :: 0 <= i < j < |entries| ==> entries[i].index != entries[j].index
  }

  /** Position of the first entry called `name`, or `|entries|` when there is none. */
  function FirstMatch(entries: seq<RegistryEntry>, name: string): (k: nat)
    ensures k <= |entries|
    ensures k < |entries| ==> entries[k].name == name
    ensures forall j :: 0 <= j < k ==> entries[j].name != name
    ensures k == |entries| <==> !HasName(entries, name)
  {
    if |entries| == 0 then 0
    else if entries[0].name == name then 0
    else
      var k := 1 + FirstMatch(entries[1..], name);
      assert forall j :: 1 <= j < k ==> entries[j] == entries[1..][j - 1];
      k
  }

  /** The `maxIndex` of the second loop after visiting every entry: the largest
      index, or 0 when none is larger. */
  function MaxIndex(entries: seq<RegistryEntry>): (m: int)
    ensures m >= 0
    ensures forall i :: 0 <= i < |entries| ==> entries[i].index <= m
    ensures m == 0 || exists i :: 0 <= i < |entries| && entries[i].index == m
  {
    if |entries| == 0 then 0
    else
      var init := entries[..|entries| - 1];
      var m := MaxIndex(init);
      assert forall i :: 0 <= i < |init| ==> init[i] == entries[i];
      if entries[|entries| - 1].index > m then entries[|entries| - 1].index else m
  }

  /** `AddEntry` on values: the new entry list and the returned index. */
  function Add(entries: seq<RegistryEntry>, name: string): (r: (seq<RegistryEntry>, int))
    ensures entries <= r.0 && |r.0| <= |entries| + 1
    ensures HasName(r.0, name)
  {
    var k := FirstMatch(entries, name);
    if k < |entries| then (entries, entries[k].index)
    else
      var grown := entries + [RegistryEntry(name, MaxIndex(entries) + 1)];
      assert grown[|entries|].name == name;
      (grown, MaxIndex(entries) + 1)
  }

  /** `AddEntry`: the first loop looks the name up, the second computes `maxIndex`. */
  method AddEntry(data: RegistryData, name: string) returns (index: int)
    modifies data
    ensures (data.entries, index) == Add(old(data.entries), name)
  {
    var i := 0;
    while i < |data.entries|
      invariant 0 <= i <= |data.entries|
      invariant forall j :: 0 <= j < i ==> data.entries[j].name != name
    {
      if data.entries[i].name == name {
        return data.entries[i].index;
      }
      i := i + 1;
    }

    var maxIndex := 0;
    i := 0;
    while i < |data.entries|
      invariant 0 <= i <= |data.entries|
      invariant maxIndex == MaxIndex(data.entries[..i])
    {
      assert data.entries[..i + 1][..i] == data.entries[..i];
      if data.entries[i].index > maxIndex {
        maxIndex := data.entries[i].index;
      }
      i := i + 1;
    }
    assert data.entries[..i] == data.entries;

    var entry := RegistryEntry(name, maxIndex + 1);
    data.entries := data.entries + [entry];
    return entry.index;
  }

  /** `HasEntry`: a read-only linear search. */
  method HasEntry(data: RegistryData, name: string) returns (b: bool)
    ensures b <==> exists i :: 0 <= i < |data.entries| && data.entries[i].name == name
  {
    var i := 0;
    while i < |data.entries|
      invariant 0 <= i <= |data.entries|
      invariant forall j :: 0 <= j < i ==> data.entries[j].name != name
    {
      if data.entries[i].name == name {
        return true;
      }
      i := i + 1;
    }
    return false;
  }

  // ------------------------------------------------------------- properties

  /** A registered name returns the index of its first entry and changes nothing. */
  lemma AddExistingIsNoop(entries: seq<RegistryEntry>, name: string, i: int)
    requires 0 <= i < |entries| && entries[i].name == name
    requires forall j :: 0 <= j < i ==> entries[j].name != name
    ensures Add(entries, name) == (entries, entries[i].index)
  {
    var k := FirstMatch(entries, name);
    assert k == i;
  }

  /** A new name is appended once, with index one above every existing index;
      the first entry of an empty registry gets 1. */
  lemma AddNewAppends(entries: seq<RegistryEntry>, name: string)
    requires !HasName(entries, name)
    ensures Add(entries, name).0 == entries + [RegistryEntry(name, Add(entries, name).1)]
    ensures forall i :: 0 <= i < |entries| ==> entries[i].index < Add(entries, name).1
    ensures Add(entries, name).1 >= 1
    ensures entries == [] ==> Add(entries, name).1 == 1
    ensures (exists i :: 0 <= i < |entries| && entries[i].index == Add(entries, name).1 - 1)
            || Add(entries, name).1 == 1
  {
  }

  /** Whatever was there, the name is registered afterwards and nothing is lost. */
  lemma HasEntryAfterAdd(entries: seq<RegistryEntry>, name: string)
    ensures HasName(Add(entries, name).0, name)
    ensures entries <= Add(entries, name).0 && |Add(entries, name).0| <= |entries| + 1
  {
    var k := FirstMatch(entries, name);
    if k == |entries| {
      assert Add(entries, name).0[|entries|].name == name;
    }
  }

  /** The returned index is the index the name is registered under. */
  lemma AddReturnsRegisteredIndex(entries: seq<RegistryEntry>, name: string)
    ensures var r := Add(entries, name);
            var k := FirstMatch(r.0, name);
            k < |r.0| && r.0[k].index == r.1
  {
    var r := Add(entries, name);
    if FirstMatch(entries, name) == |entries| {
      assert forall j :: 0 <= j < |entries| ==> r.0[j] == entries[j];
      assert r.0[|entries|].name == name;
    }
  }

  /** Adding the same name again returns the same index and changes nothing. */
  lemma AddIdempotent(entries: seq<RegistryEntry>, name: string)
    ensures Add(Add(entries, name).0, name) == Add(entries, name)
  {
    AddReturnsRegisteredIndex(entries, name);
  }

  /** Names stay unique. */
  lemma AddPreservesUniqueNames(entries: seq<RegistryEntry>, name: string)
    requires UniqueNames(entries)
    ensures UniqueNames(Add(entries, name).0)
  {
  }

  /** Indices stay distinct, because a new index is above every old one. */
  lemma AddPreservesDistinctIndices(entries: seq<RegistryEntry>, name: string)
    requires DistinctIndices(entries)
    ensures DistinctIndices(Add(entries, name).0)
  {
    if !HasName(entries, name) {
      AddNewAppends(entries, name);
    }
  }

  /** Every name registered before keeps its first position and index. */
  lemma AddKeepsOtherNames(entries: seq<RegistryEntry>, name: string, other: string)
    requires HasName(entries, other)
    ensures var r := Add(entries, name).0;
            FirstMatch(r, other) == FirstMatch(entries, other)
            && r[FirstMatch(r, other)] == entries[FirstMatch(entries, other)]
  {
    var r := Add(entries, name).0;
    var k := FirstMatch(entries, other);
    assert forall j :: 0 <= j < |entries| ==> r[j] == entries[j];
    assert r[k].name == other;
  }
}
