/**
 * The per-state record list (`stateList`) that both stateful views keep:
 * its invariant, the linear lookup both views use, and the updates they
 * make to it, as functions on values with their properties.
 */
module StateRegistry {
  import opened StatefulShared

  /** One record per state, in `AllCases` order. */
  predicate WellFormed(list: seq<CollectionStateData>)
  {
    |list| == |AllCases| && forall i | 0 <= i < |list| :: list[i].stateId == AllCases[i]
  }

  /** The records `fillStateData` appends: the factory default of every state, in `AllCases` order. */
  function Defaults(): (list: seq<CollectionStateData>)
    ensures WellFormed(list)
    ensures forall s :: list[Ordinal(s)] == Create(s)
  {
    seq(|AllCases|, i requires 0 <= i < |AllCases| => Create(AllCases[i]))
  }

  /**
   * `stateList.firstIndex { $0.stateId == s }`: the index of the first record
   * of state `s`, or none. On a well-formed list it always finds `s`, at its
   * position in `AllCases`.
   */
  method FirstIndex(list: seq<CollectionStateData>, s: CollectionState) returns (index: Option<nat>)
    ensures index.Some? ==> index.value < |list| && list[index.value].stateId == s
    ensures index.Some? ==> forall j | 0 <= j < index.value :: list[j].stateId != s
    ensures index.None? ==> forall j | 0 <= j < |list| :: list[j].stateId != s
    ensures WellFormed(list) ==> index == Some(Ordinal(s))
  {
    var i := 0;
    while i < |list|
      invariant i <= |list|
      invariant forall j | 0 <= j < i :: list[j].stateId != s
    {
      if list[i].stateId == s {
        return Some(i);
      }
      i := i + 1;
    }
    return None;
  }

  /** The list after `setText(to: text, forState: s)` changed the record of `s`. */
  function WithText(list: seq<CollectionStateData>, s: CollectionState, text: Option<string>): (r: seq<CollectionStateData>)
    requires WellFormed(list)
    ensures WellFormed(r)
    ensures r[Ordinal(s)].text == text && r[Ordinal(s)].image == list[Ordinal(s)].image
    ensures forall i | 0 <= i < |r| && i != Ordinal(s) :: r[i] == list[i]
  {
    list[Ordinal(s) := list[Ordinal(s)].(text := text)]
  }

  /** The list after `setImage(to: image, forState: s)` changed the record of `s`. */
  function WithImage(list: seq<CollectionStateData>, s: CollectionState, image: Option<Image>): (r: seq<CollectionStateData>)
    requires WellFormed(list)
    ensures WellFormed(r)
    ensures r[Ordinal(s)].image == image && r[Ordinal(s)].text == list[Ordinal(s)].text
    ensures forall i | 0 <= i < |r| && i != Ordinal(s) :: r[i] == list[i]
  {
    list[Ordinal(s) := list[Ordinal(s)].(image := image)]
  }

  /** The list after `reset(state: s)` put back the factory default of `s`. */
  function WithDefault(list: seq<CollectionStateData>, s: CollectionState): (r: seq<CollectionStateData>)
    requires WellFormed(list)
    ensures WellFormed(r)
    ensures r[Ordinal(s)] == Create(s)
    ensures forall i | 0 <= i < |r| && i != Ordinal(s) :: r[i] == list[i]
  {
    list[Ordinal(s) := Create(s)]
  }

  /** Resetting a state discards whatever text and image were set on it. */
  lemma ResetDiscardsEdits(list: seq<CollectionStateData>, s: CollectionState, text: Option<string>, image: Option<Image>)
    requires WellFormed(list)
    ensures WithDefault(WithImage(WithText(list, s, text), s, image), s) == WithDefault(list, s)
  {
  }

  /** Edits to two different states do not interfere: either order gives the same list. */
  lemma EditsOnDistinctStatesCommute(list: seq<CollectionStateData>, s: CollectionState, t: CollectionState,
                                     text: Option<string>, otherText: Option<string>,
                                     image: Option<Image>, otherImage: Option<Image>)
    requires WellFormed(list) && s != t
    ensures WithText(WithText(list, s, text), t, otherText) == WithText(WithText(list, t, otherText), s, text)
    ensures WithImage(WithImage(list, s, image), t, otherImage) == WithImage(WithImage(list, t, otherImage), s, image)
    ensures WithImage(WithText(list, s, text), t, image) == WithText(WithImage(list, t, image), s, text)
  {
  }

  /** `reset(state:)` called once for each state of `states`, in that order. */
  function ResetEach(list: seq<CollectionStateData>, states: seq<CollectionState>): (r: seq<CollectionStateData>)
    requires WellFormed(list)
    ensures WellFormed(r)
    decreases |states|
  {
    if states == [] then list else ResetEach(WithDefault(list, states[0]), states[1..])
  }

  /** After resetting `states` one by one, a state's record is its default if it was reset, and untouched otherwise. */
  lemma {:induction false} ResetEachRecord(list: seq<CollectionStateData>, states: seq<CollectionState>, s: CollectionState)
    requires WellFormed(list)
    ensures ResetEach(list, states)[Ordinal(s)] == if s in states then Create(s) else list[Ordinal(s)]
    decreases |states|
  {
    if states != [] {
      ResetEachRecord(WithDefault(list, states[0]), states[1..], s);
      assert s in states <==> s == states[0] || s in states[1..];
    }
  }

  /**
   * `resetAllStates` is the same as `reset(state:)` on every state: resetting
   * each state, in any order, rebuilds exactly the list of defaults.
   */
  lemma {:induction false} ResetEveryStateIsResetAll(list: seq<CollectionStateData>, states: seq<CollectionState>)
    requires WellFormed(list)
    requires forall s :: s in states
    ensures ResetEach(list, states) == Defaults()
  {
    var r, d := ResetEach(list, states), Defaults();
    forall i | 0 <= i < |AllCases|
      ensures r[i] == d[i]
    {
      var s := AllCases[i];
      assert Ordinal(s) == i;
      ResetEachRecord(list, states, s);
    }
  }
}
