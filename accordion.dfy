/** The accordion (src/components/ui/Accordion.tsx): `expandedIndex` is a number
    or null, and a header click toggles its item, so that at most one item is
    ever expanded. */
module Accordion {
  import opened Wrappers

  /** `isExpanded` for item `k` during render. */
  predicate IsExpanded(expandedIndex: Option<int>, k: int) {
    expandedIndex == Some(k)
  }

  /** The new `expandedIndex` after `toggleItem(index)`. */
  function Toggle(expandedIndex: Option<int>, index: int): (r: Option<int>)
    ensures IsExpanded(expandedIndex, index) ==> forall k :: !IsExpanded(r, k)
    ensures !IsExpanded(expandedIndex, index) ==> forall k :: IsExpanded(r, k) <==> k == index
  {
    if expandedIndex == Some(index) then None else Some(index)
  }

  /** The indices among `count` items whose content is rendered. */
  function ExpandedItems(expandedIndex: Option<int>, count: nat): set<int> {
    set k | 0 <= k < count && IsExpanded(expandedIndex, k)
  }

  /** At most one item is expanded, and it is the one `expandedIndex` names. */
  lemma AtMostOneExpanded(expandedIndex: Option<int>, count: nat)
    ensures |ExpandedItems(expandedIndex, count)| <= 1
    ensures expandedIndex.Some? && 0 <= expandedIndex.value < count ==>
              ExpandedItems(expandedIndex, count) == {expandedIndex.value}
    ensures (expandedIndex.None? || !(0 <= expandedIndex.value < count)) ==>
              ExpandedItems(expandedIndex, count) == {}
  {
    var e := ExpandedItems(expandedIndex, count);
    if expandedIndex.Some? && 0 <= expandedIndex.value < count {
      assert e == {expandedIndex.value};
    } else {
      assert e == {};
    }
  }

  /** Toggling one index twice from "none expanded" returns to "none expanded". */
  lemma ToggleTwiceFromNone(index: int)
    ensures Toggle(Toggle(None, index), index) == None
  {
  }

  /** The content rendered for each item: present exactly for the expanded one. */
  function RenderedContents<T>(contents: seq<T>, expandedIndex: Option<int>): (r: seq<Option<T>>)
    ensures |r| == |contents|
    ensures forall k :: 0 <= k < |r| ==> (r[k].Some? <==> IsExpanded(expandedIndex, k))
    ensures forall k :: 0 <= k < |r| && r[k].Some? ==> r[k].value == contents[k]
  {
    seq(|contents|, k requires 0 <= k < |contents| => if IsExpanded(expandedIndex, k) then Some(contents[k]) else None)
  }

  /** No two items show their content at once. */
  lemma ContentShownForOneItem<T>(contents: seq<T>, expandedIndex: Option<int>, j: int, k: int)
    requires 0 <= j < |contents| && 0 <= k < |contents|
    requires RenderedContents(contents, expandedIndex)[j].Some?
    requires RenderedContents(contents, expandedIndex)[k].Some?
    ensures j == k
  {
  }

  /** One accordion over `itemCount` items. */
  class AccordionState {
    const itemCount: nat
    var expandedIndex: Option<int>

    ghost predicate Valid()
      reads this
    {
      expandedIndex.Some? ==> 0 <= expandedIndex.value < itemCount
    }

    /** Initially no item is expanded. */
    constructor (itemCount: nat)
      ensures this.itemCount == itemCount && expandedIndex == None && Valid()
    {
      this.itemCount := itemCount;
      expandedIndex := None;
    }

    /** A header click; headers exist only for the items rendered. */
    method ToggleItem(index: int)
      requires Valid() && 0 <= index < itemCount
      modifies this
      ensures Valid() && expandedIndex == Toggle(old(expandedIndex), index)
      ensures |ExpandedItems(expandedIndex, itemCount)| <= 1
    {
      expandedIndex := if expandedIndex == Some(index) then None else Some(index);
      AtMostOneExpanded(expandedIndex, itemCount);
    }
  }
}
