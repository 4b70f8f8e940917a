/** The interactive widgets of src/components/premium/PremiumInteractive.tsx whose
    state is more than a flag: the accordion's list of open items, the tab strip's
    active tab and the star rating's hover value. */
module Premium {
  import opened Text

  // ----- PremiumAccordion -----

  /** `toggleItem`'s updater on the list of open ids. */
  function ToggleOpen(prev: seq<string>, id: string, multiple: bool): (r: seq<string>)
    ensures multiple && id in prev ==> id !in r && |r| < |prev|
    ensures multiple && id !in prev ==> r == prev + [id]
    ensures !multiple ==> r == if id in prev then [] else [id]
  {
    if multiple then
      if id in prev then WithoutShrinks(prev, id); Without(prev, id) else prev + [id]
    else
      if id in prev then [] else [id]
  }

  /** `Without` drops at least one element when the value is there. */
  lemma {:induction false} WithoutShrinks(s: seq<string>, v: string)
    requires v in s
    ensures |Without(s, v)| < |s|
  {
    if s[0] != v {
      WithoutShrinks(s[1..], v);
    }
  }

  /** In multiple mode, toggling `id` flips whether `id` is open and leaves every
      other item as it was. */
  lemma MultipleToggleIsLocal(prev: seq<string>, id: string, x: string)
    ensures (id in ToggleOpen(prev, id, true)) == (id !in prev)
    ensures x != id ==> (x in ToggleOpen(prev, id, true) <==> x in prev)
  {
    if x != id && id in prev {
      WithoutKeepsOthers(prev, id, x);
      assert x in prev <==> multiset(prev)[x] > 0;
      assert x in Without(prev, id) <==> multiset(Without(prev, id))[x] > 0;
    }
  }

  /** In multiple mode, toggling the same id twice gives back the same open set. */
  lemma MultipleToggleTwice(prev: seq<string>, id: string)
    ensures (set x | x in ToggleOpen(ToggleOpen(prev, id, true), id, true)) == (set x | x in prev)
  {
    var once := ToggleOpen(prev, id, true);
    forall x ensures x in ToggleOpen(once, id, true) <==> x in prev {
      MultipleToggleIsLocal(prev, id, x);
      MultipleToggleIsLocal(once, id, x);
    }
  }

  /** ... and when `id` was closed, the very same list. */
  lemma MultipleToggleTwiceFromClosed(prev: seq<string>, id: string)
    requires id !in prev
    ensures ToggleOpen(ToggleOpen(prev, id, true), id, true) == prev
  {
    WithoutConcat(prev, [id], id);
    WithoutAbsent(prev, id);
    assert Without([id], id) == [];
  }

  class Accordion {
    const multiple: bool
    var openItems: seq<string>

    /** In single mode at most one item is ever open. */
    predicate Valid()
      reads this
    {
      !multiple ==> |openItems| <= 1
    }

    constructor (multiple: bool)
      ensures Valid() && this.multiple == multiple && openItems == []
    {
      this.multiple := multiple;
      openItems := [];
    }

    /** `isOpen` for one item. */
    predicate IsOpen(id: string)
      reads this
    {
      id in openItems
    }

    method ToggleItem(id: string)
      requires Valid()
      modifies this
      ensures Valid()
      ensures openItems == ToggleOpen(old(openItems), id, multiple)
      ensures IsOpen(id) <==> !old(IsOpen(id))
      ensures multiple ==> forall x :: x != id ==> (IsOpen(x) <==> old(IsOpen(x)))
      ensures !multiple ==> forall x :: x != id ==> !IsOpen(x)
    {
      forall x ensures x != id ==> (x in ToggleOpen(openItems, id, true) <==> x in openItems) {
        MultipleToggleIsLocal(openItems, id, x);
      }
      MultipleToggleIsLocal(openItems, id, id);
      openItems := ToggleOpen(openItems, id, multiple);
    }
  }

  // ----- PremiumTabs -----

  /** `useState(defaultTab || tabs[0]?.id)`: an absent or empty `defaultTab` falls
      back to the first tab's id, and to `undefined` (`None`) when there are no tabs. */
  function InitialTab(defaultTab: Option<string>, tabIds: seq<string>): (r: Option<string>)
    ensures defaultTab.Some? && defaultTab.value != "" ==> r == defaultTab
    ensures (defaultTab.None? || defaultTab.value == "") && tabIds != [] ==> r == Some(tabIds[0])
    ensures (defaultTab.None? || defaultTab.value == "") && tabIds == [] ==> r.None?
  {
    if defaultTab.Some? && defaultTab.value != "" then defaultTab
    else if tabIds != [] then Some(tabIds[0])
    else None
  }

  /** The panels rendered from index `from` on: those whose id equals `activeTab`. */
  function ShownFrom(tabIds: seq<string>, active: Option<string>, from: nat): (r: seq<nat>)
    requires from <= |tabIds|
    ensures forall k :: 0 <= k < |r| ==> from <= r[k] < |tabIds| && Some(tabIds[r[k]]) == active
    ensures forall i :: from <= i < |tabIds| && Some(tabIds[i]) == active ==> i in r
    decreases |tabIds| - from
  {
    if from == |tabIds| then []
    else (if Some(tabIds[from]) == active then [from] else []) + ShownFrom(tabIds, active, from + 1)
  }

  /** The panels rendered: those whose id equals `activeTab`. */
  function ShownPanels(tabIds: seq<string>, active: Option<string>): (r: seq<nat>)
    ensures forall k :: 0 <= k < |r| ==> r[k] < |tabIds| && Some(tabIds[r[k]]) == active
    ensures forall i :: 0 <= i < |tabIds| && Some(tabIds[i]) == active ==> i in r
  {
    ShownFrom(tabIds, active, 0)
  }

  /** With distinct tab ids, exactly one panel shows once a tab is active. */
  lemma OnePanelShown(tabIds: seq<string>, i: nat)
    requires i < |tabIds|
    requires forall a, b :: 0 <= a < b < |tabIds| ==> tabIds[a] != tabIds[b]
    ensures i in ShownPanels(tabIds, Some(tabIds[i]))
    ensures forall k :: 0 <= k < |ShownPanels(tabIds, Some(tabIds[i]))| ==> ShownPanels(tabIds, Some(tabIds[i]))[k] == i
  {
  }

  class Tabs {
    const tabIds: seq<string>
    var activeTab: Option<string>

    constructor (tabIds: seq<string>, defaultTab: Option<string>)
      ensures this.tabIds == tabIds && activeTab == InitialTab(defaultTab, tabIds)
    {
      this.tabIds := tabIds;
      activeTab := InitialTab(defaultTab, tabIds);
    }

    /** A tab button's `onClick`. */
    method SelectTab(i: nat)
      requires i < |tabIds|
      modifies this
      ensures activeTab == Some(tabIds[i])
    {
      activeTab := Some(tabIds[i]);
    }
  }

  // ----- PremiumRating -----

  /** `isFilled` for star `value` (1..maxRating): a non-zero hover value wins over
      the rating (`hoverRating || rating`). */
  predicate IsFilled(value: int, hoverRating: int, rating: real) {
    if hoverRating != 0 then value <= hoverRating else value as real <= rating
  }

  /** The filled stars are a prefix of the row. */
  lemma FilledStarsArePrefix(v: int, w: int, hoverRating: int, rating: real)
    requires v <= w && IsFilled(w, hoverRating, rating)
    ensures IsFilled(v, hoverRating, rating)
  {
  }

  /** While hovering a star, exactly the stars up to it are filled, whatever the
      rating. */
  lemma HoverShowsUpTo(v: int, hover: int, rating: real)
    requires hover >= 1
    ensures IsFilled(v, hover, rating) <==> v <= hover
  {
  }

  class Rating {
    const maxRating: nat
    const readonly: bool
    const hasOnChange: bool
    var hoverRating: nat

    predicate Valid()
      reads this
    {
      hoverRating <= maxRating && (readonly ==> hoverRating == 0)
    }

    constructor (maxRating: nat, readonly: bool, hasOnChange: bool)
      ensures Valid() && hoverRating == 0
      ensures this.maxRating == maxRating && this.readonly == readonly && this.hasOnChange == hasOnChange
    {
      this.maxRating := maxRating;
      this.readonly := readonly;
      this.hasOnChange := hasOnChange;
      hoverRating := 0;
    }

    /** `handleClick(value)`: the value given to `onChange`, if it is called. */
    method HandleClick(value: nat) returns (emitted: Option<nat>)
      ensures emitted == if !readonly && hasOnChange then Some(value) else None
      ensures readonly ==> emitted.None?
    {
      if !readonly && hasOnChange {
        emitted := Some(value);
      } else {
        emitted := None;
      }
    }

    method MouseEnter(value: nat)
      requires Valid() && 1 <= value <= maxRating
      modifies this
      ensures Valid()
      ensures hoverRating == if readonly then old(hoverRating) else value
    {
      if !readonly {
        hoverRating := value;
      }
    }

    method MouseLeave()
      requires Valid()
      modifies this
      ensures Valid() && hoverRating == 0
    {
      if !readonly {
        hoverRating := 0;
      }
    }
  }
}
