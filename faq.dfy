/** The FAQ accordion: one optional open index shared by all items. */
module Faq {
  import opened JsCore

  /** The transition of `toggleItem(index)`: the open item closes, any other
      item opens in place of whatever was open. */
  function Toggled(openIndex: Option<nat>, index: nat): (r: Option<nat>)
    ensures r == None <==> openIndex == Some(index)
    ensures r != None ==> r == Some(index)
    // after a toggle no item other than `index` is open
    ensures forall j: nat :: j != index ==> r != Some(j)
  {
    if openIndex == Some(index) then None else Some(index)
  }

  /** Toggling an item twice always restores that item's own open state; the
      whole accordion comes back only when nothing, or that item, was open
      before. When another item j was open, the second toggle leaves all
      items closed. */
  lemma ToggleTwice(openIndex: Option<nat>, index: nat)
    ensures (Toggled(Toggled(openIndex, index), index) == Some(index)) <==> (openIndex == Some(index))
    ensures openIndex == None || openIndex == Some(index) ==>
              Toggled(Toggled(openIndex, index), index) == openIndex
    ensures openIndex.Some? && openIndex != Some(index) ==>
              Toggled(Toggled(openIndex, index), index) == None
  {
  }

  /** The keys that activate an item: Enter and Space. */
  predicate IsActivationKey(key: string) {
    key == "Enter" || key == " "
  }

  class Accordion {
    /** The number of items rendered. */
    const itemCount: nat
    var openIndex: Option<nat>

    /** Initially the first item is open. */
    constructor(itemCount: nat)
      ensures this.itemCount == itemCount && openIndex == Some(0)
    {
      this.itemCount := itemCount;
      openIndex := Some(0);
    }

    /** Item `index` is open: its button's `aria-expanded` is true and its
        answer is rendered. */
    predicate IsOpen(index: nat)
      reads this
    {
      openIndex == Some(index)
    }

    /** At most one item is open at a time. */
    lemma AtMostOneOpen(i: nat, j: nat)
      requires IsOpen(i) && IsOpen(j)
      ensures i == j
    {
    }

    /** A click on the button of item `index`. */
    method ToggleItem(index: nat)
      requires index < itemCount
      modifies this
      ensures openIndex == Toggled(old(openIndex), index)
    {
      openIndex := if openIndex == Some(index) then None else Some(index);
    }

    /** A key press on the button of item `index`: Enter and Space toggle the
        item (and suppress the default action); other keys change nothing. */
    method HandleKeyDown(key: string, index: nat) returns (preventDefault: bool)
      requires index < itemCount
      modifies this
      ensures preventDefault <==> IsActivationKey(key)
      ensures IsActivationKey(key) ==> openIndex == Toggled(old(openIndex), index)
      ensures !IsActivationKey(key) ==> openIndex == old(openIndex)
    {
      preventDefault := false;
      if key == "Enter" || key == " " {
        preventDefault := true;
        ToggleItem(index);
      }
    }
  }

  /** The keyboard case: on a fresh accordion, Enter on the first item closes
      it and Space opens it again. */
  method KeyboardScenario(itemCount: nat) returns (afterEnter: bool, afterSpace: bool)
    requires itemCount > 0
    ensures !afterEnter && afterSpace
  {
    var faq := new Accordion(itemCount);
    var _ := faq.HandleKeyDown("Enter", 0);
    afterEnter := faq.IsOpen(0);
    var _ := faq.HandleKeyDown(" ", 0);
    afterSpace := faq.IsOpen(0);
  }
}
