/**
 * The `useKeyboardNavigation` hook (src/hooks/useKeyboardNavigation.ts): a
 * `currentIndex` ref stepped by arrow, Home and End keys over the navigable
 * elements, with wrap-around or clamping, and Enter/space selecting the
 * current element. The DOM query is replaced by the number of elements it
 * finds; focusing and selecting are reported as outputs.
 */
module KeyboardNavigation {
  import opened Common

  datatype Orientation = Horizontal | Vertical | Both

  /** What one key press does: whether `preventDefault` ran, the new index, the element focused and the element handed to `onSelect`. */
  datatype NavEffect = NavEffect(prevented: bool, index: int, focused: Option<int>, selected: Option<int>)

  predicate IsHorizontal(o: Orientation) {
    o == Horizontal || o == Both
  }

  predicate IsVertical(o: Orientation) {
    o == Vertical || o == Both
  }

  /** The wrap-around or clamping of a stepped index onto `[0, count)`. */
  function Settle(next: int, count: nat, wrap: bool): (r: int)
    requires count > 0
    ensures 0 <= r < count
    ensures 0 <= next < count ==> r == next
  {
    if wrap then
      var a := if next < 0 then count - 1 else next;
      if a >= count then 0 else a
    else
      var a := if next < 0 then 0 else next;
      if a >= count then count - 1 else a
  }

  /** The index the key moves to before settling, or `None` when the key is ignored or is Enter/space. */
  function Stepped(key: string, count: nat, current: int, orientation: Orientation): Option<int> {
    if key == "ArrowRight" && IsHorizontal(orientation) then Some(current + 1)
    else if key == "ArrowLeft" && IsHorizontal(orientation) then Some(current - 1)
    else if key == "ArrowDown" && IsVertical(orientation) then Some(current + 1)
    else if key == "ArrowUp" && IsVertical(orientation) then Some(current - 1)
    else if key == "Home" then Some(0)
    else if key == "End" then Some(count - 1)
    else None
  }

  predicate IsSelectKey(key: string) {
    key == "Enter" || key == " "
  }

  /** The effect of `handleKeyDown` with `count` navigable elements and the ref at `current`. */
  function Navigate(key: string, count: nat, current: int, wrap: bool, orientation: Orientation, hasOnSelect: bool): NavEffect {
    if count == 0 then NavEffect(false, current, None, None)
    else if IsSelectKey(key) then
      NavEffect(true, current, None, if current >= 0 && hasOnSelect then Some(current) else None)
    else match Stepped(key, count, current, orientation)
      case None => NavEffect(false, current, None, None)
      case Some(next) =>
        var target := Settle(next, count, wrap);
        if target != current then NavEffect(true, target, Some(target), None)
        else NavEffect(true, current, None, None)
  }

  class KeyboardNavigator {
    var currentIndex: int
    const wrap: bool
    const orientation: Orientation
    const hasOnSelect: bool

    /** The hook's defaults are `wrap = true` and `orientation = 'both'`; the ref starts at -1. */
    constructor (wrap: bool, orientation: Orientation, hasOnSelect: bool)
      ensures currentIndex == -1
      ensures this.wrap == wrap && this.orientation == orientation && this.hasOnSelect == hasOnSelect
    {
      currentIndex := -1;
      this.wrap := wrap;
      this.orientation := orientation;
      this.hasOnSelect := hasOnSelect;
    }

    /** `handleKeyDown`, with `count` the number of elements the selector matches. */
    method HandleKeyDown(key: string, count: nat) returns (prevented: bool, focused: Option<int>, selected: Option<int>)
      modifies this
      ensures NavEffect(prevented, currentIndex, focused, selected) ==
        Navigate(key, count, old(currentIndex), wrap, orientation, hasOnSelect)
    {
      prevented, focused, selected := false, None, None;
      if count == 0 {
        return;
      }
      var nextIndex := currentIndex;
      var horizontal := orientation == Horizontal || orientation == Both;
      var vertical := orientation == Vertical || orientation == Both;
      if key == "ArrowRight" {
        if !horizontal { return; }
        nextIndex := nextIndex + 1;
      } else if key == "ArrowLeft" {
        if !horizontal { return; }
        nextIndex := nextIndex - 1;
      } else if key == "ArrowDown" {
        if !vertical { return; }
        nextIndex := nextIndex + 1;
      } else if key == "ArrowUp" {
        if !vertical { return; }
        nextIndex := nextIndex - 1;
      } else if key == "Home" {
        nextIndex := 0;
      } else if key == "End" {
        nextIndex := count - 1;
      } else if key == "Enter" || key == " " {
        prevented := true;
        if currentIndex >= 0 && hasOnSelect {
          selected := Some(currentIndex);
        }
        return;
      } else {
        return;
      }
      assert !IsSelectKey(key) && Stepped(key, count, currentIndex, orientation) == Some(nextIndex);
      ghost var target := Settle(nextIndex, count, wrap);
      prevented := true;
      if wrap {
        if nextIndex < 0 { nextIndex := count - 1; }
        if nextIndex >= count { nextIndex := 0; }
      } else {
        if nextIndex < 0 { nextIndex := 0; }
        if nextIndex >= count { nextIndex := count - 1; }
      }
      assert nextIndex == target;
      if nextIndex != currentIndex && nextIndex >= 0 && nextIndex < count {
        currentIndex := nextIndex;
        focused := Some(nextIndex);
      }
    }

    /** `resetNavigation`. */
    method ResetNavigation()
      modifies this
      ensures currentIndex == -1
    {
      currentIndex := -1;
    }
  }

  /** With nothing to navigate, no key does anything. */
  lemma EmptyListIgnoresKeys(key: string, current: int, wrap: bool, orientation: Orientation, hasOnSelect: bool)
    ensures Navigate(key, 0, current, wrap, orientation, hasOnSelect) == NavEffect(false, current, None, None)
  {
  }

  /** Arrows across the configured orientation are ignored, and the event is left alone. */
  lemma CrossArrowsAreIgnored(key: string, count: nat, current: int, wrap: bool, orientation: Orientation, hasOnSelect: bool)
    requires (orientation == Vertical && (key == "ArrowRight" || key == "ArrowLeft")) ||
             (orientation == Horizontal && (key == "ArrowDown" || key == "ArrowUp"))
    ensures Navigate(key, count, current, wrap, orientation, hasOnSelect) == NavEffect(false, current, None, None)
  {
  }

  /** A navigation key always leaves the index on an element, focusing it exactly when the index moved. */
  lemma NavigationLandsOnAnElement(key: string, count: nat, current: int, wrap: bool, orientation: Orientation, hasOnSelect: bool)
    requires count > 0 && Stepped(key, count, current, orientation).Some?
    ensures var e := Navigate(key, count, current, wrap, orientation, hasOnSelect);
      e.prevented && 0 <= e.index < count && e.selected.None? &&
      (e.focused.Some? <==> e.index != current) && (e.focused.Some? ==> e.focused.value == e.index)
  {
    assert !IsSelectKey(key);
  }

  /** Home goes to the first element and End to the last. */
  lemma HomeAndEnd(count: nat, current: int, wrap: bool, orientation: Orientation, hasOnSelect: bool)
    requires count > 0
    ensures Navigate("Home", count, current, wrap, orientation, hasOnSelect).index == 0
    ensures Navigate("End", count, current, wrap, orientation, hasOnSelect).index == count - 1
  {
    assert !IsSelectKey("Home") && !IsSelectKey("End");
    assert Stepped("Home", count, current, orientation) == Some(0);
    assert Stepped("End", count, current, orientation) == Some(count - 1);
  }

  /**
   * At the ends of the list, wrapping turns the last element's successor into
   * the first and the first's predecessor into the last; without wrapping the
   * index stays put.
   */
  lemma WrapOrClampAtTheEnds(count: nat, wrap: bool, hasOnSelect: bool)
    requires count > 0
    ensures Navigate("ArrowRight", count, count - 1, wrap, Both, hasOnSelect).index == if wrap then 0 else count - 1
    ensures Navigate("ArrowLeft", count, 0, wrap, Both, hasOnSelect).index == if wrap then count - 1 else 0
  {
    assert !IsSelectKey("ArrowRight") && !IsSelectKey("ArrowLeft");
    assert Stepped("ArrowRight", count, count - 1, Both) == Some(count);
    assert Stepped("ArrowLeft", count, 0, Both) == Some(-1);
  }

  /** Inside the list, the arrows move by exactly one element. */
  lemma ArrowsStepByOne(count: nat, current: int, wrap: bool, hasOnSelect: bool)
    requires 0 <= current && current + 1 < count
    ensures Navigate("ArrowDown", count, current, wrap, Both, hasOnSelect).index == current + 1
    ensures Navigate("ArrowUp", count, current + 1, wrap, Both, hasOnSelect).index == current
  {
    assert !IsSelectKey("ArrowDown") && !IsSelectKey("ArrowUp");
    assert Stepped("ArrowDown", count, current, Both) == Some(current + 1);
    assert Stepped("ArrowUp", count, current + 1, Both) == Some(current);
  }

  /** Enter and space never move the index, and select the current element only once one has been reached. */
  lemma SelectKeysKeepTheIndex(key: string, count: nat, current: int, wrap: bool, orientation: Orientation, hasOnSelect: bool)
    requires IsSelectKey(key) && count > 0
    ensures var e := Navigate(key, count, current, wrap, orientation, hasOnSelect);
      e.index == current && e.focused.None? &&
      (e.selected.Some? <==> current >= 0 && hasOnSelect) && (e.selected.Some? ==> e.selected.value == current)
  {
  }
}
