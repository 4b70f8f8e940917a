/** Width classification and the keyboard cursor of src/utils/ResponsiveUtils.tsx.
    The window width and the key pressed are parameters. */
module Responsive {

  /** The Tailwind breakpoint names, smallest first. */
  datatype Breakpoint = Sm | Md | Lg | Xl | Xxl

  /** The `breakpoints` table (pixels). `sm`'s 640 is declared but no rule reads it. */
  function MinWidth(b: Breakpoint): int {
    match b
    case Sm => 640
    case Md => 768
    case Lg => 1024
    case Xl => 1280
    case Xxl => 1536
  }

  function Rank(b: Breakpoint): nat {
    match b
    case Sm => 0
    case Md => 1
    case Lg => 2
    case Xl => 3
    case Xxl => 4
  }

  /** `getCurrentBreakpoint()`: the largest breakpoint from `md` up whose minimum the
      width reaches, and `sm` below 768. */
  function CurrentBreakpoint(width: int): (b: Breakpoint)
    ensures b != Sm ==> width >= MinWidth(b)
    ensures b == Sm <==> width < MinWidth(Md)
    ensures forall c: Breakpoint :: Rank(c) > Rank(b) ==> width < MinWidth(c)
  {
    if width >= MinWidth(Xxl) then Xxl
    else if width >= MinWidth(Xl) then Xl
    else if width >= MinWidth(Lg) then Lg
    else if width >= MinWidth(Md) then Md
    else Sm
  }

  /** A wider window never gets a smaller breakpoint. */
  lemma BreakpointMonotone(w1: int, w2: int)
    requires w1 <= w2
    ensures Rank(CurrentBreakpoint(w1)) <= Rank(CurrentBreakpoint(w2))
  {
  }

  predicate IsMobile(width: int) { width < MinWidth(Md) }
  predicate IsTablet(width: int) { MinWidth(Md) <= width < MinWidth(Lg) }
  predicate IsDesktop(width: int) { width >= MinWidth(Lg) }

  /** Exactly one flag holds for every width, and the flags agree with the breakpoint. */
  lemma FlagsPartitionWidths(width: int)
    ensures IsMobile(width) || IsTablet(width) || IsDesktop(width)
    ensures !(IsMobile(width) && IsTablet(width)) && !(IsMobile(width) && IsDesktop(width))
    ensures !(IsTablet(width) && IsDesktop(width))
    ensures IsMobile(width) <==> CurrentBreakpoint(width) == Sm
    ensures IsTablet(width) <==> CurrentBreakpoint(width) == Md
    ensures IsDesktop(width) <==> CurrentBreakpoint(width) in {Lg, Xl, Xxl}
  {
  }

  // ----- useKeyboardNavigation -----

  /** The index after key `key` is pressed. */
  function AfterKey(prev: int, key: string, itemCount: int): (r: int)
    ensures key == "Home" ==> r == 0
    ensures key == "End" ==> r == itemCount - 1
    ensures key !in {"ArrowUp", "ArrowDown", "Home", "End"} ==> r == prev
    ensures 1 <= itemCount && 0 <= prev < itemCount ==> 0 <= r < itemCount
  {
    if key == "ArrowUp" then (if prev > 0 then prev - 1 else itemCount - 1)
    else if key == "ArrowDown" then (if prev < itemCount - 1 then prev + 1 else 0)
    else if key == "Home" then 0
    else if key == "End" then itemCount - 1
    else prev
  }

  /** ArrowUp wraps from the first item to the last, ArrowDown from the last to the
      first. */
  lemma ArrowsWrap(itemCount: int)
    requires itemCount >= 1
    ensures AfterKey(0, "ArrowUp", itemCount) == itemCount - 1
    ensures AfterKey(itemCount - 1, "ArrowDown", itemCount) == 0
  {
  }

  /** ArrowDown then ArrowUp, and ArrowUp then ArrowDown, return to the same item. */
  lemma ArrowsUndoEachOther(i: int, itemCount: int)
    requires 0 <= i < itemCount
    ensures AfterKey(AfterKey(i, "ArrowDown", itemCount), "ArrowUp", itemCount) == i
    ensures AfterKey(AfterKey(i, "ArrowUp", itemCount), "ArrowDown", itemCount) == i
  {
  }

  /** The hook's `currentIndex` state. */
  class KeyboardNavigation {
    const itemCount: int
    var currentIndex: int

    constructor (itemCount: int, initialIndex: int)
      ensures this.itemCount == itemCount && currentIndex == initialIndex
    {
      this.itemCount := itemCount;
      currentIndex := initialIndex;
    }

    /** The `keydown` listener. */
    method HandleKeyDown(key: string)
      modifies this
      ensures currentIndex == AfterKey(old(currentIndex), key, itemCount)
      ensures 1 <= itemCount && 0 <= old(currentIndex) < itemCount ==> 0 <= currentIndex < itemCount
    {
      if key == "ArrowUp" {
        currentIndex := if currentIndex > 0 then currentIndex - 1 else itemCount - 1;
      } else if key == "ArrowDown" {
        currentIndex := if currentIndex < itemCount - 1 then currentIndex + 1 else 0;
      } else if key == "Home" {
        currentIndex := 0;
      } else if key == "End" {
        currentIndex := itemCount - 1;
      }
    }
  }
}
