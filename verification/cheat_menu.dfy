/**
 * The configuration menu: a draggable, scrollable panel listing categories in
 * insertion order, each with a header row that expands or collapses it and a
 * list of toggle rows. A click is dispatched to the first target containing the
 * pointer: the close button, the title bar, then headers and toggle rows from
 * top to bottom. Scrolling has a clamped velocity that decays every frame.
 */
module Gui {
  import opened Wrappers

  const WindowWidth: real := 250.0
  const WindowHeight: real := 400.0
  const TitleHeight: real := 25.0
  const CategoryHeight: real := 20.0
  const ToggleHeight: real := 18.0
  /** Space below every category section. */
  const SectionPadding: real := 5.0
  /** Horizontal inset of toggle rows from both window edges. */
  const ToggleInset: real := 10.0
  /** The close button is a square this big, this far left of the right edge and below the top. */
  const CloseButtonSize: real := 16.0
  const CloseButtonLeft: real := 20.0
  const CloseButtonTop: real := 3.0
  const ScrollSmoothing: real := 0.85
  const ScrollSpeed: real := 15.0
  const MaxScrollVelocity: real := 20.0
  /** Velocities no larger than this in magnitude snap to zero. */
  const ScrollRestThreshold: real := 0.1

  /** A toggle row. Its bound action is abstract: `hasAction` says whether one is
      bound and `runs` counts how often it has been invoked. */
  datatype Toggle = Toggle(name: string, enabled: bool, hasAction: bool, runs: nat)

  /** A category section: its header, expansion state, toggle rows and colour. */
  datatype Category = Category(name: string, expanded: bool, toggles: seq<Toggle>, colour: seq<int>)

  /** Clicking a toggle: its state flips and its bound action (if any) runs once. */
  function Flip(t: Toggle): (r: Toggle)
    ensures r.name == t.name && r.hasAction == t.hasAction
    ensures r.enabled == !t.enabled
    ensures r.runs == t.runs + (if t.hasAction then 1 else 0)
  {
    t.(enabled := !t.enabled, runs := if t.hasAction then t.runs + 1 else t.runs)
  }

  /** A fresh category section starts expanded with no toggles, so it is one header high. */
  function NewCategory(name: string, colour: seq<int>): (c: Category)
    ensures c.name == name && c.colour == colour
    ensures c.expanded && c.toggles == []
    ensures SectionHeight(c) == CategoryHeight
  {
    Category(name, true, [], colour)
  }

  /** Height of a section: its header, plus one row per toggle when expanded. */
  function SectionHeight(c: Category): (h: real)
    ensures h >= CategoryHeight
    ensures c.expanded ==> h == CategoryHeight + ToggleHeight * |c.toggles| as real
    ensures !c.expanded ==> h == CategoryHeight
  {
    var height := CategoryHeight;
    if c.expanded then height + (|c.toggles| as real) * ToggleHeight else height
  }

  /** Total height of a run of sections, each followed by its padding. */
  function SectionsHeight(cats: seq<Category>): (h: real)
    ensures h >= (CategoryHeight + SectionPadding) * |cats| as real
  {
    if |cats| == 0 then 0.0
    else SectionsHeight(cats[..|cats| - 1]) + SectionHeight(cats[|cats| - 1]) + SectionPadding
  }

  /** The height of the whole scrollable content: the title bar plus every section. */
  function ContentHeight(cats: seq<Category>): real
  {
    TitleHeight + SectionsHeight(cats)
  }

  /** Replacing one section changes the total by the difference of the two section heights. */
  lemma {:induction false} SectionsHeightUpdate(cats: seq<Category>, k: nat, c: Category)
    requires k < |cats|
    ensures SectionsHeight(cats[k := c]) == SectionsHeight(cats) - SectionHeight(cats[k]) + SectionHeight(c)
  {
    var n := |cats|;
    var u := cats[k := c];
    if k == n - 1 {
      assert u[..n - 1] == cats[..n - 1];
    } else {
      assert u[..n - 1] == cats[..n - 1][k := c];
      SectionsHeightUpdate(cats[..n - 1], k, c);
    }
  }

  /** Appending a section adds its height and its padding. */
  lemma SectionsHeightAppend(cats: seq<Category>, c: Category)
    ensures SectionsHeight(cats + [c]) == SectionsHeight(cats) + SectionHeight(c) + SectionPadding
  {
    assert (cats + [c])[..|cats|] == cats;
  }

  predicate NamesDistinct(cats: seq<Category>)
  {
    forall i, j :: 0 <= i < j < |cats| ==> cats[i].name != cats[j].name
  }

  /** Position of the section with this name, if any (the first one). */
  function IndexOf(cats: seq<Category>, name: string): (r: Option<nat>)
    ensures r.Some? ==> r.value < |cats| && cats[r.value].name == name
    ensures r.Some? ==> forall j :: 0 <= j < r.value ==> cats[j].name != name
    ensures r.None? ==> forall j :: 0 <= j < |cats| ==> cats[j].name != name
  {
    if |cats| == 0 then None
    else if cats[0].name == name then Some(0)
    else match IndexOf(cats[1..], name)
      case None => None
      case Some(j) => Some(j + 1)
  }

  /** With distinct names, looking up a section's name finds that section. */
  lemma IndexOfDistinct(cats: seq<Category>, k: nat)
    requires NamesDistinct(cats) && k < |cats|
    ensures IndexOf(cats, cats[k].name) == Some(k)
  {
  }

  /** Insertion into the ordered name -> section map: a section whose name is
      already present replaces it in place, keeping its position; otherwise the
      section is appended. Other sections are untouched and names stay distinct. */
  function Put(cats: seq<Category>, c: Category): (r: seq<Category>)
    requires NamesDistinct(cats)
    ensures NamesDistinct(r)
    ensures |r| == |cats| + (if IndexOf(cats, c.name).Some? then 0 else 1)
    ensures IndexOf(r, c.name).Some? && r[IndexOf(r, c.name).value] == c
    ensures IndexOf(cats, c.name).Some? ==> IndexOf(r, c.name) == IndexOf(cats, c.name)
    ensures forall j :: 0 <= j < |cats| && cats[j].name != c.name ==> r[j] == cats[j]
  {
    match IndexOf(cats, c.name)
    case Some(k) =>
      var r := cats[k := c];
      IndexOfDistinct(r, k);
      r
    case None =>
      var r := cats + [c];
      IndexOfDistinct(r, |cats|);
      r
  }

  /** How a put changes the content height: a new section adds its height and
      padding; a replacement adds the difference of the two heights. */
  lemma PutContentHeight(cats: seq<Category>, c: Category)
    requires NamesDistinct(cats)
    ensures IndexOf(cats, c.name).None? ==>
      ContentHeight(Put(cats, c)) == ContentHeight(cats) + SectionHeight(c) + SectionPadding
    ensures IndexOf(cats, c.name).Some? ==>
      ContentHeight(Put(cats, c)) == ContentHeight(cats) - SectionHeight(cats[IndexOf(cats, c.name).value]) + SectionHeight(c)
  {
    match IndexOf(cats, c.name)
    case Some(k) => SectionsHeightUpdate(cats, k, c);
    case None => SectionsHeightAppend(cats, c);
  }

  /** The section with this name, if any. */
  function FindCategory(cats: seq<Category>, name: string): (r: Option<Category>)
    ensures r.Some? ==> r.value in cats && r.value.name == name
    ensures r.None? ==> forall c :: c in cats ==> c.name != name
  {
    match IndexOf(cats, name)
    case Some(k) => Some(cats[k])
    case None => None
  }

  /** Clicking header k: that section expands or collapses and nothing else changes.
      The content height moves by one row per toggle of that section. */
  function ToggleExpanded(cats: seq<Category>, k: nat): (r: seq<Category>)
    requires k < |cats|
    ensures |r| == |cats| && forall j :: 0 <= j < |cats| && j != k ==> r[j] == cats[j]
    ensures r[k] == cats[k].(expanded := !cats[k].expanded)
    ensures NamesDistinct(cats) ==> NamesDistinct(r)
    ensures ContentHeight(r) == ContentHeight(cats) +
      (if cats[k].expanded then -1.0 else 1.0) * ToggleHeight * |cats[k].toggles| as real
  {
    var r := cats[k := cats[k].(expanded := !cats[k].expanded)];
    SectionsHeightUpdate(cats, k, r[k]);
    r
  }

  /** Clicking toggle row i of section k: exactly that toggle flips; every other
      toggle and section, and the content height, stay as they were. */
  function FlipToggle(cats: seq<Category>, k: nat, i: nat): (r: seq<Category>)
    requires k < |cats| && i < |cats[k].toggles|
    ensures |r| == |cats| && forall j :: 0 <= j < |cats| && j != k ==> r[j] == cats[j]
    ensures r[k].name == cats[k].name && r[k].expanded == cats[k].expanded && r[k].colour == cats[k].colour
    ensures |r[k].toggles| == |cats[k].toggles|
    ensures forall m :: 0 <= m < |cats[k].toggles| && m != i ==> r[k].toggles[m] == cats[k].toggles[m]
    ensures r[k].toggles[i] == Flip(cats[k].toggles[i])
    ensures NamesDistinct(cats) ==> NamesDistinct(r)
    ensures ContentHeight(r) == ContentHeight(cats)
  {
    var c := cats[k];
    var r := cats[k := c.(toggles := c.toggles[i := Flip(c.toggles[i])])];
    SectionsHeightUpdate(cats, k, r[k]);
    r
  }

  /** Adding a toggle to section k: the row is appended to that section only; the
      content height grows by one row if the section is expanded. */
  function AddToggle(cats: seq<Category>, k: nat, t: Toggle): (r: seq<Category>)
    requires k < |cats|
    ensures |r| == |cats| && forall j :: 0 <= j < |cats| && j != k ==> r[j] == cats[j]
    ensures r[k] == cats[k].(toggles := cats[k].toggles + [t])
    ensures NamesDistinct(cats) ==> NamesDistinct(r)
    ensures ContentHeight(r) == ContentHeight(cats) + (if cats[k].expanded then ToggleHeight else 0.0)
  {
    var r := cats[k := cats[k].(toggles := cats[k].toggles + [t])];
    SectionsHeightUpdate(cats, k, r[k]);
    r
  }

  function Names(cats: seq<Category>): seq<string>
  {
    seq(|cats|, k requires 0 <= k < |cats| => cats[k].name)
  }

  function ToggleCounts(cats: seq<Category>): seq<nat>
  {
    seq(|cats|, k requires 0 <= k < |cats| => |cats[k].toggles|)
  }

  /** An initial toggle: off, with its (console-printing) action bound. */
  function Off(name: string): Toggle
  {
    Toggle(name, false, true, 0)
  }

  /** The six default sections. */
  function InitialCategories(): seq<Category>
  {
    [ Category("Movement", true, [Off("Flight"), Off("Speed"), Off("NoClip"), Off("Glide")], [0x3A, 0x9E, 0xD5]),
      Category("Combat", true, [Off("KillAura"), Off("Reach"), Off("AutoClicker")], [0xE7, 0x4C, 0x3C]),
      Category("Utility", true, [Off("FullBright"), Off("FreeCam"), Off("AutoEat"), Off("AutoFish")], [0x2E, 0xCC, 0x71]),
      Category("Render", true, [Off("ESP"), Off("Tracers"), Off("Chams")], [0xF3, 0x9C, 0x12]),
      Category("World", true, [Off("FastBreak"), Off("InfiniteBlocks")], [0x95, 0x4A, 0x28]),
      Category("Player", true, [Off("God Mode"), Off("InfiniteJump")], [0x8E, 0x44, 0xAD]) ]
  }

  /** The default menu: six sections in this order with 4, 3, 4, 3, 2 and 2
      toggles, all expanded, every toggle off. */
  lemma InitialMenuContents()
    ensures Names(InitialCategories()) == ["Movement", "Combat", "Utility", "Render", "World", "Player"]
    ensures ToggleCounts(InitialCategories()) == [4, 3, 4, 3, 2, 2]
    ensures NamesDistinct(InitialCategories())
    ensures forall c :: c in InitialCategories() ==> c.expanded && forall t :: t in c.toggles ==> !t.enabled
  {
  }

  /** The default layout: the sixth section starts 413 below the content top,
      and the content height is 25 + 97 + 79 + 97 + 79 + 61 + 61 = 499. */
  lemma InitialSectionOffsets()
    ensures SectionsHeight(InitialCategories()[..5]) == 413.0
    ensures ContentHeight(InitialCategories()) == 499.0
  {
    var cats := InitialCategories();
    assert SectionHeight(cats[0]) == 92.0 && SectionHeight(cats[1]) == 74.0 && SectionHeight(cats[2]) == 92.0;
    assert SectionHeight(cats[3]) == 74.0 && SectionHeight(cats[4]) == 56.0 && SectionHeight(cats[5]) == 56.0;
    assert cats[..1][..0] == [] && cats[..2][..1] == cats[..1] && cats[..3][..2] == cats[..2];
    assert cats[..4][..3] == cats[..3] && cats[..5][..4] == cats[..4] && cats[..6][..5] == cats[..5];
    assert cats[..6] == cats;
    assert SectionsHeight(cats[..1]) == 97.0;
    assert SectionsHeight(cats[..2]) == 176.0;
    assert SectionsHeight(cats[..3]) == 273.0;
    assert SectionsHeight(cats[..4]) == 352.0;
  }

  /** Where the window is and how far its content is scrolled. */
  datatype Frame = Frame(x: real, y: real, scroll: real)

  /** Top edge of header k: the content starts below the title bar, shifted up by
      the scroll offset, and each earlier section takes its height and padding. */
  function HeaderTop(cats: seq<Category>, fr: Frame, k: nat): real
    requires k <= |cats|
  {
    fr.y + TitleHeight - fr.scroll + SectionsHeight(cats[..k])
  }

  /** The pointer is on header k (any button may hit it). */
  predicate OnHeader(cats: seq<Category>, fr: Frame, k: nat, mx: real, my: real)
    requires k < |cats|
  {
    fr.x <= mx <= fr.x + WindowWidth &&
    HeaderTop(cats, fr, k) <= my <= HeaderTop(cats, fr, k) + CategoryHeight
  }

  /** A left click on toggle row i of section k; rows of a collapsed section do not exist. */
  predicate OnToggle(cats: seq<Category>, fr: Frame, k: nat, i: int, mx: real, my: real, button: int)
    requires k < |cats|
  {
    var top := HeaderTop(cats, fr, k) + CategoryHeight + ToggleHeight * i as real;
    cats[k].expanded && 0 <= i < |cats[k].toggles| && button == 0 &&
    fr.x + ToggleInset <= mx <= fr.x + WindowWidth - ToggleInset &&
    top <= my <= top + ToggleHeight
  }

  /** The click hits neither header k nor any of its toggle rows. */
  predicate MissesSection(cats: seq<Category>, fr: Frame, k: nat, mx: real, my: real, button: int)
    requires k < |cats|
  {
    !OnHeader(cats, fr, k, mx, my) &&
    forall i :: 0 <= i < |cats[k].toggles| ==> !OnToggle(cats, fr, k, i, mx, my, button)
  }

  /** The click hits nothing in the first n sections. */
  predicate MissesBefore(cats: seq<Category>, fr: Frame, n: nat, mx: real, my: real, button: int)
    requires n <= |cats|
  {
    forall k :: 0 <= k < n ==> MissesSection(cats, fr, k, mx, my, button)
  }

  /** A row of the content area a click can land on. */
  datatype Hit = NoHit | HeaderHit(k: nat) | ToggleHit(k: nat, i: nat)

  /** `hit` is the first row, top to bottom, that the click lands on. */
  predicate IsFirstHit(cats: seq<Category>, fr: Frame, mx: real, my: real, button: int, hit: Hit)
  {
    match hit
    case NoHit => MissesBefore(cats, fr, |cats|, mx, my, button)
    case HeaderHit(k) =>
      k < |cats| && MissesBefore(cats, fr, k, mx, my, button) && OnHeader(cats, fr, k, mx, my)
    case ToggleHit(k, i) =>
      k < |cats| && MissesBefore(cats, fr, k, mx, my, button) && !OnHeader(cats, fr, k, mx, my) &&
      (forall j :: 0 <= j < i ==> !OnToggle(cats, fr, k, j, mx, my, button)) &&
      OnToggle(cats, fr, k, i, mx, my, button)
  }

  /** A click lands on at most one row: the first hit is unique. */
  lemma FirstHitUnique(cats: seq<Category>, fr: Frame, mx: real, my: real, button: int, h1: Hit, h2: Hit)
    requires IsFirstHit(cats, fr, mx, my, button, h1) && IsFirstHit(cats, fr, mx, my, button, h2)
    ensures h1 == h2
  {
    if !h1.NoHit? {
      assert !MissesSection(cats, fr, h1.k, mx, my, button);
    }
    if !h2.NoHit? {
      assert !MissesSection(cats, fr, h2.k, mx, my, button);
    }
  }

  /** A click below the bottom of section k misses its header and every row. */
  lemma MissesBelowSection(cats: seq<Category>, fr: Frame, k: nat, mx: real, my: real, button: int)
    requires k < |cats| && my > HeaderTop(cats, fr, k) + SectionHeight(cats[k])
    ensures MissesSection(cats, fr, k, mx, my, button)
  {
    forall i | 0 <= i < |cats[k].toggles|
      ensures !OnToggle(cats, fr, k, i, mx, my, button)
    {
      if cats[k].expanded {
        assert ToggleHeight * i as real + ToggleHeight <= ToggleHeight * |cats[k].toggles| as real;
      }
    }
  }

  /** A click below the padding under section n - 1 misses all of the first n sections. */
  lemma {:induction false} MissesAbove(cats: seq<Category>, fr: Frame, n: nat, mx: real, my: real, button: int)
    requires n <= |cats| && my > HeaderTop(cats, fr, n) - SectionPadding
    ensures MissesBefore(cats, fr, n, mx, my, button)
  {
    if n > 0 {
      assert cats[..n][..n - 1] == cats[..n - 1];
      MissesAbove(cats, fr, n - 1, mx, my, button);
      MissesBelowSection(cats, fr, n - 1, mx, my, button);
    }
  }

  /** As the menu dispatches clicks, rows clipped from view still take them:
      with the default menu at (20, 20), a click at (120, 500), 80 below the
      window's bottom edge, lands on the second toggle of the sixth section. */
  lemma ClippedRowClickAsWritten()
    ensures !InWindow(20.0, 20.0, 120.0, 500.0)
    ensures IsFirstHit(InitialCategories(), Frame(20.0, 20.0, 0.0), 120.0, 500.0, 0, ToggleHit(5, 1))
  {
    InitialSectionOffsets();
    MissesAbove(InitialCategories(), Frame(20.0, 20.0, 0.0), 5, 120.0, 500.0, 0);
  }

  /** The header-and-toggle part of click dispatch: walks the sections with a
      vertical cursor, as rendering lays them out, and returns the first row the
      click lands on. */
  method FindContentHit(cats: seq<Category>, fr: Frame, mx: real, my: real, button: int) returns (hit: Hit)
    ensures IsFirstHit(cats, fr, mx, my, button, hit)
    ensures hit.ToggleHit? ==> hit.k < |cats| && cats[hit.k].expanded && button == 0
  {
    var currentY := fr.y + TitleHeight - fr.scroll;
    var k := 0;
    while k < |cats|
      invariant 0 <= k <= |cats|
      invariant currentY == HeaderTop(cats, fr, k)
      invariant MissesBefore(cats, fr, k, mx, my, button)
    {
      var category := cats[k];
      if fr.x <= mx <= fr.x + WindowWidth && currentY <= my <= currentY + CategoryHeight {
        return HeaderHit(k);
      }
      currentY := currentY + CategoryHeight;
      if category.expanded {
        var i := 0;
        while i < |category.toggles|
          invariant 0 <= i <= |category.toggles|
          invariant currentY == HeaderTop(cats, fr, k) + CategoryHeight + ToggleHeight * i as real
          invariant forall j :: 0 <= j < i ==> !OnToggle(cats, fr, k, j, mx, my, button)
        {
          if fr.x + ToggleInset <= mx <= fr.x + WindowWidth - ToggleInset &&
             currentY <= my <= currentY + ToggleHeight && button == 0 {
            return ToggleHit(k, i);
          }
          currentY := currentY + ToggleHeight;
          i := i + 1;
        }
      }
      currentY := currentY + SectionPadding;
      assert cats[..k + 1][..k] == cats[..k];
      k := k + 1;
    }
    return NoHit;
  }

  /** The close button square in the top-right corner. It shares with the title
      bar only the column at the title bar's right edge. */
  predicate InCloseButton(windowX: real, windowY: real, mx: real, my: real): (inside: bool)
    ensures inside && InTitleBar(windowX, windowY, mx, my) ==> mx == windowX + WindowWidth - CloseButtonLeft
  {
    var closeX := windowX + WindowWidth - CloseButtonLeft;
    var closeY := windowY + CloseButtonTop;
    closeX <= mx <= closeX + CloseButtonSize && closeY <= my <= closeY + CloseButtonSize
  }

  /** The title bar, left of the close button's column. It meets the visible
      content only along its bottom edge. */
  predicate InTitleBar(windowX: real, windowY: real, mx: real, my: real): (inside: bool)
    ensures inside && InContentArea(windowX, windowY, mx, my) ==> my == windowY + TitleHeight
  {
    windowX <= mx <= windowX + WindowWidth - CloseButtonLeft && windowY <= my <= windowY + TitleHeight
  }

  /** The whole window; the close button, the title bar and the visible content lie inside it. */
  predicate InWindow(windowX: real, windowY: real, mx: real, my: real): (inside: bool)
    ensures InCloseButton(windowX, windowY, mx, my) ==> inside
    ensures InTitleBar(windowX, windowY, mx, my) ==> inside
    ensures InContentArea(windowX, windowY, mx, my) ==> inside
  {
    windowX <= mx <= windowX + WindowWidth && windowY <= my <= windowY + WindowHeight
  }

  /** The visible part of the content: below the title bar and inside the window.
      This is the clip rectangle the render pass requests before drawing the rows
      (the clipping call itself is a graphics placeholder here). */
  predicate InContentArea(windowX: real, windowY: real, mx: real, my: real)
  {
    windowX <= mx <= windowX + WindowWidth && windowY + TitleHeight <= my <= windowY + WindowHeight
  }

  /** max(-20, min(20, v)): within the velocity bound, and v itself when already within it. */
  function ClampVelocity(v: real): (r: real)
    ensures -MaxScrollVelocity <= r <= MaxScrollVelocity
    ensures -MaxScrollVelocity <= v <= MaxScrollVelocity ==> r == v
    ensures v > MaxScrollVelocity ==> r == MaxScrollVelocity
    ensures v < -MaxScrollVelocity ==> r == -MaxScrollVelocity
  {
    var upper := if MaxScrollVelocity <= v then MaxScrollVelocity else v;
    if upper <= -MaxScrollVelocity then -MaxScrollVelocity else upper
  }

  /** How far the content can scroll: its overflow beyond the window, if any. */
  function MaxScroll(contentHeight: real): (m: real)
    ensures m >= 0.0 && m >= contentHeight - WindowHeight
    ensures m == 0.0 || m == contentHeight - WindowHeight
  {
    if contentHeight - WindowHeight >= 0.0 then contentHeight - WindowHeight else 0.0
  }

  /** max(0, min(offset, maxScroll)): within [0, maxScroll], and the offset itself when already within. */
  function ClampScroll(offset: real, contentHeight: real): (r: real)
    ensures 0.0 <= r <= MaxScroll(contentHeight)
    ensures 0.0 <= offset <= MaxScroll(contentHeight) ==> r == offset
    ensures offset < 0.0 ==> r == 0.0
    ensures offset > MaxScroll(contentHeight) ==> r == MaxScroll(contentHeight)
  {
    var upper := if offset <= MaxScroll(contentHeight) then offset else MaxScroll(contentHeight);
    if upper >= 0.0 then upper else 0.0
  }

  function Abs(x: real): real { if x < 0.0 then -x else x }

  /** Every field of the menu at once. */
  datatype MenuState = MenuState(
    windowX: real, windowY: real,
    isDragging: bool, dragOffsetX: real, dragOffsetY: real,
    scrollOffset: real, scrollVelocity: real,
    isVisible: bool, categories: seq<Category>, contentHeight: real)

  /** Where a click went: nowhere (menu hidden), the close button, the title bar,
      outside the visible content (clipped), or the content area (possibly no row). */
  datatype Click = Hidden | CloseButton | TitleBar | Clipped | Content(hit: Hit)

  class CheatMenu {
    var windowX: real
    var windowY: real
    var isDragging: bool
    var dragOffsetX: real
    var dragOffsetY: real
    var scrollOffset: real
    var scrollVelocity: real
    var isVisible: bool
    var categories: seq<Category>
    var contentHeight: real

    /** Section names are keys of an ordered map, so distinct; the cached content
        height always matches the sections; the offset is never negative and the
        velocity never exceeds its bound. */
    ghost predicate Valid()
      reads this
    {
      && NamesDistinct(categories)
      && contentHeight == ContentHeight(categories)
      && 0.0 <= scrollOffset
      && -MaxScrollVelocity <= scrollVelocity <= MaxScrollVelocity
    }

    function State(): MenuState
      reads this
    {
      MenuState(windowX, windowY, isDragging, dragOffsetX, dragOffsetY,
                scrollOffset, scrollVelocity, isVisible, categories, contentHeight)
    }

    /** A visible menu at (20, 20) holding the six default sections. */
    constructor ()
      ensures Valid()
      ensures State() == MenuState(20.0, 20.0, false, 0.0, 0.0, 0.0, 0.0, true, InitialCategories(), 499.0)
    {
      windowX := 20.0;
      windowY := 20.0;
      isDragging := false;
      dragOffsetX, dragOffsetY := 0.0, 0.0;
      scrollOffset, scrollVelocity := 0.0, 0.0;
      isVisible := true;
      categories := [];
      contentHeight := 0.0;
      new;
      InitializeCategories();
    }

    /** Fills the sections with the six defaults and recomputes the content height. */
    method InitializeCategories()
      modifies this`categories, this`contentHeight
      ensures categories == InitialCategories() && contentHeight == 499.0
      ensures NamesDistinct(categories) && contentHeight == ContentHeight(categories)
    {
      categories := InitialCategories();
      CalculateContentHeight();
      InitialMenuContents();
      InitialSectionOffsets();
    }

    /** The title bar plus every section and its padding. */
    method CalculateContentHeight()
      modifies this`contentHeight
      ensures contentHeight == ContentHeight(categories)
    {
      contentHeight := TitleHeight;
      var k := 0;
      while k < |categories|
        invariant 0 <= k <= |categories|
        invariant contentHeight == TitleHeight + SectionsHeight(categories[..k])
      {
        assert categories[..k + 1][..k] == categories[..k];
        contentHeight := contentHeight + SectionHeight(categories[k]) + SectionPadding;
        k := k + 1;
      }
      assert categories[..k] == categories;
    }

    /** Click dispatch, first match wins. A hidden menu ignores clicks. A left click
        on the close button only hides the menu; one on the title bar only starts a
        drag, remembering the pointer's offset from the window origin. Otherwise
        a click outside the visible content area changes nothing; inside it, the
        first row under the pointer is hit: a header expands or collapses its
        section on a left click (other buttons are swallowed), a toggle row flips
        that one toggle and runs its action once; nothing else changes. */
    method HandleMouseClick(mx: real, my: real, button: int) returns (ghost click: Click)
      requires Valid()
      modifies this
      ensures Valid()
      ensures !old(isVisible) ==> click == Hidden
      ensures old(isVisible) && button == 0 && InCloseButton(old(windowX), old(windowY), mx, my) ==> click == CloseButton
      ensures (old(isVisible) && button == 0 && !InCloseButton(old(windowX), old(windowY), mx, my)
               && InTitleBar(old(windowX), old(windowY), mx, my)) ==> click == TitleBar
      ensures (old(isVisible) && !(button == 0 && InCloseButton(old(windowX), old(windowY), mx, my))
               && !(button == 0 && InTitleBar(old(windowX), old(windowY), mx, my))) ==>
              if InContentArea(old(windowX), old(windowY), mx, my) then click.Content? &&
              IsFirstHit(old(categories), Frame(old(windowX), old(windowY), old(scrollOffset)), mx, my, button, click.hit)
              else click == Clipped
      ensures categories != old(categories) ==> InContentArea(old(windowX), old(windowY), mx, my)
      ensures match click
        case Hidden => State() == old(State())
        case CloseButton => State() == old(State()).(isVisible := false)
        case TitleBar => State() == old(State()).(isDragging := true,
                           dragOffsetX := mx - old(windowX), dragOffsetY := my - old(windowY))
        case Clipped => State() == old(State())
        case Content(NoHit) => State() == old(State())
        case Content(HeaderHit(k)) =>
          k < |old(categories)| &&
          State() == if button == 0
                     then old(State()).(categories := ToggleExpanded(old(categories), k),
                                        contentHeight := ContentHeight(ToggleExpanded(old(categories), k)))
                     else old(State())
        case Content(ToggleHit(k, i)) =>
          k < |old(categories)| && i < |old(categories)[k].toggles| &&
          State() == old(State()).(categories := FlipToggle(old(categories), k, i))
    {
      if !isVisible {
        return Hidden;
      }
      if InCloseButton(windowX, windowY, mx, my) && button == 0 {
        isVisible := false;
        return CloseButton;
      }
      if InTitleBar(windowX, windowY, mx, my) && button == 0 {
        isDragging := true;
        dragOffsetX := mx - windowX;
        dragOffsetY := my - windowY;
        return TitleBar;
      }
      if !InContentArea(windowX, windowY, mx, my) {
        return Clipped;
      }
      var hit := ClickContent(mx, my, button);
      click := Content(hit);
    }

    /** The content part of click dispatch: the first row under the pointer takes
        the click. A header flips its section's expansion on a left click; a toggle
        row flips that toggle; no hit changes nothing. */
    method ClickContent(mx: real, my: real, button: int) returns (hit: Hit)
      requires Valid()
      modifies this`categories, this`contentHeight
      ensures Valid()
      ensures IsFirstHit(old(categories), Frame(windowX, windowY, scrollOffset), mx, my, button, hit)
      ensures match hit
        case NoHit => categories == old(categories)
        case HeaderHit(k) =>
          k < |old(categories)| &&
          categories == if button == 0 then ToggleExpanded(old(categories), k) else old(categories)
        case ToggleHit(k, i) =>
          k < |old(categories)| && i < |old(categories)[k].toggles| &&
          categories == FlipToggle(old(categories), k, i)
    {
      hit := FindContentHit(categories, Frame(windowX, windowY, scrollOffset), mx, my, button);
      match hit
      case NoHit =>
      case HeaderHit(k) =>
        if button == 0 {
          categories := ToggleExpanded(categories, k);
          CalculateContentHeight();
        }
      case ToggleHit(k, i) =>
        categories := FlipToggle(categories, k, i);
    }

    /** While dragging a visible menu, the window follows the pointer at the
        remembered offset; otherwise nothing changes. */
    method HandleMouseDrag(mx: real, my: real)
      requires Valid()
      modifies this`windowX, this`windowY
      ensures Valid()
      ensures old(isDragging) && old(isVisible) ==>
        State() == old(State()).(windowX := mx - old(dragOffsetX), windowY := my - old(dragOffsetY))
      ensures !(old(isDragging) && old(isVisible)) ==> State() == old(State())
    {
      if isDragging && isVisible {
        windowX := mx - dragOffsetX;
        windowY := my - dragOffsetY;
      }
    }

    /** Releasing the left button ends a drag; other buttons change nothing. */
    method HandleMouseRelease(button: int)
      requires Valid()
      modifies this`isDragging
      ensures Valid()
      ensures State() == if button == 0 then old(State()).(isDragging := false) else old(State())
    {
      if button == 0 {
        isDragging := false;
      }
    }

    /** Wheel input over a visible menu adds to the scroll velocity, clamped to
        [-20, 20]; elsewhere, or when hidden, nothing changes. The pointer position
        is a parameter here. */
    method HandleScroll(scrollAmount: real, mx: real, my: real)
      requires Valid()
      modifies this`scrollVelocity
      ensures Valid()
      ensures old(isVisible) && InWindow(old(windowX), old(windowY), mx, my) ==>
        State() == old(State()).(scrollVelocity := ClampVelocity(old(scrollVelocity) + scrollAmount * ScrollSpeed))
      ensures !(old(isVisible) && InWindow(old(windowX), old(windowY), mx, my)) ==> State() == old(State())
    {
      if !isVisible {
        return;
      }
      if InWindow(windowX, windowY, mx, my) {
        scrollVelocity := ClampVelocity(scrollVelocity + scrollAmount * ScrollSpeed);
      }
    }

    /** Wheel input as written: the pointer position comes from placeholders
        that always report the screen origin, so the input is applied only when
        a visible window covers the origin, and lost whenever the window lies
        right of or below the origin (as it does by default). */
    method HandleScrollAsWritten(scrollAmount: real)
      requires Valid()
      modifies this`scrollVelocity
      ensures Valid()
      ensures State() ==
        if old(isVisible) && InWindow(old(windowX), old(windowY), 0.0, 0.0)
        then old(State()).(scrollVelocity := ClampVelocity(old(scrollVelocity) + scrollAmount * ScrollSpeed))
        else old(State())
      ensures old(windowX) > 0.0 || old(windowY) > 0.0 ==> State() == old(State())
    {
      HandleScroll(scrollAmount, 0.0, 0.0);
    }

    /** One frame of inertial scrolling. A velocity above 0.1 in magnitude moves
        the offset and decays by 0.85; a smaller one snaps to zero. The offset then
        lies in [0, max(0, contentHeight - 400)], and the velocity never grows. */
    method UpdateScrolling()
      requires Valid()
      modifies this`scrollOffset, this`scrollVelocity
      ensures Valid()
      ensures 0.0 <= scrollOffset <= MaxScroll(contentHeight)
      ensures Abs(scrollVelocity) <= Abs(old(scrollVelocity))
      ensures Abs(old(scrollVelocity)) > ScrollRestThreshold ==>
        State() == old(State()).(scrollOffset := ClampScroll(old(scrollOffset) + old(scrollVelocity), contentHeight),
                                 scrollVelocity := old(scrollVelocity) * ScrollSmoothing)
      ensures Abs(old(scrollVelocity)) <= ScrollRestThreshold ==>
        State() == old(State()).(scrollOffset := ClampScroll(old(scrollOffset), contentHeight), scrollVelocity := 0.0)
    {
      if Abs(scrollVelocity) > ScrollRestThreshold {
        scrollOffset := scrollOffset + scrollVelocity;
        scrollVelocity := scrollVelocity * ScrollSmoothing;
      } else {
        scrollVelocity := 0.0;
      }
      scrollOffset := ClampScroll(scrollOffset, contentHeight);
    }

    /** The model of a frame's render: a visible menu advances its scrolling (the
        drawing itself is not modelled); a hidden one does nothing. */
    method Render()
      requires Valid()
      modifies this`scrollOffset, this`scrollVelocity
      ensures Valid()
      ensures !old(isVisible) ==> State() == old(State())
      ensures old(isVisible) ==> 0.0 <= scrollOffset <= MaxScroll(contentHeight)
      ensures old(isVisible) && Abs(old(scrollVelocity)) > ScrollRestThreshold ==>
        State() == old(State()).(scrollOffset := ClampScroll(old(scrollOffset) + old(scrollVelocity), contentHeight),
                                 scrollVelocity := old(scrollVelocity) * ScrollSmoothing)
      ensures old(isVisible) && Abs(old(scrollVelocity)) <= ScrollRestThreshold ==>
        State() == old(State()).(scrollOffset := ClampScroll(old(scrollOffset), contentHeight), scrollVelocity := 0.0)
    {
      if !isVisible {
        return;
      }
      UpdateScrolling();
    }

    method SetVisible(visible: bool)
      requires Valid()
      modifies this`isVisible
      ensures Valid()
      ensures State() == old(State()).(isVisible := visible)
    {
      isVisible := visible;
    }

    method SetWindowPosition(x: real, y: real)
      requires Valid()
      modifies this`windowX, this`windowY
      ensures Valid()
      ensures State() == old(State()).(windowX := x, windowY := y)
    {
      windowX := x;
      windowY := y;
    }

    /** Puts a fresh, expanded, empty section under this name (replacing one of the
        same name in place) and recomputes the content height, which grows by 25 for
        a new name. */
    method AddCategory(name: string, colour: seq<int>)
      requires Valid()
      modifies this`categories, this`contentHeight
      ensures Valid()
      ensures State() == old(State()).(categories := Put(old(categories), NewCategory(name, colour)),
                                       contentHeight := ContentHeight(Put(old(categories), NewCategory(name, colour))))
      ensures IndexOf(old(categories), name).None? ==>
        contentHeight == old(contentHeight) + CategoryHeight + SectionPadding
    {
      PutContentHeight(categories, NewCategory(name, colour));
      categories := Put(categories, NewCategory(name, colour));
      CalculateContentHeight();
    }

    /** Appends a toggle to the named section and recomputes the content height
        (one more row if that section is expanded); an unknown name changes nothing. */
    method AddToggleToCategory(name: string, toggle: Toggle)
      requires Valid()
      modifies this`categories, this`contentHeight
      ensures Valid()
      ensures IndexOf(old(categories), name).None? ==> State() == old(State())
      ensures IndexOf(old(categories), name).Some? ==>
        var k := IndexOf(old(categories), name).value;
        && State() == old(State()).(categories := AddToggle(old(categories), k, toggle),
                                    contentHeight := ContentHeight(AddToggle(old(categories), k, toggle)))
        && contentHeight == old(contentHeight) + (if old(categories)[k].expanded then ToggleHeight else 0.0)
    {
      match IndexOf(categories, name)
      case None =>
      case Some(k) =>
        categories := AddToggle(categories, k, toggle);
        CalculateContentHeight();
    }

    /** The section with this name, if any. */
    function GetCategory(name: string): (section: Option<Category>)
      reads this
      ensures section.Some? ==> section.value in categories && section.value.name == name
      ensures section.None? ==> forall c :: c in categories ==> c.name != name
    {
      FindCategory(categories, name)
    }
  }
}
