/** The mobile pill header: a menu that opens and closes, a header that shows
    itself once the page is scrolled far enough (but not while the menu is
    open), and the page's body scrolling locked while the menu is open. Each
    scroll call is one the throttle lets through. Scroll positions are whole
    pixels. */
module MobilePillHeader {

  /** The scroll depth past which the header shows. */
  const ShowThreshold := 120

  /** The body's `overflow` style for a menu state. */
  function OverflowFor(menuOpen: bool): string {
    if menuOpen then "hidden" else ""
  }

  /** The toggle's `aria-label`. */
  function ToggleLabel(menuOpen: bool): (text: string)
    ensures text == "Close menu" <==> menuOpen
    ensures text == "Open menu" <==> !menuOpen
  {
    if menuOpen then "Close menu" else "Open menu"
  }

  /** One scroll callback: ignored before mount (no listener yet) and while the
      menu is open; otherwise the header shows exactly past the threshold. */
  function ShowAfterScroll(mounted: bool, menuOpen: bool, showHeader: bool, y: int): (r: bool)
    ensures !mounted || menuOpen ==> r == showHeader
    ensures mounted && !menuOpen ==> (r <==> y > ShowThreshold)
  {
    if !mounted || menuOpen then showHeader else y > ShowThreshold
  }

  /** A run of scroll callbacks in one menu state. */
  function ShowAfterScrolls(mounted: bool, menuOpen: bool, showHeader: bool, ys: seq<int>): bool
    decreases |ys|
  {
    if ys == [] then showHeader
    else ShowAfterScrolls(mounted, menuOpen, ShowAfterScroll(mounted, menuOpen, showHeader, ys[0]), ys[1..])
  }

  /** However the page scrolls while the menu is open, the header keeps its
      state; with the menu closed only the last position counts. */
  lemma {:induction false} ScrollRun(mounted: bool, menuOpen: bool, showHeader: bool, ys: seq<int>)
    ensures !mounted || menuOpen ==> ShowAfterScrolls(mounted, menuOpen, showHeader, ys) == showHeader
    ensures mounted && !menuOpen && ys != [] ==>
              (ShowAfterScrolls(mounted, menuOpen, showHeader, ys) <==> ys[|ys| - 1] > ShowThreshold)
    decreases |ys|
  {
    if ys != [] {
      ScrollRun(mounted, menuOpen, ShowAfterScroll(mounted, menuOpen, showHeader, ys[0]), ys[1..]);
    }
  }

  class Header {
    var mounted: bool
    var menuOpen: bool
    var showHeader: bool
    /** `document.body.style.overflow`. */
    var bodyOverflow: string
    /** The component is on the page (not yet unmounted). */
    var alive: bool

    /** While the component lives, body scrolling is locked exactly while the
        menu is open; after it goes, the lock is released. */
    ghost predicate Valid()
      reads this
    {
      (alive ==> bodyOverflow == OverflowFor(menuOpen)) &&
      (!alive ==> bodyOverflow == "")
    }

    constructor()
      ensures Valid() && alive && !mounted && !menuOpen && !showHeader && bodyOverflow == ""
    {
      mounted := false;
      menuOpen := false;
      showHeader := false;
      bodyOverflow := "";
      alive := true;
    }

    /** Nothing renders until mounted. */
    predicate Renders()
      reads this
    {
      mounted
    }

    /** The toggle's `aria-expanded`. */
    predicate AriaExpanded()
      reads this
    {
      menuOpen
    }

    method Mount()
      requires Valid() && alive
      modifies this`mounted
      ensures Valid() && mounted
    {
      mounted := true;
    }

    method OnScroll(y: int)
      requires Valid() && alive
      modifies this`showHeader
      ensures Valid()
      ensures showHeader == ShowAfterScroll(mounted, menuOpen, old(showHeader), y)
    {
      if !mounted {
        return;
      }
      if menuOpen {
        return;
      }
      showHeader := y > ShowThreshold;
    }

    /** The body-style effect after a change of `menuOpen`. */
    method SyncBody()
      requires alive
      modifies this`bodyOverflow
      ensures Valid() && bodyOverflow == OverflowFor(menuOpen)
    {
      if menuOpen {
        bodyOverflow := "hidden";
      } else {
        bodyOverflow := "";
      }
    }

    /** The menu button flips the menu. */
    method ToggleMenu()
      requires Valid() && alive
      modifies this`menuOpen, this`bodyOverflow
      ensures Valid() && menuOpen == !old(menuOpen)
      ensures bodyOverflow == (if menuOpen then "hidden" else "")
    {
      menuOpen := !menuOpen;
      SyncBody();
    }

    /** Escape closes the menu from any state; other keys do nothing. */
    method KeyDown(key: string)
      requires Valid() && alive
      modifies this`menuOpen, this`bodyOverflow
      ensures Valid()
      ensures key == "Escape" ==> !menuOpen && bodyOverflow == ""
      ensures key != "Escape" ==> menuOpen == old(menuOpen)
    {
      if key == "Escape" {
        menuOpen := false;
      }
      SyncBody();
    }

    /** The logo link, any nav item and the download link close the menu. */
    method ClickLink()
      requires Valid() && alive
      modifies this`menuOpen, this`bodyOverflow
      ensures Valid() && !menuOpen && bodyOverflow == ""
    {
      menuOpen := false;
      SyncBody();
    }

    /** The effect's cleanup when the component goes. */
    method Unmount()
      requires Valid() && alive
      modifies this`alive, this`bodyOverflow
      ensures Valid() && !alive && bodyOverflow == ""
    {
      bodyOverflow := "";
      alive := false;
    }
  }
}
