/** The mobile menu: a toggle button and a sheet of links that shows while
    the menu is open. The toggle, Escape, every link, the close button and a
    far or fast enough downward drag change the one `open` flag. */
module MobileMenu {

  /** The menu entries' paths, in display order. */
  const Hrefs: seq<string> := ["/", "/science", "/blog", "/pricing", "/community", "/support"]

  /** A drag closes the sheet past this many pixels down, or this speed. */
  const DragOffsetLimit := 60.0
  const DragVelocityLimit := 700.0

  /** The drag-end rule: close when the sheet was pulled down far enough or
      flicked down fast enough. */
  predicate DragCloses(offsetY: real, velocityY: real) {
    offsetY > DragOffsetLimit || velocityY > DragVelocityLimit
  }

  /** Item k is highlighted when the current path is exactly its href. */
  predicate Active(pathname: string, k: nat)
    requires k < |Hrefs|
  {
    pathname == Hrefs[k]
  }

  /** The six paths are distinct. */
  lemma HrefsDistinct()
    ensures forall i, j :: 0 <= i < j < |Hrefs| ==> Hrefs[i] != Hrefs[j]
  {
    assert |Hrefs[0]| == 1;
    assert Hrefs[1][1] == 's' && Hrefs[2][1] == 'b' && Hrefs[3][1] == 'p' && Hrefs[4][1] == 'c';
    assert Hrefs[5][1] == 's' && Hrefs[1][2] != Hrefs[5][2];
  }

  /** At most one item is active on any page. */
  lemma {:induction false} AtMostOneActive(pathname: string, i: nat, j: nat)
    requires i < |Hrefs| && j < |Hrefs|
    ensures Active(pathname, i) && Active(pathname, j) ==> i == j
  {
    HrefsDistinct();
  }

  /** The toggle's `aria-label`. */
  function ToggleLabel(open: bool): (text: string)
    ensures text == "Close menu" <==> open
    ensures text == "Open menu" <==> !open
  {
    if open then "Close menu" else "Open menu"
  }

  class Menu {
    var open: bool

    constructor()
      ensures !open
    {
      open := false;
    }

    /** The sheet renders exactly while the menu is open (and so does the
        toggle's `aria-expanded`). */
    predicate SheetVisible()
      reads this
    {
      open
    }

    method Toggle()
      modifies this
      ensures open == !old(open)
    {
      open := !open;
    }

    method KeyDown(key: string)
      modifies this
      ensures key == "Escape" ==> !open
      ensures key != "Escape" ==> open == old(open)
    {
      if key == "Escape" {
        open := false;
      }
    }

    /** The close button, an item link or the download link. */
    method Close()
      modifies this
      ensures !open
    {
      open := false;
    }

    /** A drag of the open sheet ends. */
    method DragEnd(offsetY: real, velocityY: real)
      requires open
      modifies this
      ensures !open <==> DragCloses(offsetY, velocityY)
    {
      if offsetY > DragOffsetLimit || velocityY > DragVelocityLimit {
        open := false;
      }
    }
  }
}
