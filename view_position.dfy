/** FViewPosition: remembers a view's top-left corner and puts a view back
    there later, keeping the view's size. A negative coordinate means "no
    position". */
module ViewPositions {
  import opened Views

  class ViewPosition {
    var left: int
    var top: int

    /** The fields start at zero, so a new instance already has a
        position. */
    constructor ()
      ensures left == 0 && top == 0 && HasPosition()
    {
      left, top := 0, 0;
    }

    predicate HasPosition()
      reads this
    {
      left >= 0 && top >= 0
    }

    /** Stores the view's left and top; a missing view is refused and the
        stored position kept. */
    method Save(view: View?) returns (ok: bool)
      modifies this
      ensures ok <==> view != null
      ensures ok ==> left == view.left && top == view.top
      ensures !ok ==> left == old(left) && top == old(top)
    {
      if view == null {
        return false;
      }
      left, top := view.left, view.top;
      return true;
    }

    method Reset()
      modifies this
      ensures left == -1 && top == -1
      ensures !HasPosition()
    {
      left, top := -1, -1;
    }

    /** Moves the view to the stored corner, keeping its width and height.
        Refused, with the view left alone, when the view is missing or no
        position is stored. */
    method Layout(view: View?) returns (ok: bool)
      modifies view
      ensures ok <==> view != null && HasPosition()
      ensures view != null && !ok ==> unchanged(view)
      ensures ok ==>
        && view.left == left && view.top == top
        && view.right == left + old(view.Width()) && view.bottom == top + old(view.Height())
        && view.Width() == old(view.Width()) && view.Height() == old(view.Height())
        && view.paddingLeft == old(view.paddingLeft) && view.paddingTop == old(view.paddingTop)
        && view.paddingRight == old(view.paddingRight) && view.paddingBottom == old(view.paddingBottom)
        && view.margins == old(view.margins) && view.children == old(view.children)
    {
      if view == null {
        return false;
      }
      if !HasPosition() {
        return false;
      }
      view.Layout(left, top, left + view.Width(), top + view.Height());
      return true;
    }
  }

  /** A saved position is laid back exactly: saving a view, moving it, and
      laying it out again restores its frame. */
  method SaveThenLayoutRestores(view: View, dx: int, dy: int)
    requires view.left >= 0 && view.top >= 0
    modifies view
    ensures view.left == old(view.left) && view.top == old(view.top)
    ensures view.right == old(view.right) && view.bottom == old(view.bottom)
  {
    var p := new ViewPosition();
    var saved := p.Save(view);
    view.Layout(view.left + dx, view.top + dy, view.right + dx, view.bottom + dy);
    var laid := p.Layout(view);
    assert saved && laid;
  }
}
