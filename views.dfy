/** The parts of a platform view that the library reads or changes: its frame
    (left, top, right, bottom in the parent's coordinates), its padding, the
    margins of its layout parameters and, for a view group, its children in
    drawing order. */
module Views {
  import opened Events

  /** The four margins of a child whose layout parameters are margin
      layout parameters. */
  datatype Margins = Margins(left: int, top: int, right: int, bottom: int)

  class View {
    var left: int
    var top: int
    var right: int
    var bottom: int
    var paddingLeft: int
    var paddingTop: int
    var paddingRight: int
    var paddingBottom: int
    /** `Some` when the layout parameters are margin layout parameters. */
    var margins: Option<Margins>
    /** The children of a view group, index 0 drawn first. */
    var children: seq<View>

    constructor (left: int, top: int, right: int, bottom: int)
      ensures this.left == left && this.top == top && this.right == right && this.bottom == bottom
      ensures paddingLeft == 0 && paddingTop == 0 && paddingRight == 0 && paddingBottom == 0
      ensures margins == None && children == []
    {
      this.left, this.top, this.right, this.bottom := left, top, right, bottom;
      paddingLeft, paddingTop, paddingRight, paddingBottom := 0, 0, 0, 0;
      margins := None;
      children := [];
    }

    function Width(): int
      reads this
    {
      right - left
    }

    function Height(): int
      reads this
    {
      bottom - top
    }

    /** Assigns the view's frame. */
    method Layout(l: int, t: int, r: int, b: int)
      modifies this
      ensures left == l && top == t && right == r && bottom == b
      ensures paddingLeft == old(paddingLeft) && paddingTop == old(paddingTop)
      ensures paddingRight == old(paddingRight) && paddingBottom == old(paddingBottom)
      ensures margins == old(margins) && children == old(children)
    {
      left, top, right, bottom := l, t, r, b;
    }
  }
}
