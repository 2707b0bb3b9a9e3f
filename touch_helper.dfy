/** The pointer tracker of the library (FTouchHelper): position history across
    the previous event and the last DOWN/MOVE/UP/CANCEL events, deltas and
    direction tests against a reference event, and static geometry helpers
    over views. */
module Touch {
  import opened Events
  import opened Views

  /** Reference codes accepted by the delta and direction queries. */
  const EVENT_DOWN: int := 0
  const EVENT_LAST: int := 1

  /** The positions the tracker keeps: the current and previous event and
      the last DOWN, MOVE, UP and CANCEL. */
  datatype Samples = Samples(current: Point, last: Point, down: Point, move: Point, up: Point, cancel: Point)

  /** The sample kept for an action; an action with no sample of its own
      reads the current position. */
  function SampleFor(s: Samples, a: Action): Point {
    match a
    case Down => s.down
    case Move => s.move
    case Up => s.up
    case Cancel => s.cancel
    case Other => s.current
  }

  /** What processing `ev` does to the samples: the previous current
      position becomes the last one, `ev`'s position becomes current, and
      only the sample named by `ev`'s action is overwritten. */
  function Record(s: Samples, ev: MotionEvent): (r: Samples)
    ensures r.last == s.current && r.current == ev.raw
    ensures !ev.action.Other? ==> SampleFor(r, ev.action) == ev.raw
    ensures forall a: Action :: !a.Other? && a != ev.action ==> SampleFor(r, a) == SampleFor(s, a)
  {
    var moved := s.(last := s.current, current := ev.raw);
    match ev.action
    case Down => moved.(down := ev.raw)
    case Move => moved.(move := ev.raw)
    case Up => moved.(up := ev.raw)
    case Cancel => moved.(cancel := ev.raw)
    case Other => moved
  }

  class TouchHelper {
    var current: Point
    var last: Point
    var down: Point
    var move: Point
    var up: Point
    var cancel: Point

    /** Every sample starts at the origin, as the platform's float fields do. */
    constructor ()
      ensures current == last == down == move == up == cancel == Point(0, 0)
    {
      current, last := Point(0, 0), Point(0, 0);
      down, move, up, cancel := Point(0, 0), Point(0, 0), Point(0, 0), Point(0, 0);
    }

    /** The six positions as one value. */
    function History(): Samples
      reads this
    {
      Samples(current, last, down, move, up, cancel)
    }

    method ProcessTouchEvent(ev: MotionEvent)
      modifies this
      ensures History() == Record(old(History()), ev)
      ensures DeltaXFrom(EVENT_LAST) == ev.raw.x - old(current.x)
      ensures DeltaYFrom(EVENT_LAST) == ev.raw.y - old(current.y)
      ensures ev.action.Down? ==> DeltaXFrom(EVENT_DOWN) == 0 && DeltaYFrom(EVENT_DOWN) == 0
      ensures !ev.action.Down? ==> DeltaXFrom(EVENT_DOWN) == ev.raw.x - old(down.x)
      ensures !ev.action.Down? ==> DeltaYFrom(EVENT_DOWN) == ev.raw.y - old(down.y)
    {
      last := current;
      current := ev.raw;
      match ev.action {
        case Down => down := current;
        case Move => move := current;
        case Up => up := current;
        case Cancel => cancel := current;
        case Other =>
      }
    }

    /** The x delta between the current event and the reference event. */
    function DeltaXFrom(event: int): int
      reads this
    {
      if event == EVENT_DOWN then current.x - down.x
      else if event == EVENT_LAST then current.x - last.x
      else 0
    }

    /** The y delta between the current event and the reference event. */
    function DeltaYFrom(event: int): int
      reads this
    {
      if event == EVENT_DOWN then current.y - down.y
      else if event == EVENT_LAST then current.y - last.y
      else 0
    }

    predicate IsMoveLeftFrom(event: int)
      reads this
    {
      DeltaXFrom(event) < 0
    }

    predicate IsMoveTopFrom(event: int)
      reads this
    {
      DeltaYFrom(event) < 0
    }

    predicate IsMoveRightFrom(event: int)
      reads this
    {
      DeltaXFrom(event) > 0
    }

    predicate IsMoveBottomFrom(event: int)
      reads this
    {
      DeltaYFrom(event) > 0
    }
  }

  /** The deltas against each reference: DOWN measures from the last press,
      LAST from the previous event, and any other code measures nothing. */
  lemma DeltaReferences(t: TouchHelper, event: int)
    ensures t.DeltaXFrom(EVENT_DOWN) == t.current.x - t.down.x
    ensures t.DeltaYFrom(EVENT_DOWN) == t.current.y - t.down.y
    ensures t.DeltaXFrom(EVENT_LAST) == t.current.x - t.last.x
    ensures t.DeltaYFrom(EVENT_LAST) == t.current.y - t.last.y
    ensures event != EVENT_DOWN && event != EVENT_LAST ==>
      t.DeltaXFrom(event) == 0 && t.DeltaYFrom(event) == 0
  {
  }

  /** A direction holds exactly when the delta on its axis has its sign, so
      opposite directions exclude each other and a zero delta is neither. */
  lemma DirectionsBySign(t: TouchHelper, event: int)
    ensures t.IsMoveLeftFrom(event) <==> t.DeltaXFrom(event) < 0
    ensures t.IsMoveRightFrom(event) <==> t.DeltaXFrom(event) > 0
    ensures t.IsMoveTopFrom(event) <==> t.DeltaYFrom(event) < 0
    ensures t.IsMoveBottomFrom(event) <==> t.DeltaYFrom(event) > 0
    ensures !(t.IsMoveLeftFrom(event) && t.IsMoveRightFrom(event))
    ensures !(t.IsMoveTopFrom(event) && t.IsMoveBottomFrom(event))
    ensures t.DeltaXFrom(event) == 0 <==> !t.IsMoveLeftFrom(event) && !t.IsMoveRightFrom(event)
    ensures t.DeltaYFrom(event) == 0 <==> !t.IsMoveTopFrom(event) && !t.IsMoveBottomFrom(event)
  {
  }

  /** The delta that moves `current` by at most `delta` without leaving
      [min, max]: a zero delta stays zero, otherwise the target position is
      pulled back onto the nearer violated bound. */
  function LegalDelta(current: int, min: int, max: int, delta: int): (r: int)
    ensures delta == 0 ==> r == 0
    ensures delta != 0 ==> (current + r ==
      if current + delta < min then min
      else if current + delta > max then max
      else current + delta)
    ensures delta != 0 && min <= max ==> min <= current + r <= max
    ensures delta != 0 && min <= current + delta <= max ==> r == delta
  {
    if delta == 0 then 0
    else
      var future := current + delta;
      if future < min then delta + (min - future)
      else if future > max then delta + (max - future)
      else delta
  }

  /** Whether (x, y), in the parent's coordinates, lies in the view's frame:
      left and top edges inclusive, right and bottom edges exclusive. */
  predicate IsViewUnder(view: View, x: int, y: int)
    reads view
  {
    x >= view.left && x < view.right && y >= view.top && y < view.bottom
  }

  /** Frame containment is half-open, so two views that only share an edge
      never both contain a point. */
  lemma HalfOpenFrames(a: View, b: View, x: int, y: int)
    requires a.right == b.left
    ensures !(IsViewUnder(a, x, y) && IsViewUnder(b, x, y))
    ensures IsViewUnder(a, x, y) ==> x < b.left
  {
  }

  /** The topmost child of `parent` under (x, y): the last one in drawing
      order whose frame contains the point, or null when none does. */
  method FindTopChildUnder(parent: View, x: int, y: int) returns (child: View?)
    ensures child == null <==>
      forall i :: 0 <= i < |parent.children| ==> !IsViewUnder(parent.children[i], x, y)
    ensures child != null ==>
      exists i :: 0 <= i < |parent.children| && parent.children[i] == child &&
        IsViewUnder(child, x, y) &&
        forall j :: i < j < |parent.children| ==> !IsViewUnder(parent.children[j], x, y)
  {
    var children := parent.children;
    var i := |children| - 1;
    while i >= 0
      invariant -1 <= i < |children|
      invariant forall j :: i < j < |children| ==> !IsViewUnder(children[j], x, y)
    {
      if IsViewUnder(children[i], x, y) {
        return children[i];
      }
      i := i - 1;
    }
    return null;
  }

  /** The margins `margin` asks for: those of the child's margin layout
      parameters, or none. */
  function MarginsOf(child: View, margin: bool): Margins
    reads child
  {
    if margin && child.margins.Some? then child.margins.value else Margins(0, 0, 0, 0)
  }

  /** The left position that puts the child's left edge on the parent's
      inner left edge (padding, then margin). */
  function LeftAlignParentLeft(parent: View, child: View, margin: bool): int
    reads parent, child
  {
    parent.paddingLeft + MarginsOf(child, margin).left
  }

  /** The left position that puts the child's right edge on the parent's
      inner right edge. */
  function LeftAlignParentRight(parent: View, child: View, margin: bool): int
    reads parent, child
  {
    parent.Width() - parent.paddingRight - child.Width() - MarginsOf(child, margin).right
  }

  /** The top position that puts the child's top edge on the parent's inner
      top edge. */
  function TopAlignParentTop(parent: View, child: View, margin: bool): int
    reads parent, child
  {
    parent.paddingTop + MarginsOf(child, margin).top
  }

  /** getTopAlignParentBottom as the source writes it: it subtracts the
      parent's TOP padding where the bottom padding belongs. */
  function TopAlignParentBottomAsWritten(parent: View, child: View, margin: bool): int
    reads parent, child
  {
    parent.Height() - parent.paddingTop - child.Height() - MarginsOf(child, margin).bottom
  }

  /** The top position that puts the child's bottom edge on the parent's
      inner bottom edge. */
  function TopAlignParentBottom(parent: View, child: View, margin: bool): int
    reads parent, child
  {
    parent.Height() - parent.paddingBottom - child.Height() - MarginsOf(child, margin).bottom
  }

  /** Placing the child at the aligned position puts the stated edge of the
      child (plus its margin) exactly on the parent's padded edge; the two
      horizontal positions are ordered exactly when the child fits. */
  lemma AlignedEdges(parent: View, child: View, margin: bool)
    ensures LeftAlignParentLeft(parent, child, margin) - MarginsOf(child, margin).left == parent.paddingLeft
    ensures LeftAlignParentRight(parent, child, margin) + child.Width() + MarginsOf(child, margin).right
      == parent.Width() - parent.paddingRight
    ensures TopAlignParentTop(parent, child, margin) - MarginsOf(child, margin).top == parent.paddingTop
    ensures TopAlignParentBottom(parent, child, margin) + child.Height() + MarginsOf(child, margin).bottom
      == parent.Height() - parent.paddingBottom
    ensures LeftAlignParentLeft(parent, child, margin) <= LeftAlignParentRight(parent, child, margin) <==>
      parent.paddingLeft + MarginsOf(child, margin).left + child.Width() + MarginsOf(child, margin).right
        + parent.paddingRight <= parent.Width()
  {
  }

  /** The as-written bottom alignment misses the parent's inner bottom edge by
      the difference of its two vertical paddings: with top padding 10, bottom
      padding 0, parent height 100 and child height 20 it places the child at
      70, so the child's bottom lands at 90 instead of 100. */
  lemma TopAlignParentBottomAsWrittenMisaligns(parent: View, child: View, margin: bool)
    ensures TopAlignParentBottomAsWritten(parent, child, margin) + child.Height() + MarginsOf(child, margin).bottom
      == parent.Height() - parent.paddingBottom - (parent.paddingTop - parent.paddingBottom)
    ensures parent.paddingTop != parent.paddingBottom ==>
      TopAlignParentBottomAsWritten(parent, child, margin) != TopAlignParentBottom(parent, child, margin)
  {
  }
}
