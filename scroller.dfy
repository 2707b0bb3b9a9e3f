/** FScroller: a wrapper over the platform scroller that accepts or rejects
    scroll and fling requests, computes a default duration, remembers the last
    reported position and the finished state, and notifies a scroll hook and a
    state hook (plus an optional listener) only on real changes. */
module Scrolling {
  import opened Events

  function Abs(n: int): nat {
    if n < 0 then -n else n
  }

  function Min(a: int, b: int): int {
    if a <= b then a else b
  }

  function Max(a: int, b: int): int {
    if a >= b then a else b
  }

  /** The platform's float-to-int cast: truncation toward zero, so the floor
      of a non-negative value and the ceiling of a negative one. */
  function Trunc(x: real): (r: int)
    ensures x >= 0.0 ==> r == x.Floor
    ensures x < 0.0 ==> x <= r as real < x + 1.0
    ensures -1.0 < x - r as real < 1.0
  {
    if x >= 0.0 then x.Floor else -((-x).Floor)
  }

  /** `distance` is the length of the displacement (dx, dy): the non-negative
      square root of dx*dx + dy*dy. The Euclidean length lies between the
      larger of |dx| and |dy| and their sum; the proofs use only those bounds. */
  predicate IsLength(distance: real, dx: int, dy: int) {
    && Max(Abs(dx), Abs(dy)) as real <= distance <= (Abs(dx) + Abs(dy)) as real
    && distance * distance == (dx * dx + dy * dy) as real
  }

  /** Only the zero displacement has length 0, and a displacement along one
      axis has exactly its absolute value as its length. */
  lemma LengthFacts(distance: real, dx: int, dy: int)
    requires IsLength(distance, dx, dy)
    ensures distance == 0.0 <==> dx == 0 && dy == 0
    ensures dy == 0 ==> distance == Abs(dx) as real
    ensures dx == 0 ==> distance == Abs(dy) as real
  {
  }

  /** computeDuration(dx, dy, maxDistance, maxDuration, minDuration).
      `distance` is the length sqrt(dx*dx + dy*dy) of the displacement, which
      the caller supplies; the percentage of the maximum distance is NOT
      clamped to 1, and the sum is truncated, then capped at `maxDuration`. */
  function ComputeDuration(dx: int, dy: int, maxDistance: int, maxDuration: int, minDuration: int,
                           distance: real): (r: int)
    requires IsLength(distance, dx, dy)
    ensures Abs(maxDistance) == 0 ==> r == minDuration
    ensures maxDistance != 0 ==> r <= maxDuration
  {
    var m := Abs(maxDistance);
    if m == 0 then minDuration
    else Min(Scaled(distance / m as real, minDuration), maxDuration)
  }

  /** The zero displacement, whose only length is 0 (LengthFacts), takes the
      smaller of the two durations whenever the maximum distance is set. */
  lemma ZeroDisplacementDuration(maxDistance: int, maxDuration: int, minDuration: int)
    requires maxDistance != 0
    ensures IsLength(0.0, 0, 0)
    ensures ComputeDuration(0, 0, maxDistance, maxDuration, minDuration, 0.0) == Min(minDuration, maxDuration)
  {
    assert 0.0 / Abs(maxDistance) as real == 0.0;
    ScaledAtZero(minDuration);
  }

  lemma ScaledAtZero(minDuration: int)
    ensures Scaled(0.0, minDuration) == minDuration
  {
    assert 0.0 * minDuration as real + minDuration as real == minDuration as real;
    TruncOfInt(minDuration);
  }

  /** The uncapped duration for a distance percentage. */
  function Scaled(percent: real, minDuration: int): int {
    Trunc(percent * minDuration as real + minDuration as real)
  }

  lemma ScaledMonotone(p1: real, p2: real, minDuration: int)
    requires 0.0 <= p1 <= p2 && 0 <= minDuration
    ensures minDuration <= Scaled(p1, minDuration) <= Scaled(p2, minDuration)
  {
    var mn := minDuration as real;
    AffineMonotone(p1, p2, mn);
    ScaledFloor(p1, minDuration);
    ScaledFloor(p2, minDuration);
    FloorChain(minDuration, p1 * mn + mn, p2 * mn + mn);
  }

  /** For a non-negative percentage and minimum, the uncapped duration is the
      floor of its real value. */
  lemma ScaledFloor(p: real, minDuration: int)
    requires 0.0 <= p && 0 <= minDuration
    ensures Scaled(p, minDuration) == (p * minDuration as real + minDuration as real).Floor
  {
    MulMonotone(0.0, p, minDuration as real);
  }

  lemma FloorChain(n: int, a: real, b: real)
    requires n as real <= a <= b
    ensures n <= a.Floor <= b.Floor
  {
  }

  lemma TruncOfInt(n: int)
    ensures Trunc(n as real) == n
  {
  }

  lemma AffineMonotone(p1: real, p2: real, c: real)
    requires 0.0 <= p1 <= p2 && 0.0 <= c
    ensures c <= p1 * c + c <= p2 * c + c
  {
    MulMonotone(0.0, p1, c);
    MulMonotone(p1, p2, c);
  }

  lemma MulMonotone(a: real, b: real, c: real)
    requires a <= b && 0.0 <= c
    ensures a * c <= b * c
    ensures a == 0.0 ==> a * c == 0.0
  {
  }

  lemma DivMonotone(a: real, b: real, m: real)
    requires 0.0 <= a <= b && 0.0 < m
    ensures 0.0 <= a / m <= b / m
  {
  }

  /** With a non-negative configuration the duration never falls below the
      minimum duration (so it is never negative), never exceeds the maximum,
      and never shrinks as the distance grows. */
  lemma DurationGrowsWithDistance(maxDistance: int, maxDuration: int, minDuration: int,
                                  dx1: int, dy1: int, d1: real, dx2: int, dy2: int, d2: real)
    requires maxDistance != 0 && 0 <= minDuration <= maxDuration
    requires IsLength(d1, dx1, dy1) && IsLength(d2, dx2, dy2) && d1 <= d2
    ensures minDuration <= ComputeDuration(dx1, dy1, maxDistance, maxDuration, minDuration, d1)
    ensures ComputeDuration(dx1, dy1, maxDistance, maxDuration, minDuration, d1)
      <= ComputeDuration(dx2, dy2, maxDistance, maxDuration, minDuration, d2) <= maxDuration
  {
    var m := Abs(maxDistance) as real;
    DivMonotone(d1, d2, m);
    ScaledMonotone(d1 / m, d2 / m, minDuration);
  }

  /** A fling is accepted when, on some axis, the start lies strictly inside
      its bounds and the velocity on that axis is non-zero. */
  predicate FlingAccepted(startX: int, startY: int, velocityX: int, velocityY: int,
                          minX: int, maxX: int, minY: int, maxY: int)
  {
    (startX > minX && startX < maxX && velocityX != 0) ||
    (startY > minY && startY < maxY && velocityY != 0)
  }

  /** flingX passes zero bounds for y, so its y clause can never hold: it is
      accepted exactly on the x condition; flingY likewise on y. */
  lemma SingleAxisFling(start: int, velocity: int, min: int, max: int)
    ensures FlingAccepted(start, 0, velocity, 0, min, max, 0, 0) <==> min < start < max && velocity != 0
    ensures FlingAccepted(0, start, 0, velocity, 0, 0, min, max) <==> min < start < max && velocity != 0
  {
  }

  /** A start exactly on a bound never qualifies that axis. */
  lemma FlingAtBoundRejected(startX: int, startY: int, velocityX: int, velocityY: int,
                             minX: int, maxX: int, minY: int, maxY: int)
    requires startX == minX || startX == maxX
    requires !(minY < startY < maxY) || velocityY == 0
    ensures !FlingAccepted(startX, startY, velocityX, velocityY, minX, maxX, minY, maxY)
  {
  }

  /** A request the wrapper forwards to the platform scroller, or a query it
      makes of it. */
  datatype EngineCall =
    | StartScrollCall(startX: int, startY: int, dx: int, dy: int, duration: int)
    | FlingCall(startX: int, startY: int, velocityX: int, velocityY: int,
                minX: int, maxX: int, minY: int, maxY: int)
    | ComputeOffset(result: bool)
    | Abort

  /** The platform scroller, seen only through its finished flag and current
      position. How those evolve (the motion profile and the clock) is not
      modelled: every operation may leave them with any values. */
  class PlatformScroller {
    var finished: bool
    var currX: int
    var currY: int
    /** Every request made so far, oldest first. */
    ghost var calls: seq<EngineCall>

    constructor (finished: bool, currX: int, currY: int)
      ensures this.finished == finished && this.currX == currX && this.currY == currY
      ensures calls == []
    {
      this.finished, this.currX, this.currY := finished, currX, currY;
      calls := [];
    }

    method StartScroll(startX: int, startY: int, dx: int, dy: int, duration: int)
      modifies this
      ensures calls == old(calls) + [StartScrollCall(startX, startY, dx, dy, duration)]
    {
      calls := calls + [StartScrollCall(startX, startY, dx, dy, duration)];
      finished, currX, currY := *, *, *;
    }

    method Fling(startX: int, startY: int, velocityX: int, velocityY: int,
                 minX: int, maxX: int, minY: int, maxY: int)
      modifies this
      ensures calls == old(calls) + [FlingCall(startX, startY, velocityX, velocityY, minX, maxX, minY, maxY)]
    {
      calls := calls + [FlingCall(startX, startY, velocityX, velocityY, minX, maxX, minY, maxY)];
      finished, currX, currY := *, *, *;
    }

    method ComputeScrollOffset() returns (computing: bool)
      modifies this
      ensures calls == old(calls) + [ComputeOffset(computing)]
    {
      computing := *;
      calls := calls + [ComputeOffset(computing)];
      finished, currX, currY := *, *, *;
    }

    method AbortAnimation()
      modifies this
      ensures calls == old(calls) + [Abort]
    {
      calls := calls + [Abort];
      finished, currX, currY := *, *, *;
    }
  }

  datatype ScrollEvent =
    | ScrollStateChanged(isFinished: bool)
    | Scroll(currX: int, currY: int, lastX: int, lastY: int)

  datatype ScrollNotice = ScrollNotice(to: Receiver, event: ScrollEvent)

  /** The notifications of one event: the hook, then the listener if any. */
  function Deliver(listener: Option<Listener>, e: ScrollEvent): (ns: seq<ScrollNotice>)
    ensures |ns| == |Receivers(listener)|
    ensures forall i :: 0 <= i < |ns| ==> ns[i] == ScrollNotice(Receivers(listener)[i], e)
  {
    if listener.Some? then [ScrollNotice(Hook, e), ScrollNotice(ToListener(listener.value), e)]
    else [ScrollNotice(Hook, e)]
  }

  /** The state notifications of moving the finished flag from `was` to `now`. */
  function FinishedNotices(listener: Option<Listener>, was: bool, now: bool): seq<ScrollNotice>
  {
    if was == now then [] else Deliver(listener, ScrollStateChanged(now))
  }

  class FScroller {
    const engine: PlatformScroller
    var maxScrollDistance: int
    var maxScrollDuration: int
    var minScrollDuration: int
    var lastX: int
    var lastY: int
    var isFinished: bool
    var callback: Option<Listener>
    /** Every notification delivered so far, oldest first. */
    ghost var log: seq<ScrollNotice>

    constructor (engine: PlatformScroller)
      ensures this.engine == engine
      ensures isFinished && maxScrollDistance == 0 && maxScrollDuration == 600 && minScrollDuration == 256
      ensures lastX == 0 && lastY == 0 && callback == None && log == []
    {
      this.engine := engine;
      maxScrollDistance, maxScrollDuration, minScrollDuration := 0, 600, 256;
      lastX, lastY, isFinished := 0, 0, true;
      callback := None;
      log := [];
    }

    /** The source's constructor, which throws on a null scroller; here the
        failure is a null result. */
    static method Create(engine: PlatformScroller?) returns (s: FScroller?)
      ensures engine == null <==> s == null
      ensures s != null ==> fresh(s) && s.engine == engine
      ensures s != null ==> s.isFinished && s.maxScrollDuration == 600 && s.minScrollDuration == 256
      ensures s != null ==> s.maxScrollDistance == 0 && s.lastX == 0 && s.lastY == 0
      ensures s != null ==> s.callback == None && s.log == []
    {
      if engine == null {
        return null;
      }
      s := new FScroller(engine);
    }

    /** The properties no request changes: the configuration and the listener. */
    twostate predicate SameSettings()
      reads this
    {
      && maxScrollDistance == old(maxScrollDistance)
      && maxScrollDuration == old(maxScrollDuration)
      && minScrollDuration == old(minScrollDuration)
      && callback == old(callback)
    }

    method SetCallback(c: Option<Listener>)
      modifies this
      ensures callback == c
      ensures maxScrollDistance == old(maxScrollDistance) && maxScrollDuration == old(maxScrollDuration)
      ensures minScrollDuration == old(minScrollDuration)
      ensures lastX == old(lastX) && lastY == old(lastY) && isFinished == old(isFinished) && log == old(log)
    {
      callback := c;
    }

    method SetMaxScrollDistance(distance: int)
      modifies this`maxScrollDistance
      ensures maxScrollDistance == distance
    {
      maxScrollDistance := distance;
    }

    method SetMaxScrollDuration(duration: int)
      modifies this`maxScrollDuration
      ensures maxScrollDuration == duration
    {
      maxScrollDuration := duration;
    }

    method SetMinScrollDuration(duration: int)
      modifies this`minScrollDuration
      ensures minScrollDuration == duration
    {
      minScrollDuration := duration;
    }

    /** getDuration: the heuristic under the current configuration. */
    function GetDuration(dx: int, dy: int, distance: real): (r: int)
      requires IsLength(distance, dx, dy)
      reads this
      ensures maxScrollDistance != 0 && 0 <= minScrollDuration <= maxScrollDuration ==>
                minScrollDuration <= r <= maxScrollDuration
    {
      var d := ComputeDuration(dx, dy, maxScrollDistance, maxScrollDuration, minScrollDuration, distance);
      if maxScrollDistance != 0 && 0 <= minScrollDuration <= maxScrollDuration then
        DurationGrowsWithDistance(maxScrollDistance, maxScrollDuration, minScrollDuration,
                                  dx, dy, distance, dx, dy, distance);
        d
      else d
    }

    /** The whole effect of scrollDelta(startX, startY, dx, dy, duration): a
        zero displacement is rejected and changes nothing; otherwise the last
        position becomes the start, the platform is asked to scroll for the
        caller's duration (or the computed one when it is negative), and the
        finished state is brought in line with the platform. */
    twostate predicate Scrolled(startX: int, startY: int, dx: int, dy: int, duration: int,
                                distance: real, accepted: bool)
      requires IsLength(distance, dx, dy)
      reads this, engine
    {
      && accepted == (dx != 0 || dy != 0)
      && SameSettings()
      && (accepted ==>
            && lastX == startX && lastY == startY
            && engine.calls == old(engine.calls) +
                 [StartScrollCall(startX, startY, dx, dy, if duration < 0 then old(GetDuration(dx, dy, distance)) else duration)]
            && isFinished == engine.finished
            && log == old(log) + FinishedNotices(callback, old(isFinished), engine.finished))
      && (!accepted ==> unchanged(this, engine))
    }

    /** The whole effect of a fling request: rejected unless FlingAccepted, in
        which case the platform is asked to fling and the finished state is
        brought in line with it; the last position is left as it was. */
    twostate predicate Flung(startX: int, startY: int, velocityX: int, velocityY: int,
                             minX: int, maxX: int, minY: int, maxY: int, accepted: bool)
      reads this, engine
    {
      && accepted == FlingAccepted(startX, startY, velocityX, velocityY, minX, maxX, minY, maxY)
      && SameSettings()
      && (accepted ==>
            && lastX == old(lastX) && lastY == old(lastY)
            && engine.calls == old(engine.calls) +
                 [FlingCall(startX, startY, velocityX, velocityY, minX, maxX, minY, maxY)]
            && isFinished == engine.finished
            && log == old(log) + FinishedNotices(callback, old(isFinished), engine.finished))
      && (!accepted ==> unchanged(this, engine))
    }

    method ScrollToX(startX: int, endX: int, duration: int, distance: real) returns (r: bool)
      requires IsLength(distance, endX - startX, 0)
      modifies this, engine
      ensures Scrolled(startX, 0, endX - startX, 0, duration, distance, r)
    {
      r := ScrollTo(startX, 0, endX, 0, duration, distance);
    }

    method ScrollToY(startY: int, endY: int, duration: int, distance: real) returns (r: bool)
      requires IsLength(distance, 0, endY - startY)
      modifies this, engine
      ensures Scrolled(0, startY, 0, endY - startY, duration, distance, r)
    {
      r := ScrollTo(0, startY, 0, endY, duration, distance);
    }

    method ScrollTo(startX: int, startY: int, endX: int, endY: int, duration: int, distance: real)
      returns (r: bool)
      requires IsLength(distance, endX - startX, endY - startY)
      modifies this, engine
      ensures Scrolled(startX, startY, endX - startX, endY - startY, duration, distance, r)
    {
      r := ScrollDelta(startX, startY, endX - startX, endY - startY, duration, distance);
    }

    method ScrollDeltaX(startX: int, dx: int, duration: int, distance: real) returns (r: bool)
      requires IsLength(distance, dx, 0)
      modifies this, engine
      ensures Scrolled(startX, 0, dx, 0, duration, distance, r)
    {
      r := ScrollDelta(startX, 0, dx, 0, duration, distance);
    }

    method ScrollDeltaY(startY: int, dy: int, duration: int, distance: real) returns (r: bool)
      requires IsLength(distance, 0, dy)
      modifies this, engine
      ensures Scrolled(0, startY, 0, dy, duration, distance, r)
    {
      r := ScrollDelta(0, startY, 0, dy, duration, distance);
    }

    method ScrollDelta(startX: int, startY: int, dx: int, dy: int, duration: int, distance: real)
      returns (r: bool)
      requires IsLength(distance, dx, dy)
      modifies this, engine
      ensures Scrolled(startX, startY, dx, dy, duration, distance, r)
    {
      r := dx != 0 || dy != 0;
      if r {
        lastX := startX;
        lastY := startY;
        var d := duration;
        if d < 0 {
          d := GetDuration(dx, dy, distance);
        }
        engine.StartScroll(startX, startY, dx, dy, d);
        UpdateFinished();
      }
    }

    method FlingX(startX: int, velocityX: int, minX: int, maxX: int) returns (r: bool)
      modifies this, engine
      ensures Flung(startX, 0, velocityX, 0, minX, maxX, 0, 0, r)
      ensures r <==> minX < startX < maxX && velocityX != 0
    {
      r := Fling(startX, 0, velocityX, 0, minX, maxX, 0, 0);
      SingleAxisFling(startX, velocityX, minX, maxX);
    }

    method FlingY(startY: int, velocityY: int, minY: int, maxY: int) returns (r: bool)
      modifies this, engine
      ensures Flung(0, startY, 0, velocityY, 0, 0, minY, maxY, r)
      ensures r <==> minY < startY < maxY && velocityY != 0
    {
      r := Fling(0, startY, 0, velocityY, 0, 0, minY, maxY);
      SingleAxisFling(startY, velocityY, minY, maxY);
    }

    method Fling(startX: int, startY: int, velocityX: int, velocityY: int,
                 minX: int, maxX: int, minY: int, maxY: int) returns (r: bool)
      modifies this, engine
      ensures Flung(startX, startY, velocityX, velocityY, minX, maxX, minY, maxY, r)
    {
      r := (startX > minX && startX < maxX && velocityX != 0) ||
           (startY > minY && startY < maxY && velocityY != 0);
      if r {
        engine.Fling(startX, startY, velocityX, velocityY, minX, maxX, minY, maxY);
        UpdateFinished();
      }
    }

    /** Advances the platform scroller. The scroll hook and listener hear of
        the new position only while the platform is still computing and the
        position moved; the last position then always follows the platform's,
        and the state hooks fire if the finished flag flipped. */
    method ComputeScrollOffset() returns (computing: bool)
      modifies this, engine
      ensures engine.calls == old(engine.calls) + [ComputeOffset(computing)]
      ensures lastX == engine.currX && lastY == engine.currY
      ensures isFinished == engine.finished
      ensures SameSettings()
      ensures log == old(log)
        + (if computing && (engine.currX != old(lastX) || engine.currY != old(lastY))
           then Deliver(callback, Scroll(engine.currX, engine.currY, old(lastX), old(lastY)))
           else [])
        + FinishedNotices(callback, old(isFinished), engine.finished)
    {
      computing := engine.ComputeScrollOffset();
      var currX := engine.currX;
      var currY := engine.currY;
      if computing {
        if currX != lastX || currY != lastY {
          log := log + Deliver(callback, Scroll(currX, currY, lastX, lastY));
        }
      }
      lastX := currX;
      lastY := currY;
      UpdateFinished();
    }

    method AbortAnimation()
      modifies this, engine
      ensures engine.calls == old(engine.calls) + [Abort]
      ensures lastX == old(lastX) && lastY == old(lastY)
      ensures isFinished == engine.finished
      ensures SameSettings()
      ensures log == old(log) + FinishedNotices(callback, old(isFinished), engine.finished)
    {
      engine.AbortAnimation();
      UpdateFinished();
    }

    /** Copies the platform's finished flag, notifying only when it flips. */
    method UpdateFinished()
      modifies this
      ensures isFinished == engine.finished
      ensures lastX == old(lastX) && lastY == old(lastY) && SameSettings()
      ensures log == old(log) + FinishedNotices(callback, old(isFinished), engine.finished)
    {
      var finish := engine.finished;
      if isFinished != finish {
        isFinished := finish;
        log := log + Deliver(callback, ScrollStateChanged(finish));
      }
    }
  }
}
