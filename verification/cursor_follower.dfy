/**
 * The cursor follower: the cursor position, a trail of at most five recent
 * points that loses its oldest point on every tick, and the smooth path drawn
 * through the trail.
 */
module CursorFollower {

  /** A cursor position in pixels. */
  datatype Point = Point(x: int, y: int)

  /**
   * A command of the trail's SVG path. A curve's control point is kept in sixths
   * of a pixel, because it is a point plus or minus a sixth of a difference of points.
   */
  datatype Command =
    | MoveTo(to: Point)
    | QuadTo(controlSixths: Point, to: Point)
    | SmoothTo(controlSixths: Point, to: Point)
    | LineTo(to: Point)

  /** The number of points a move keeps from the old trail. */
  const KeptOnMove: nat := 4

  /** The curve command the path draws through `points[i]`: `Q` for the first, `S` after it. */
  function CurveAt(points: seq<Point>, i: nat): Command
    requires 1 <= i < |points| - 1
  {
    var prev, curr, next := points[i - 1], points[i], points[i + 1];
    if i == 1 then QuadTo(Point(6 * curr.x - (next.x - prev.x), 6 * curr.y - (next.y - prev.y)), curr)
    else SmoothTo(Point(6 * curr.x + (next.x - prev.x), 6 * curr.y + (next.y - prev.y)), curr)
  }

  /** The curve commands through the points strictly between the first and the last. */
  function Curves(points: seq<Point>, count: nat): seq<Command>
    requires count <= |points| - 2
  {
    seq(count, k requires 0 <= k < count => CurveAt(points, k + 1))
  }

  /** The path `generateSmoothPath` builds: nothing for fewer than two points. */
  function SmoothPath(points: seq<Point>): seq<Command> {
    if |points| < 2 then []
    else [MoveTo(points[0])] + Curves(points, |points| - 2) + [LineTo(points[|points| - 1])]
  }

  /** Fewer than two points give no path; otherwise one command per point, from a move to the first to a line to the last. */
  lemma PathShape(points: seq<Point>)
    ensures |points| < 2 <==> SmoothPath(points) == []
    ensures |points| >= 2 ==>
      var path := SmoothPath(points);
      |path| == |points| && path[0] == MoveTo(points[0]) && path[|path| - 1] == LineTo(points[|points| - 1])
  {
  }

  /** Between the move and the line: one `Q` curve through the second point, then `S` curves through the others in order. */
  lemma PathCurves(points: seq<Point>)
    requires |points| > 2
    ensures var path := SmoothPath(points);
      path[1].QuadTo? && path[1].to == points[1] &&
      forall i :: 2 <= i < |points| - 1 ==> path[i].SmoothTo? && path[i].to == points[i]
  {
    var curves := Curves(points, |points| - 2);
    var head := [MoveTo(points[0])] + curves;
    assert SmoothPath(points) == head + [LineTo(points[|points| - 1])];
    forall i | 1 <= i < |points| - 1
      ensures SmoothPath(points)[i] == CurveAt(points, i)
    {
      assert head[i] == curves[i - 1];
    }
  }

  /** The trail state of the follower. */
  class CursorFollowerView {
    var position: Point
    var trail: seq<Point>
    var isHovering: bool
    var isVisible: bool

    /** The trail never holds more than five points. */
    predicate Valid()
      reads this
    {
      |trail| <= KeptOnMove + 1
    }

    constructor ()
      ensures position == Point(0, 0) && trail == [] && !isHovering && !isVisible && Valid()
    {
      position := Point(0, 0);
      trail := [];
      isHovering := false;
      isVisible := false;
    }

    /** `handleMouseMove`: the position, visibility, and `[...prev.slice(-4), newPos]`. */
    method Move(p: Point)
      requires Valid()
      modifies this`position, this`isVisible, this`trail
      ensures Valid() && position == p && isVisible
      ensures |trail| == if |old(trail)| < KeptOnMove + 1 then |old(trail)| + 1 else KeptOnMove + 1
      ensures trail[|trail| - 1] == p
      ensures trail[..|trail| - 1] == old(trail)[|old(trail)| - (|trail| - 1)..]
    {
      position := p;
      isVisible := true;
      var prev := trail;
      var keep := if |prev| < KeptOnMove then |prev| else KeptOnMove;
      var kept := prev[|prev| - keep..];
      var next := kept + [p];
      assert next[..|next| - 1] == kept;
      trail := next;
    }

    /** `handleMouseLeave`: invisible, with an empty trail. */
    method Leave()
      modifies this`isVisible, this`trail
      ensures !isVisible && trail == [] && Valid()
    {
      isVisible := false;
      trail := [];
    }

    /** `handleMouseOver`: whether the element under the cursor is clickable is decided by the page. */
    method Hover(isClickable: bool)
      modifies this`isHovering
      ensures isHovering == isClickable
    {
      isHovering := isClickable;
    }

    /** The fade interval: `prev.slice(1)` drops the oldest point, and an empty trail stays empty. */
    method Tick()
      requires Valid()
      modifies this`trail
      ensures Valid()
      ensures old(trail) == [] ==> trail == []
      ensures old(trail) != [] ==> [old(trail)[0]] + trail == old(trail)
    {
      trail := if trail == [] then [] else trail[1..];
    }

    /** Nothing is rendered while invisible. */
    predicate Renders()
      reads this
    {
      isVisible
    }

    /** The trail path is drawn only for a visible trail of more than one point. */
    predicate DrawsPath()
      reads this
    {
      Renders() && |trail| > 1
    }

    /** `generateSmoothPath(points)` */
    method GenerateSmoothPath(points: seq<Point>) returns (path: seq<Command>)
      ensures path == SmoothPath(points)
    {
      if |points| < 2 {
        return [];
      }
      path := [MoveTo(points[0])];
      var i := 1;
      while i < |points| - 1
        invariant 1 <= i <= |points| - 1
        invariant path == [MoveTo(points[0])] + Curves(points, i - 1)
      {
        assert Curves(points, i) == Curves(points, i - 1) + [CurveAt(points, i)];
        path := path + [CurveAt(points, i)];
        i := i + 1;
      }
      path := path + [LineTo(points[|points| - 1])];
    }
  }

  /** After a leave nothing is drawn, whatever the trail held. */
  lemma LeaveHidesEverything(view: CursorFollowerView)
    requires !view.isVisible
    ensures !view.Renders() && !view.DrawsPath()
  {
  }
}
