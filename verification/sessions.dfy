/** What whole press–drag–release gestures do to the shape list. */
module Sessions {
  import opened Wrappers
  import opened Geometry
  import opened Shapes
  import opened Tools
  import opened Paint

  /** Drag ticks to each point in turn. */
  function Drags(m: Machine, pts: seq<Point>): Machine
    decreases |pts|
  {
    if |pts| == 0 then m else Drags(Drag(m, pts[0]).next, pts[1..])
  }

  /** The drag events through `pts`. */
  function DragEvents(pts: seq<Point>): (es: seq<Event>)
    ensures |es| == |pts| && forall i :: 0 <= i < |pts| ==> es[i] == Dragged(pts[i])
    decreases |pts|
  {
    if |pts| == 0 then [] else [Dragged(pts[0])] + DragEvents(pts[1..])
  }

  /** One gesture: a press at `p0`, drag ticks through `pts`, a release at `q`. */
  function Gesture(p0: Point, pts: seq<Point>, q: Point): seq<Event> {
    [Pressed(p0)] + DragEvents(pts) + [Released(q)]
  }

  /** Handling two event sequences one after the other is handling their concatenation. */
  lemma {:induction false} RunAppend(m: Machine, a: seq<Event>, b: seq<Event>)
    ensures Run(m, a + b) == Run(Run(m, a), b)
    decreases |a|
  {
    if |a| == 0 {
      assert a + b == b;
    } else {
      assert (a + b)[1..] == a[1..] + b;
      RunAppend(Step(m, a[0]).next, a[1..], b);
    }
  }

  /** Handling drag events is dragging through their points. */
  lemma {:induction false} RunDrags(m: Machine, pts: seq<Point>)
    ensures Run(m, DragEvents(pts)) == Drags(m, pts)
    decreases |pts|
  {
    if |pts| > 0 {
      assert DragEvents(pts)[1..] == DragEvents(pts[1..]);
      RunDrags(Drag(m, pts[0]).next, pts[1..]);
    }
  }

  /** A gesture is a press, then the drags, then a release. */
  lemma GestureRun(m: Machine, p0: Point, pts: seq<Point>, q: Point)
    ensures Run(m, Gesture(p0, pts, q)) == Release(Drags(Press(m, p0), pts), q)
  {
    RunAppend(m, [Pressed(p0)], DragEvents(pts) + [Released(q)]);
    assert Gesture(p0, pts, q) == [Pressed(p0)] + (DragEvents(pts) + [Released(q)]);
    RunAppend(Press(m, p0), DragEvents(pts), [Released(q)]);
    RunDrags(Press(m, p0), pts);
    assert Run(Press(m, p0), [Pressed(p0)][1..]) == Press(m, p0);
  }

  /** The end point of the last tick's preview: the drag point before the
      last one, or the press point when there was a single tick. */
  function PrevBeforeLast(pressed: Point, pts: seq<Point>): Point
    requires |pts| > 0
  {
    if |pts| == 1 then pressed else pts[|pts| - 2]
  }

  /** The free-hand segments a point tool of width `w` commits while dragged
      through `pts` from `from`: each runs from a drag point back to the one
      before it. */
  function Stroke(w: int, c: Option<Color>, from: Point, pts: seq<Point>): (r: Scene)
    ensures |r| == |pts| && NoNull(r)
    decreases |pts|
  {
    if |pts| == 0 then []
    else
      var rest := Stroke(w, c, pts[0], pts[1..]);
      [Some(LineSegment(w, c, pts[0], from))] + rest
  }

  /** The segments of a stroke, one per drag point, and each ends where the
      one before it started, so together they form one connected trail. */
  lemma {:induction false} StrokeSegments(w: int, c: Option<Color>, from: Point, pts: seq<Point>)
    ensures forall i :: 0 <= i < |pts| ==>
              Stroke(w, c, from, pts)[i] == Some(LineSegment(w, c, pts[i], if i == 0 then from else pts[i - 1]))
    ensures forall i :: 1 <= i < |pts| ==>
              Stroke(w, c, from, pts)[i].value.end == Stroke(w, c, from, pts)[i - 1].value.start
    decreases |pts|
  {
    if |pts| > 0 {
      StrokeSegments(w, c, pts[0], pts[1..]);
      var s := Stroke(w, c, from, pts);
      forall i | 1 <= i < |pts|
        ensures s[i] == Some(LineSegment(w, c, pts[i], pts[i - 1]))
      {
        assert s[i] == Stroke(w, c, pts[0], pts[1..])[i - 1];
        assert pts[1..][i - 1] == pts[i];
        if i > 1 { assert pts[1..][i - 2] == pts[i - 1]; }
      }
    }
  }

  lemma NoNullAppend(a: Scene, b: Scene)
    requires NoNull(a) && NoNull(b)
    ensures NoNull(a + b)
  {
  }

  /** Dragging with a line, rectangle, oval or rounded-rectangle tool commits
      nothing; afterwards the tool's paint shape runs from the anchor to the
      drag point before the last one. */
  lemma {:induction false} TwoPointDrags(m: Machine, pts: seq<Point>)
    requires m.dragging && NoNull(m.scene) && m.tool.TwoPoint() && |pts| > 0
    ensures Drags(m, pts).dragging && Drags(m, pts).scene == m.scene
    ensures Drags(m, pts).anchor == m.anchor && Drags(m, pts).prev == pts[|pts| - 1]
    ensures Drags(m, pts).tool == m.tool && Drags(m, pts).color == m.color
    ensures PaintShape(Drags(m, pts).built, m.tool) == Build(m.tool, m.color, m.anchor, PrevBeforeLast(m.prev, pts))
    decreases |pts|
  {
    var m1 := Drag(m, pts[0]).next;
    if |pts| == 1 {
      assert Drags(m1, pts[1..]) == m1;
    } else {
      TwoPointDrags(m1, pts[1..]);
      assert PrevBeforeLast(m1.prev, pts[1..]) == PrevBeforeLast(m.prev, pts);
    }
  }

  /** A press, one or more drag ticks and a release with a line, rectangle,
      oval or rounded-rectangle tool append exactly one shape: the one from
      the integer press point to the drag point before the last, whatever
      the release point. */
  lemma TwoPointGesture(m: Machine, p0: Point, pts: seq<Point>, q: Point)
    requires !m.dragging && NoNull(m.scene) && m.tool.TwoPoint() && |pts| > 0
    ensures !Run(m, Gesture(p0, pts, q)).dragging
    ensures Run(m, Gesture(p0, pts, q)).scene
              == m.scene + [Build(m.tool, m.color, Truncate(p0), PrevBeforeLast(Truncate(p0), pts))]
  {
    GestureRun(m, p0, pts, q);
    TwoPointDrags(Press(m, p0), pts);
  }

  /** The first drag tick after a press builds the degenerate shape from the
      anchor to itself. */
  lemma FirstTickDegenerate(m: Machine, p0: Point, p1: Point)
    requires !m.dragging && NoNull(m.scene) && m.tool.TwoPoint()
    ensures PaintShape(Run(m, [Pressed(p0)] + DragEvents([p1])).built, m.tool)
              == Build(m.tool, m.color, Truncate(p0), Truncate(p0))
  {
    RunAppend(m, [Pressed(p0)], DragEvents([p1]));
    assert Run(Press(m, p0), [Pressed(p0)][1..]) == Press(m, p0);
    RunDrags(Press(m, p0), [p1]);
    TwoPointDrags(Press(m, p0), [p1]);
  }

  /** Dragging with a point tool commits one segment per tick, from each
      drag point back to the previous one. */
  lemma {:induction false} PointDrags(m: Machine, pts: seq<Point>)
    requires m.dragging && NoNull(m.scene) && m.tool.PointTool?
    ensures Drags(m, pts).dragging && Drags(m, pts).tool == m.tool && Drags(m, pts).color == m.color
    ensures Drags(m, pts).scene == m.scene + Stroke(m.tool.pixels, m.color, m.prev, pts)
    ensures |pts| > 0 ==> PaintShape(Drags(m, pts).built, m.tool) == Some(LineSegment(m.tool.pixels, m.color, pts[|pts| - 1], PrevBeforeLast(m.prev, pts)))
    ensures |pts| == 0 ==> Drags(m, pts) == m
    decreases |pts|
  {
    if |pts| > 0 {
      var w, c := m.tool.pixels, m.color;
      var seg := Some(LineSegment(w, c, pts[0], m.prev));
      var m1 := Drag(m, pts[0]).next;
      assert Drags(m, pts) == Drags(m1, pts[1..]);
      assert m1.scene == m.scene + [seg];
      NoNullAppend(m.scene, [seg]);
      PointDrags(m1, pts[1..]);
      assert Stroke(w, c, m.prev, pts) == [seg] + Stroke(w, c, pts[0], pts[1..]);
      ConcatAssociative(m.scene, [seg], Stroke(w, c, pts[0], pts[1..]));
      if |pts| > 1 {
        assert PrevBeforeLast(m1.prev, pts[1..]) == PrevBeforeLast(m.prev, pts);
      }
    }
  }

  /** A point-tool gesture commits the trail of segments while dragging, and
      the release appends the last segment a second time. */
  lemma PointGesture(m: Machine, p0: Point, pts: seq<Point>, q: Point)
    requires !m.dragging && NoNull(m.scene) && m.tool.PointTool? && |pts| > 0
    ensures !Run(m, Gesture(p0, pts, q)).dragging
    ensures |Run(m, Gesture(p0, pts, q)).scene| == |m.scene| + |pts| + 1
    ensures Run(m, Gesture(p0, pts, q)).scene[..|m.scene|] == m.scene
    ensures forall i :: 0 <= i < |pts| ==>
              Run(m, Gesture(p0, pts, q)).scene[|m.scene| + i]
                == Some(LineSegment(m.tool.pixels, m.color, pts[i], if i == 0 then Truncate(p0) else pts[i - 1]))
    ensures Run(m, Gesture(p0, pts, q)).scene[|m.scene| + |pts|]
              == Run(m, Gesture(p0, pts, q)).scene[|m.scene| + |pts| - 1]
  {
    var stroke := Stroke(m.tool.pixels, m.color, Truncate(p0), pts);
    PointGestureScene(m, p0, pts, q);
    StrokeSegments(m.tool.pixels, m.color, Truncate(p0), pts);
    AppendIndices(m.scene, stroke, [stroke[|pts| - 1]]);
  }

  /** The shape list after a point-tool gesture, as one concatenation. */
  lemma PointGestureScene(m: Machine, p0: Point, pts: seq<Point>, q: Point)
    requires !m.dragging && NoNull(m.scene) && m.tool.PointTool? && |pts| > 0
    ensures !Run(m, Gesture(p0, pts, q)).dragging
    ensures Run(m, Gesture(p0, pts, q)).scene
              == m.scene + Stroke(m.tool.pixels, m.color, Truncate(p0), pts)
                 + [Stroke(m.tool.pixels, m.color, Truncate(p0), pts)[|pts| - 1]]
  {
    GestureRun(m, p0, pts, q);
    PointDrags(Press(m, p0), pts);
    StrokeSegments(m.tool.pixels, m.color, Truncate(p0), pts);
  }

  /** Where the parts of a three-part concatenation sit. */
  lemma AppendIndices<T>(a: seq<T>, b: seq<T>, c: seq<T>)
    ensures (a + b + c)[..|a|] == a
    ensures forall i :: 0 <= i < |b| ==> (a + b + c)[|a| + i] == b[i]
    ensures forall i :: 0 <= i < |c| ==> (a + b + c)[|a| + |b| + i] == c[i]
  {
  }

  /** A click (press then release, no drag) re-commits whatever the tool
      built last, so right after a gesture it duplicates that gesture's shape. */
  lemma ClickRecommits(m: Machine, p: Point, q: Point)
    requires !m.dragging && !m.tool.NoTool? && m.tool in m.built
    ensures Run(m, Gesture(p, [], q)).scene == m.scene + [Some(m.built[m.tool])]
  {
    GestureRun(m, p, [], q);
  }

  /** A click with a tool that has never built a shape (or with no tool
      selected) commits `null`; from then on every drag tick stops in the
      redraw: nothing is committed and the previous point stays put. */
  lemma ClickWithFreshToolJams(m: Machine, p: Point, q: Point, p2: Point, pts: seq<Point>)
    requires !m.dragging && (m.tool.NoTool? || m.tool !in m.built)
    ensures Run(m, Gesture(p, [], q)).scene == m.scene + [None]
    ensures Run(Run(m, Gesture(p, [], q)), [Pressed(p2)] + DragEvents(pts))
              == Press(Run(m, Gesture(p, [], q)), p2)
  {
    GestureRun(m, p, [], q);
    var m0 := Run(m, Gesture(p, [], q));
    assert m0.scene[|m.scene|].None?;
    RunAppend(m0, [Pressed(p2)], DragEvents(pts));
    RunDrags(Press(m0, p2), pts);
    JamDrags(Press(m0, p2), pts);
  }

  /** With a `null` in the list, drag ticks change nothing at all. */
  lemma {:induction false} JamDrags(m: Machine, pts: seq<Point>)
    requires !NoNull(m.scene)
    ensures Drags(m, pts) == m
    decreases |pts|
  {
    if |pts| > 0 {
      JamDrags(Drag(m, pts[0]).next, pts[1..]);
    }
  }

  /** Only the clear button removes a `null` from the list. */
  lemma JamLastsUntilClear(m: Machine, e: Event)
    requires !NoNull(m.scene)
    ensures NoNull(Step(m, e).next.scene) <==> e.ClearPicked?
  {
  }
}
