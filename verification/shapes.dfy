/** The drawable shapes, the graphics-context calls each one makes, and the
    redraw of the whole shape list. */
module Shapes {
  import opened Wrappers
  import opened Geometry

  /** One call on the canvas's graphics context, in the order it is made.
      `SetFill`/`SetStroke` carry `None` when the program passes a `null` colour. */
  datatype Command =
    | SetFill(fill: Option<Color>)
    | SetStroke(stroke: Option<Color>)
    | SetLineWidth(lineWidth: real)
    | StrokeLine(from: Point, to: Point)
    | FillRect(rect: Box)
    | FillOval(oval: Box)
    | FillRoundRect(round: Box, arcWidth: real, arcHeight: real)
  {
    /** A call that puts pixels on the canvas (as opposed to setting a pen attribute). */
    predicate Paints() {
      StrokeLine? || FillRect? || FillOval? || FillRoundRect?
    }
  }

  /** The corner arcs of every rounded rectangle. */
  const ArcWidth: int := 50
  const ArcHeight: int := 50

  /** The closed set of shape objects. `LineSegment` is the free-hand piece
      a point tool makes; `LineShape` is the straight line of the line tool. */
  datatype Shape =
    | LineSegment(width: int, color: Option<Color>, start: Point, end: Point)
    | LineShape(width: int, color: Option<Color>, start: Point, end: Point)
    | RectangleShape(color: Option<Color>, start: Point, end: Point)
    | OvalShape(color: Option<Color>, start: Point, end: Point)
    | RoundedRectangleShape(color: Option<Color>, start: Point, end: Point)
  {
    predicate Stroked() { LineSegment? || LineShape? }

    /** Whether the shape is committed to the list on every drag tick. */
    predicate DragUpdate() { LineSegment? }
  }

  /** The calls a shape makes to draw itself: it first sets its pen (line
      width and stroke colour, or fill colour) to its own values and then
      makes exactly one painting call. */
  function Draw(s: Shape): (r: seq<Command>)
    ensures |r| == (if s.Stroked() then 3 else 2)
    ensures r[|r| - 1].Paints()
    ensures forall i :: 0 <= i < |r| - 1 ==> !r[i].Paints()
    ensures s.Stroked() ==> r[0] == SetLineWidth(s.width as real) && r[1] == SetStroke(s.color)
    ensures !s.Stroked() ==> r[0] == SetFill(s.color)
    ensures s.Stroked() ==> r[2] == StrokeLine(s.start, s.end)
    ensures s.RectangleShape? ==> r[1] == FillRect(MirroredBox(s.start, s.end))
    ensures s.OvalShape? ==> r[1] == FillOval(MirroredBox(s.start, s.end))
    ensures s.RoundedRectangleShape? ==> r[1] == FillRoundRect(MirroredBox(s.start, s.end), 50.0, 50.0)
  {
    match s
    case LineSegment(w, c, a, b) => [SetLineWidth(w as real), SetStroke(c), StrokeLine(a, b)]
    case LineShape(w, c, a, b) => [SetLineWidth(w as real), SetStroke(c), StrokeLine(a, b)]
    case RectangleShape(c, a, b) => [SetFill(c), FillRect(MirroredBox(a, b))]
    case OvalShape(c, a, b) => [SetFill(c), FillOval(MirroredBox(a, b))]
    case RoundedRectangleShape(c, a, b) =>
      [SetFill(c), FillRoundRect(MirroredBox(a, b), ArcWidth as real, ArcHeight as real)]
  }

  /** A free-hand segment and a straight line with the same fields draw the same. */
  predicate StrokeTwins(a: Shape, b: Shape) {
    a.Stroked() && b.Stroked() && a.width == b.width && a.color == b.color
    && a.start == b.start && a.end == b.end
  }

  /** What a shape draws identifies it, up to the segment/line twin. */
  lemma DrawIdentifiesShape(a: Shape, b: Shape)
    ensures Draw(a) == Draw(b) <==> a == b || StrokeTwins(a, b)
  {
  }

  /** The calls that blank the canvas: a white fill of the whole canvas. */
  const BlankCanvas: seq<Command> :=
    [SetFill(Some(White)), FillRect(Box(0.0, 0.0, CanvasWidth as real, CanvasHeight as real))]

  /** The shape list: `None` is a `null` entry. */
  type Scene = seq<Option<Shape>>

  /** The list holds no `null` entry. */
  predicate NoNull(scene: Scene) {
    None !in scene
  }

  /** The calls made by redrawing a shape list, and whether the redraw got to
      the end: it stops, with an exception, at the first `null` entry. */
  datatype Redraw = Redraw(commands: seq<Command>, completed: bool)

  function Render(scene: Scene): (r: Redraw)
    ensures r.completed <==> NoNull(scene)
  {
    if |scene| == 0 then Redraw([], true)
    else match scene[0]
      case None => Redraw([], false)
      case Some(s) =>
        var rest := Render(scene[1..]);
        Redraw(Draw(s) + rest.commands, rest.completed)
  }

  /** Redrawing visits the shapes in list order: the calls for a list are the
      calls for its front followed by the calls for its back. */
  lemma {:induction false} RenderAppend(front: Scene, back: Scene)
    requires NoNull(front)
    ensures Render(front + back).commands == Render(front).commands + Render(back).commands
    ensures Render(front + back).completed == Render(back).completed
    decreases |front|
  {
    if |front| == 0 {
      assert front + back == back;
    } else {
      var s, tail := front[0].value, front[1..];
      assert front == [Some(s)] + tail;
      assert NoNull(tail);
      RenderAppend(tail, back);
      RenderConsAppend(s, tail, back);
    }
  }

  /** One step of the list-order redraw: a shape in front of a list whose
      redraw splits at `back` keeps the split. */
  lemma RenderConsAppend(s: Shape, tail: Scene, back: Scene)
    requires Render(tail + back).commands == Render(tail).commands + Render(back).commands
    ensures Render([Some(s)] + tail + back).commands
              == Render([Some(s)] + tail).commands + Render(back).commands
  {
    var whole, front := [Some(s)] + tail + back, [Some(s)] + tail;
    assert whole[0] == Some(s) && whole[1..] == tail + back;
    assert front[0] == Some(s) && front[1..] == tail;
    ConcatAssociative(Draw(s), Render(tail).commands, Render(back).commands);
  }

  lemma ConcatAssociative<T>(x: seq<T>, y: seq<T>, z: seq<T>)
    ensures x + (y + z) == (x + y) + z
  {
  }

  /** A redraw that meets a `null` entry has drawn exactly the shapes before it. */
  lemma {:induction false} RenderStopsAtNull(scene: Scene, i: nat)
    requires i < |scene| && scene[i].None? && NoNull(scene[..i])
    ensures Render(scene) == Redraw(Render(scene[..i]).commands, false)
  {
    assert scene == scene[..i] + scene[i..];
    RenderAppend(scene[..i], scene[i..]);
  }

  /** Shapes A, B, C drawn in that order. */
  lemma RenderThree(a: Shape, b: Shape, c: Shape)
    ensures Render([Some(a), Some(b), Some(c)]).commands == Draw(a) + Draw(b) + Draw(c)
  {
    var s := [Some(a), Some(b), Some(c)];
    assert s[1..] == [Some(b), Some(c)];
    assert s[1..][1..] == [Some(c)];
    assert s[1..][1..][1..] == [];
    assert Render([Some(c)]).commands == Draw(c);
    assert Render([Some(b), Some(c)]).commands == Draw(b) + Draw(c);
  }

  /** The program's redraw loop: draw each shape of the list in index order. */
  method DrawShapes(scene: Scene) returns (cmds: seq<Command>, completed: bool)
    ensures completed <==> NoNull(scene)
    ensures Redraw(cmds, completed) == Render(scene)
  {
    cmds := [];
    var i := 0;
    while i < |scene|
      invariant 0 <= i <= |scene|
      invariant NoNull(scene[..i])
      invariant Render(scene[..i]) == Redraw(cmds, true)
    {
      match scene[i]
      case None =>
        RenderStopsAtNull(scene, i);
        return cmds, false;
      case Some(s) =>
        assert scene[..i + 1] == scene[..i] + [Some(s)];
        RenderAppend(scene[..i], [Some(s)]);
        assert [Some(s)][1..] == [];
        cmds := cmds + Draw(s);
        i := i + 1;
    }
    assert scene[..i] == scene;
    completed := true;
  }
}
