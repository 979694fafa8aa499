/** The shape tools of the palette and the shape each one builds. */
module Tools {
  import opened Wrappers
  import opened Geometry
  import opened Shapes

  /** A shape tool. `NoTool` is the placeholder tool selected at start-up,
      whose `draw` does nothing and whose paint shape is always `null`.
      Each point tool is told apart by its pixel width. */
  datatype Tool =
    | NoTool
    | PointTool(pixels: int)
    | LineTool
    | RectangleTool
    | OvalTool
    | RoundedRectangleTool
  {
    /** The tools whose drag preview runs from the press anchor to the
        previous drag point. */
    predicate TwoPoint() { LineTool? || RectangleTool? || OvalTool? || RoundedRectangleTool? }
  }

  /** The fixed stroke width of the line tool. */
  const LineWidth: int := 2

  /** The shape tools of the palette, top to bottom: four point tools of
      widths 2, 4, 6 and 8, then line, rectangle, oval and rounded rectangle. */
  const ShapeToolPalette: seq<Tool> :=
    [PointTool(2), PointTool(4), PointTool(6), PointTool(8),
     LineTool, RectangleTool, OvalTool, RoundedRectangleTool]

  /** The tool a shape can have come from. */
  function MadeBy(s: Shape): Tool {
    match s
    case LineSegment(w, _, _, _) => PointTool(w)
    case LineShape(_, _, _, _) => LineTool
    case RectangleShape(_, _, _) => RectangleTool
    case OvalShape(_, _, _) => OvalTool
    case RoundedRectangleShape(_, _, _) => RoundedRectangleTool
  }

  /** The shape a tool's `draw` builds from a colour and two points, which the
      tool then keeps as its paint shape; the placeholder tool builds none. */
  function Build(t: Tool, color: Option<Color>, start: Point, end: Point): (r: Option<Shape>)
    ensures r.None? <==> t.NoTool?
    ensures r.Some? ==> MadeBy(r.value) == t
    ensures r.Some? ==> r.value.color == color && r.value.start == start && r.value.end == end
    ensures r.Some? && r.value.LineShape? ==> r.value.width == LineWidth
    ensures r.Some? ==> (r.value.DragUpdate() <==> t.PointTool?)
  {
    match t
    case NoTool => None
    case PointTool(w) => Some(LineSegment(w, color, start, end))
    case LineTool => Some(LineShape(LineWidth, color, start, end))
    case RectangleTool => Some(RectangleShape(color, start, end))
    case OvalTool => Some(OvalShape(color, start, end))
    case RoundedRectangleTool => Some(RoundedRectangleShape(color, start, end))
  }

  /** Every shape is what its own tool builds from the shape's colour and points,
      except a line whose width is not the line tool's. */
  lemma BuildRecoversShape(s: Shape)
    requires s.LineShape? ==> s.width == LineWidth
    ensures Build(MadeBy(s), s.color, s.start, s.end) == Some(s)
  {
  }

  /** The paint shape of tool `t` given the shapes each tool last built:
      `null` (`None`) until the tool has built one, and always `null` for
      the placeholder tool. */
  function PaintShape(built: map<Tool, Shape>, t: Tool): Option<Shape> {
    if t.NoTool? || t !in built then None else Some(built[t])
  }

  /** A tool's paint shape is the shape its last `draw` built: `null` before
      any draw and for the placeholder tool, then exactly what it built, while
      the other tools keep theirs. */
  lemma PaintShapeRemembersBuild(built: map<Tool, Shape>, t: Tool, color: Option<Color>, start: Point, end: Point)
    ensures PaintShape(map[], t) == None && PaintShape(built, NoTool) == None
    ensures Build(t, color, start, end).Some? ==>
              var s := Build(t, color, start, end).value;
              && PaintShape(built[t := s], t) == Some(s)
              && forall u :: u != t ==> PaintShape(built[t := s], u) == PaintShape(built, u)
  {
  }
}
