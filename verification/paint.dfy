/** The paint program's event handlers: pointer press, drag and release on
    the canvas, the colour and shape-tool selections, and the clear button.
    Each handler is a pure function from the program state to the next state
    and the graphics-context calls it makes. */
module Paint {
  import opened Wrappers
  import opened Geometry
  import opened Shapes
  import opened Tools

  /** The program state the handlers read and write.
      `anchor` is where the current drag was pressed and `prev` the last
      pointer position seen; `built` holds, for each tool that has built a
      shape, the shape it built last (its paint shape); `color` and `tool`
      are the current selections (`None`/`NoTool` before the first one);
      `scene` is the list of committed shapes, in paint order. */
  datatype Machine = Machine(
    dragging: bool,
    anchor: Point,
    prev: Point,
    built: map<Tool, Shape>,
    color: Option<Color>,
    tool: Tool,
    scene: Scene)

  /** Start-up: not dragging, placeholder colour and tool, empty list. */
  const Initial: Machine :=
    Machine(false, Point(0.0, 0.0), Point(0.0, 0.0), map[], None, NoTool, [])

  /** A handler's result: the next state and the calls made on the canvas. */
  datatype Outcome = Outcome(next: Machine, canvas: seq<Command>)

  /** Pointer pressed at `at`. Ignored while a drag is in progress; otherwise
      starts a drag whose anchor and previous point are both `at` cast to int. */
  function Press(m: Machine, at: Point): (r: Machine)
    ensures m.dragging ==> r == m
    ensures !m.dragging ==> r.dragging && r.anchor == r.prev && r.anchor == Truncate(at)
    ensures !m.dragging ==> Integral(r.anchor)
    ensures !m.dragging && 0.0 <= at.x <= IntMax as real && 0.0 <= at.y <= IntMax as real ==>
              r.anchor.x <= at.x < r.anchor.x + 1.0 && r.anchor.y <= at.y < r.anchor.y + 1.0
    ensures r.scene == m.scene && r.built == m.built && r.color == m.color && r.tool == m.tool
  {
    if m.dragging then m
    else
      var a := Truncate(at);
      m.(dragging := true, prev := a, anchor := a)
  }

  /** The two points the current tool's `draw` receives on a drag tick to `at`:
      a point tool gets (`at`, previous point), every other tool gets
      (anchor, previous point). */
  function DragEnds(m: Machine, at: Point): (Point, Point) {
    if m.tool.PointTool? then (at, m.prev) else (m.anchor, m.prev)
  }

  /** Pointer dragged to `at`. Ignored when no drag is in progress. Otherwise
      blanks the canvas and redraws the list; if the list holds a `null`
      the redraw throws there and the handler stops with nothing else done.
      Else the current tool builds and draws its preview, a shape that
      commits on every tick is appended, and `at` becomes the previous point. */
  function Drag(m: Machine, at: Point): (r: Outcome)
    ensures !m.dragging ==> r == Outcome(m, [])
    ensures m.dragging ==> |r.canvas| >= |BlankCanvas| && r.canvas[..|BlankCanvas|] == BlankCanvas
    ensures m.dragging && !NoNull(m.scene) ==> r.next == m
    ensures m.dragging && NoNull(m.scene) ==>
              && r.next.dragging && r.next.prev == at && r.next.anchor == m.anchor
              && r.next.color == m.color && r.next.tool == m.tool
    ensures m.dragging && NoNull(m.scene) && m.tool.PointTool? ==>
              r.next.scene == m.scene + [Some(LineSegment(m.tool.pixels, m.color, at, m.prev))]
    ensures m.dragging && !m.tool.PointTool? ==> r.next.scene == m.scene
    ensures m.dragging && NoNull(m.scene) ==>
              PaintShape(r.next.built, m.tool) == Build(m.tool, m.color, DragEnds(m, at).0, DragEnds(m, at).1)
    ensures forall t :: t != m.tool ==> PaintShape(r.next.built, t) == PaintShape(m.built, t)
  {
    if !m.dragging then Outcome(m, [])
    else
      var redraw := Render(m.scene);
      var cleared := BlankCanvas + redraw.commands;
      if !redraw.completed then Outcome(m, cleared)
      else
        var (start, end) := DragEnds(m, at);
        match Build(m.tool, m.color, start, end)
        case None => Outcome(m.(prev := at), cleared)
        case Some(s) =>
          var scene := if s.DragUpdate() then m.scene + [Some(s)] else m.scene;
          Outcome(m.(prev := at, built := m.built[m.tool := s], scene := scene), cleared + Draw(s))
  }

  /** The canvas calls of a drag tick: blank, redraw the list in order, then
      draw the preview on top; when the redraw stops at a `null`, the calls
      end with the shapes before it. */
  lemma DragCanvas(m: Machine, at: Point)
    requires m.dragging
    ensures Drag(m, at).canvas ==
              BlankCanvas + Render(m.scene).commands
              + (if !Render(m.scene).completed then []
                 else match Build(m.tool, m.color, DragEnds(m, at).0, DragEnds(m, at).1)
                 case None => []
                 case Some(s) => Draw(s))
  {
  }

  /** Pointer released, wherever: the drag ends and the current tool's paint
      shape is appended, whether or not this drag built it, and as `null`
      when the tool never built one. */
  function Release(m: Machine, at: Point): (r: Machine)
    ensures !r.dragging
    ensures |r.scene| == |m.scene| + 1 && r.scene[..|m.scene|] == m.scene
    ensures r.scene[|m.scene|] == PaintShape(m.built, m.tool)
    ensures r.scene[|m.scene|].None? <==> m.tool.NoTool? || m.tool !in m.built
    ensures r.anchor == m.anchor && r.prev == m.prev && r.built == m.built
    ensures r.color == m.color && r.tool == m.tool
  {
    m.(dragging := false, scene := m.scene + [PaintShape(m.built, m.tool)])
  }

  /** With the placeholder tool current, a release appends `null`. */
  lemma PlaceholderReleasesNull(m: Machine, q: Point)
    requires m.tool.NoTool?
    ensures Release(m, q).scene == m.scene + [None]
  {
  }

  /** The release point plays no part. */
  lemma ReleaseIgnoresPoint(m: Machine, p: Point, q: Point)
    ensures Release(m, p) == Release(m, q)
  {
  }

  /** The clear button: blank the canvas and empty the list; nothing else changes. */
  function Clear(m: Machine): (r: Outcome)
    ensures r.next.scene == [] && r.canvas == BlankCanvas
    ensures r.next.dragging == m.dragging && r.next.anchor == m.anchor && r.next.prev == m.prev
    ensures r.next.built == m.built && r.next.color == m.color && r.next.tool == m.tool
  {
    Outcome(m.(scene := []), BlankCanvas)
  }

  /** A colour swatch pressed: only the current colour changes. */
  function SelectColor(m: Machine, c: Color): (r: Machine)
    ensures r.color == Some(c) && r.tool == m.tool
    ensures r.dragging == m.dragging && r.anchor == m.anchor && r.prev == m.prev
    ensures r.built == m.built && r.scene == m.scene
  {
    m.(color := Some(c))
  }

  /** A shape tool pressed: only the current tool changes. */
  function SelectTool(m: Machine, t: Tool): (r: Machine)
    ensures r.tool == t && r.color == m.color
    ensures r.dragging == m.dragging && r.anchor == m.anchor && r.prev == m.prev
    ensures r.built == m.built && r.scene == m.scene
  {
    m.(tool := t)
  }

  /** The last selection wins, and the two selections are independent. */
  lemma SelectionsIndependent(m: Machine, c1: Color, c2: Color, t1: Tool, t2: Tool)
    ensures SelectColor(SelectColor(m, c1), c2) == SelectColor(m, c2)
    ensures SelectTool(SelectTool(m, t1), t2) == SelectTool(m, t2)
    ensures SelectTool(SelectColor(m, c1), t1) == SelectColor(SelectTool(m, t1), c1)
  {
  }

  /** The events the program's window delivers to the handlers. */
  datatype Event =
    | Pressed(at: Point)
    | Dragged(at: Point)
    | Released(at: Point)
    | ColorPicked(color: Color)
    | ToolPicked(tool: Tool)
    | ClearPicked

  function Step(m: Machine, e: Event): Outcome {
    match e
    case Pressed(p) => Outcome(Press(m, p), [])
    case Dragged(p) => Drag(m, p)
    case Released(p) => Outcome(Release(m, p), [])
    case ColorPicked(c) => Outcome(SelectColor(m, c), [])
    case ToolPicked(t) => Outcome(SelectTool(m, t), [])
    case ClearPicked => Clear(m)
  }

  /** The state after a sequence of events, one handled at a time. */
  function Run(m: Machine, es: seq<Event>): Machine
    decreases |es|
  {
    if |es| == 0 then m else Run(Step(m, es[0]).next, es[1..])
  }

  /** An event the palettes can produce: only palette colours and tools are selected. */
  predicate FromPalette(e: Event) {
    (e.ColorPicked? ==> e.color in ColorPalette) && (e.ToolPicked? ==> e.tool in ShapeToolPalette)
  }

  /** A shape some palette tool can build with a palette colour (or the
      placeholder colour). */
  predicate PaletteShape(s: Shape) {
    && MadeBy(s) in ShapeToolPalette
    && (s.LineShape? ==> s.width == LineWidth)
    && (s.color.Some? ==> s.color.value in ColorPalette)
  }

  /** What every reachable state satisfies: selections come from the
      palettes, each tool remembers only a shape it built, and every shape
      anywhere is one a palette tool can build. */
  predicate Consistent(m: Machine) {
    && (m.tool.NoTool? || m.tool in ShapeToolPalette)
    && (m.color.Some? ==> m.color.value in ColorPalette)
    && (forall t :: t in m.built ==> MadeBy(m.built[t]) == t && PaletteShape(m.built[t]))
    && (forall i :: 0 <= i < |m.scene| && m.scene[i].Some? ==> PaletteShape(m.scene[i].value))
  }

  lemma InitialConsistent()
    ensures Consistent(Initial)
  {
  }

  lemma StepKeepsConsistent(m: Machine, e: Event)
    requires Consistent(m) && FromPalette(e)
    ensures Consistent(Step(m, e).next)
  {
  }

  /** Every state reached from a consistent one by palette events is consistent. */
  lemma {:induction false} RunKeepsConsistent(m: Machine, es: seq<Event>)
    requires Consistent(m)
    requires forall i :: 0 <= i < |es| ==> FromPalette(es[i])
    ensures Consistent(Run(m, es))
    decreases |es|
  {
    if |es| > 0 {
      StepKeepsConsistent(m, es[0]);
      RunKeepsConsistent(Step(m, es[0]).next, es[1..]);
    }
  }

  /** In particular every free-hand segment ever committed is 2, 4, 6 or 8
      pixels wide and every straight line 2. */
  lemma {:induction false} CommittedWidths(es: seq<Event>, i: nat)
    requires forall k :: 0 <= k < |es| ==> FromPalette(es[k])
    requires i < |Run(Initial, es).scene| && Run(Initial, es).scene[i].Some?
    ensures Run(Initial, es).scene[i].value.Stroked() ==>
              Run(Initial, es).scene[i].value.width in {2, 4, 6, 8}
    ensures Run(Initial, es).scene[i].value.LineShape? ==>
              Run(Initial, es).scene[i].value.width == LineWidth
  {
    InitialConsistent();
    RunKeepsConsistent(Initial, es);
  }
}
