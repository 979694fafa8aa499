# SimplePaintObjects drawing core in Dafny

This project models the drawing core of `SimplePaintObjects`, a small JavaFX paint
program. The user picks a colour and a shape tool from two palettes and drags on a
canvas. Pointer press, drag and release events are turned into shape objects that
are appended to an ordered shape list. The whole list is redrawn on every drag tick.

The model is functional. The program's fields become one immutable `Paint.Machine`:

- the dragging flag;
- the press anchor and the previous pointer position;
- each tool's last-built shape (its "paint shape");
- the current colour and shape tool;
- the shape list.

Every handler is a pure function that returns the next machine. Handlers that touch
the canvas also return the `GraphicsContext` calls they make, as a list of
`Shapes.Command` values in call order.

Modules:

- `Geometry`: points, palette colours, the Java `(int)` cast of a press coordinate,
  and the mirrored box of the filled shapes.
- `Shapes`: the five shape objects, the calls each one makes to draw itself, and the
  redraw of the list.
- `Tools`: the placeholder tool, the palette's shape tools, and the shape each tool
  builds.
- `Paint`: the event handlers, event dispatch, and the invariant of reachable states.
- `Sessions`: whole press–drag–release gestures.

The model keeps these behaviours of the code as written:

- The press anchor is cast to `int`, which truncates toward zero.
- The preview on a drag tick ends at the *previous* drag point, not the current one.
  So the first tick after a press builds the degenerate shape (anchor, anchor).
- Release ignores where the pointer was released. It appends the current tool's
  paint shape. That shape may be stale from an earlier gesture. It is `null` if the
  tool never built one, which includes the start-up placeholder tool.
- A release with the point tool appends again the segment already committed on the
  last drag tick.
- A release with no press before it still appends: `mouseReleased` does not check
  `dragging` (src/SimplePaintObjects.java:227-230).
- Once the list holds a `null`, every later drag tick during a drag throws inside the
  redraw loop. A tick while not dragging returns before the redraw.
  The handler stops after blanking the canvas and drawing the shapes before the
  `null`, and it commits nothing. Only the clear button ends this
  (`Sessions.ClickWithFreshToolJams`, `Sessions.JamLastsUntilClear`).

## Model

| member | source | states |
|---|---|---|
| Geometry.IntCast | src/SimplePaintObjects.java:175-176 | the press coordinate's cast lies in the 32-bit int range; in range it is the whole number toward zero within one unit of the double; out of range it saturates |
| Geometry.Truncate | src/SimplePaintObjects.java:175-182 | the stored press point has whole-number coordinates, each the press coordinate rounded toward zero and within one unit of it, or the int bound the cast saturates at |
| Geometry.MirroredBox | src/SimplePaintObjects.java:582-586 | the fill box of a filled shape has the press anchor as its centre and the end point as its far corner; its size is negative when the end lies left of or above the anchor |
| Geometry.MirroredBoxInverts | src/SimplePaintObjects.java:602-606 | the centre and far corner of the box recover the two points it was built from |
| Geometry.MirroredBoxInjective | src/SimplePaintObjects.java:625-629 | two boxes are equal if and only if they were built from the same anchor and end |
| Geometry.MirroredBoxExample | src/SimplePaintObjects.java:582-586 | anchor (10,10) with end (20,15) gives origin (0,5) and size (20,10) |
| Geometry.MirroredBoxNegativeExample | src/SimplePaintObjects.java:582-586 | an end up and to the left of the anchor gives a negative width and height |
| Shapes.Draw | src/SimplePaintObjects.java:503-631 | each shape first sets its pen to its own values (line width and stroke colour for segments and lines, fill colour for the filled shapes) and then makes exactly one painting call: a stroke from start to end for segments and lines, and for rectangles, ovals and rounded rectangles a fill of the box mirrored around the start, with 50×50 corner arcs for the rounded rectangle |
| Shapes.DrawIdentifiesShape | src/SimplePaintObjects.java:521-558 | two shapes make the same calls if and only if they are equal, or one is a free-hand segment and the other a straight line with the same width, colour and points |
| Shapes.Render | src/SimplePaintObjects.java:164-168 | a redraw of the list runs to the end if and only if the list holds no `null` |
| Shapes.RenderAppend | src/SimplePaintObjects.java:164-168 | redraw follows list order: the calls for a list are the calls for its front followed by those for its back |
| Shapes.RenderStopsAtNull | src/SimplePaintObjects.java:164-168 | a redraw that meets a `null` has drawn exactly the shapes before it and does not complete |
| Shapes.RenderThree | src/SimplePaintObjects.java:164-168 | after appending A, B and C, redraw draws A, then B, then C |
| Shapes.DrawShapes | src/SimplePaintObjects.java:164-168 | the index loop over the list makes the same calls as the list-order redraw, and completes if and only if no entry is `null` |
| Tools.Build | src/SimplePaintObjects.java:354-501 | every real tool builds a shape carrying the given colour and points, and the placeholder tool builds none; the shape's kind identifies the tool, lines have width 2, and only point-tool shapes commit on every drag tick |
| Tools.PaintShapeRemembersBuild | src/SimplePaintObjects.java:295-501 | a tool's paint shape is `null` before its first draw and always `null` for the placeholder tool; after a draw it is exactly the shape that draw built, and the other tools' paint shapes are unchanged |
| Tools.BuildRecoversShape | src/SimplePaintObjects.java:354-501 | every shape, apart from a line with a width other than 2, is exactly what its own tool builds from the shape's colour and points |
| Paint.Press | src/SimplePaintObjects.java:170-183 | a press while dragging changes nothing; a press from idle starts dragging with anchor and previous point both equal to the press point cast to whole numbers, within one unit of it for on-canvas points; the list, tool shapes and selections are untouched |
| Paint.Drag | src/SimplePaintObjects.java:185-225 | a drag when not dragging changes nothing; a tick blanks the canvas first; a `null` in the list makes the tick change nothing; otherwise the previous point becomes the tick's point, only a point tool appends exactly one segment (current point, previous point, tool width, current colour), and the current tool's paint shape becomes what it builds from (current or anchor, previous point), staying `null` for the placeholder tool; other tools' shapes are untouched |
| Paint.DragCanvas | src/SimplePaintObjects.java:195-219 | a tick's canvas calls are: blank, redraw of the list in order, then the preview shape on top; when the list holds a `null` they end with the shapes before it and no preview is drawn |
| Paint.Release | src/SimplePaintObjects.java:227-230 | release stops dragging and appends exactly one entry, the current tool's paint shape, which is `null` exactly when that tool is the placeholder or never built one; nothing else changes |
| Paint.PlaceholderReleasesNull | src/SimplePaintObjects.java:299-301 | with the start-up placeholder tool current, a release appends `null` |
| Paint.ReleaseIgnoresPoint | src/SimplePaintObjects.java:227-230 | the release position has no effect |
| Paint.Clear | src/SimplePaintObjects.java:107-111 | clear blanks the canvas and empties the list; the drag state, tool shapes and selections keep their values |
| Paint.SelectColor | src/SimplePaintObjects.java:232-239 | picking a colour sets the current colour and leaves the tool and everything else unchanged |
| Paint.SelectTool | src/SimplePaintObjects.java:241-248 | picking a shape tool sets the current tool and leaves the colour and everything else unchanged |
| Paint.SelectionsIndependent | src/SimplePaintObjects.java:232-248 | the last colour or tool picked wins, and colour and tool picks commute |
| Paint.InitialConsistent | src/SimplePaintObjects.java:48-56 | the start-up state satisfies the reachable-state invariant |
| Paint.StepKeepsConsistent | src/SimplePaintObjects.java:170-248 | every handler, fed palette events, keeps the invariant: selections come from the palettes, each tool holds only a shape it built, and every shape held anywhere is buildable by a palette tool with a palette colour |
| Paint.RunKeepsConsistent | src/SimplePaintObjects.java:170-248 | any sequence of palette events keeps the invariant |
| Paint.CommittedWidths | src/SimplePaintObjects.java:128-137 | in any reachable state every committed segment or line is 2, 4, 6 or 8 pixels wide, and every straight line is 2 pixels wide |
| Sessions.Stroke | src/SimplePaintObjects.java:197-203 | a point-tool drag through n points commits n entries, none of them `null` |
| Sessions.StrokeSegments | src/SimplePaintObjects.java:192-203 | the i-th committed segment runs from the i-th drag point back to the one before it (the press point for the first), so each segment ends where the previous one starts |
| Sessions.TwoPointDrags | src/SimplePaintObjects.java:206-222 | dragging with a line, rectangle, oval or rounded-rectangle tool commits nothing and leaves the tool's paint shape running from the anchor to the next-to-last drag point |
| Sessions.TwoPointGesture | src/SimplePaintObjects.java:170-230 | press, one or more ticks and release with a two-point tool append exactly one shape, from the cast press point to the next-to-last drag point, whatever the release point |
| Sessions.FirstTickDegenerate | src/SimplePaintObjects.java:178-219 | the first tick after a press builds the shape from the anchor to itself |
| Sessions.PointDrags | src/SimplePaintObjects.java:192-222 | dragging with a point tool appends the stroke's segments in order, and the tool's paint shape is the last segment |
| Sessions.PointGesture | src/SimplePaintObjects.java:197-230 | a point-tool gesture appends the stroke and then its last segment a second time |
| Sessions.ClickRecommits | src/SimplePaintObjects.java:227-230 | a press and release without a drag appends the tool's shape from its previous gesture again |
| Sessions.ClickWithFreshToolJams | src/SimplePaintObjects.java:164-230 | a click with the placeholder tool, or a tool that never built a shape, appends `null`; after it, drag ticks following a press leave the state exactly as the press left it |
| Sessions.JamLastsUntilClear | src/SimplePaintObjects.java:107-111 | once the list holds a `null`, the list keeps one after every event except clear |

## Left out

- Window, palette and layout construction is not modelled: `start`, `main`, the
  `display*` and `create*Tool*` methods, padding and backgrounds. The palettes they
  build are kept as the constants `ColorPalette` and `ShapeToolPalette`.
- Tool widget visuals are not modelled: activate/deactivate scaling, the clear
  button's label and font, and the icon nodes in the tool constructors.
- The handler re-registration inside `myClearAction` is not modelled. Only its
  canvas-blanking calls are kept (`BlankCanvas`).
- `GraphicsContext` is not executed. Calls are recorded in order as `Command`
  values. The toolkit's own meaning of them, such as a `null` paint being ignored,
  is outside the model.
- Coordinates are exact `real`s rather than `double`s, so the rounding of the
  mirrored-box arithmetic is not modelled.
- Geometry.IntCast: the cast of a NaN (which gives 0) is not modelled, because a
  `real` is never NaN.
- Colours are exact RGB triples without opacity.
- The exception thrown for a `null` list entry is modelled as the drag handler
  stopping at that point. How the toolkit reports the exception is not modelled.
- `FilledPolyShape` is never built by itself. Its inherited `dragUpdate` of
  `false` is folded into the rectangle, oval and rounded-rectangle variants.
- Pointer events come from the window as `Paint.Event` values, and clicks on the
  clear button become `ClearPicked`. The event wiring itself is not modelled.
