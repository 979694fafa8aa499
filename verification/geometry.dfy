/** Points, colours and the two pieces of arithmetic the paint program does:
    the integer cast applied to a press position, and the mirrored bounding
    box of the filled shapes. */
module Geometry {

  /** A canvas position; the program's `Point2D` (a pair of doubles). */
  datatype Point = Point(x: real, y: real)

  /** An opaque RGB colour with components in [0, 1]. */
  datatype Color = Rgb(red: real, green: real, blue: real)

  const White := Rgb(1.0, 1.0, 1.0)
  const Black := Rgb(0.0, 0.0, 0.0)
  const Red := Rgb(1.0, 0.0, 0.0)
  /** The toolkit's GREEN is the web colour #008000, not full-intensity green. */
  const Green := Rgb(0.0, 128.0 / 255.0, 0.0)
  const Blue := Rgb(0.0, 0.0, 1.0)
  const Cyan := Rgb(0.0, 1.0, 1.0)
  const Magenta := Rgb(1.0, 0.0, 1.0)
  const Gold := Rgb(0.95, 0.9, 0.0)

  /** The seven colour swatches, top to bottom. */
  const ColorPalette: seq<Color> := [Black, Red, Green, Blue, Cyan, Magenta, Gold]

  const CanvasWidth: int := 600
  const CanvasHeight: int := 480

  const IntMin: int := -0x8000_0000
  const IntMax: int := 0x7FFF_FFFF

  /** The Java narrowing cast `(int) d` of a double: rounds toward zero and
      saturates at the bounds of a 32-bit int. */
  function IntCast(d: real): (r: int)
    ensures IntMin <= r <= IntMax
    ensures IntMin as real <= d < (IntMax + 1) as real ==>
              if d >= 0.0 then r as real <= d < r as real + 1.0
              else r as real - 1.0 < d <= r as real
    ensures d >= (IntMax + 1) as real ==> r == IntMax
    ensures d < IntMin as real ==> r == IntMin
  {
    if d >= 0.0 then
      (if d.Floor > IntMax then IntMax else d.Floor)
    else
      var t := -((-d).Floor);
      if t < IntMin then IntMin else t
  }

  /** A point whose coordinates are whole numbers. */
  predicate Integral(p: Point) {
    p.x == p.x.Floor as real && p.y == p.y.Floor as real
  }

  /** A coordinate the cast does not saturate. */
  predicate InIntRange(d: real) {
    IntMin as real <= d < (IntMax + 1) as real
  }

  /** Coordinate `c` is `d` rounded toward zero: the whole number nearest
      zero that lies within one unit of `d`. */
  predicate TowardZero(d: real, c: real) {
    if d >= 0.0 then c <= d < c + 1.0 else c - 1.0 < d <= c
  }

  /** A press position cast to int coordinate by coordinate and widened back
      to a double, as the press handler stores it: a whole-number point, each
      coordinate rounded toward zero unless the cast saturates. */
  function Truncate(p: Point): (q: Point)
    ensures Integral(q)
    ensures InIntRange(p.x) ==> TowardZero(p.x, q.x)
    ensures InIntRange(p.y) ==> TowardZero(p.y, q.y)
    ensures !InIntRange(p.x) ==> q.x == (if p.x < 0.0 then IntMin else IntMax) as real
    ensures !InIntRange(p.y) ==> q.y == (if p.y < 0.0 then IntMin else IntMax) as real
  {
    Point(IntCast(p.x) as real, IntCast(p.y) as real)
  }

  /** The x, y, width and height handed to a fill call. */
  datatype Box = Box(x: real, y: real, w: real, h: real)

  /** The box of a filled shape built from `start` to `end`: it is mirrored
      around `start`, so its centre is `start` and one corner is `end`.
      Width and height are negative when `end` lies left of or above `start`. */
  function MirroredBox(start: Point, end: Point): (b: Box)
    ensures b.x + b.w / 2.0 == start.x && b.y + b.h / 2.0 == start.y
    ensures b.x + b.w == end.x && b.y + b.h == end.y
  {
    var dx := end.x - start.x;
    var dy := end.y - start.y;
    Box(start.x - dx, start.y - dy, dx * 2.0, dy * 2.0)
  }

  /** The centre and far corner of a mirrored box recover the points it was built from. */
  function Centre(b: Box): Point { Point(b.x + b.w / 2.0, b.y + b.h / 2.0) }
  function FarCorner(b: Box): Point { Point(b.x + b.w, b.y + b.h) }

  lemma MirroredBoxInverts(start: Point, end: Point)
    ensures Centre(MirroredBox(start, end)) == start
    ensures FarCorner(MirroredBox(start, end)) == end
  {
  }

  /** Two mirrored boxes are equal exactly when they were built from the same points. */
  lemma MirroredBoxInjective(s1: Point, e1: Point, s2: Point, e2: Point)
    ensures MirroredBox(s1, e1) == MirroredBox(s2, e2) <==> s1 == s2 && e1 == e2
  {
  }

  /** Anchor (10,10) dragged to (20,15) gives origin (0,5) and size (20,10). */
  lemma MirroredBoxExample()
    ensures MirroredBox(Point(10.0, 10.0), Point(20.0, 15.0)) == Box(0.0, 5.0, 20.0, 10.0)
  {
  }

  /** Dragging up and to the left of the anchor gives a negative size. */
  lemma MirroredBoxNegativeExample()
    ensures MirroredBox(Point(10.0, 10.0), Point(4.0, 7.0)) == Box(16.0, 13.0, -12.0, -6.0)
  {
  }
}
