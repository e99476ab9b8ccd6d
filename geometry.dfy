/** The grid of dots, lines between dots and the boxes they bound (dots.py:8, 27, 73-76, 133). */
module Geometry {

  /** Number of dots along each side of the square grid. */
  const GridSize: int := 10

  /** A dot, named by its column and row: dots[row][col] in the program. */
  datatype Dot = Dot(col: int, row: int)

  /** The ordering the program uses on dots: Python's tuple order on their pixel
      positions, which is lexicographic on (col, row) (see PixelOrder). */
  predicate DotLe(a: Dot, b: Dot) {
    a.col < b.col || (a.col == b.col && a.row <= b.row)
  }

  /** Python's min and max on two dots. */
  function MinDot(a: Dot, b: Dot): Dot {
    if DotLe(a, b) then a else b
  }

  function MaxDot(a: Dot, b: Dot): Dot {
    if DotLe(b, a) then a else b
  }

  /** A line between two dots, smaller endpoint first when canonical. */
  datatype Line = Line(lo: Dot, hi: Dot)

  /** The line drawn between two tapped dots: (min(a, b), max(a, b)). */
  function Canon(a: Dot, b: Dot): (l: Line)
    ensures DotLe(l.lo, l.hi)
    ensures (l.lo == a && l.hi == b) || (l.lo == b && l.hi == a)
  {
    Line(MinDot(a, b), MaxDot(a, b))
  }

  /** A line whose two endpoints are grid neighbours: one step along one axis. */
  predicate IsUnit(l: Line) {
    var dc := l.hi.col - l.lo.col;
    var dr := l.hi.row - l.lo.row;
    (dr == 0 && (dc == 1 || dc == -1)) || (dc == 0 && (dr == 1 || dr == -1))
  }

  /** A box, named by the column and row of its top-left dot. */
  datatype Box = Box(x: int, y: int)

  /** The boxes check_box may be asked about: 0 <= x, y < GridSize - 1. */
  predicate InBoxRange(b: Box) {
    0 <= b.x < GridSize - 1 && 0 <= b.y < GridSize - 1
  }

  /** The four sides of a box, as check_box and undo build them. */
  function Top(b: Box): Line {
    Line(Dot(b.x, b.y), Dot(b.x + 1, b.y))
  }

  function Bottom(b: Box): Line {
    Line(Dot(b.x, b.y + 1), Dot(b.x + 1, b.y + 1))
  }

  function Left(b: Box): Line {
    Line(Dot(b.x, b.y), Dot(b.x, b.y + 1))
  }

  function Right(b: Box): Line {
    Line(Dot(b.x + 1, b.y), Dot(b.x + 1, b.y + 1))
  }

  predicate IsSide(l: Line, b: Box) {
    l == Top(b) || l == Bottom(b) || l == Left(b) || l == Right(b)
  }

  /** The boxes the placement loop checks after the second dot d is tapped:
      (i, j), (i-1, j), (i, j-1), (i-1, j-1). They are the four boxes with d as a
      corner, and they are pairwise distinct. */
  function Neighbours(d: Dot): (bs: seq<Box>)
    ensures |bs| == 4
    ensures forall k :: 0 <= k < 4 ==> bs[k].x <= d.col <= bs[k].x + 1 && bs[k].y <= d.row <= bs[k].y + 1
    ensures forall k, k' :: 0 <= k < k' < 4 ==> bs[k] != bs[k']
  {
    [Box(d.col, d.row), Box(d.col - 1, d.row), Box(d.col, d.row - 1), Box(d.col - 1, d.row - 1)]
  }

  /** Every side that check_box builds is already in min-first form, so it
      compares equal to the line placed between the same two dots. */
  lemma SidesAreCanonical(b: Box, l: Line)
    requires IsSide(l, b)
    ensures Canon(l.lo, l.hi) == l && Canon(l.hi, l.lo) == l
    ensures IsUnit(l)
  {
  }

  /** Tapping the two dots in either order draws the same line. */
  lemma CanonSymmetric(a: Dot, b: Dot)
    ensures Canon(a, b) == Canon(b, a)
  {
  }

  /** A line drawn between a and s that is a side of box b has s as a corner,
      so b is one of the boxes the placement loop checks around s. */
  lemma {:induction false} SideIsNeighbour(a: Dot, s: Dot, b: Box)
    requires IsSide(Canon(a, s), b)
    ensures b in Neighbours(s)
  {
    var ns := Neighbours(s);
    var l := Canon(a, s);
    assert s == l.lo || s == l.hi;
    if s == Dot(b.x, b.y) {
      assert b == ns[0];
    } else if s == Dot(b.x + 1, b.y) {
      assert b == ns[1];
    } else if s == Dot(b.x, b.y + 1) {
      assert b == ns[2];
    } else {
      assert s == Dot(b.x + 1, b.y + 1);
      assert b == ns[3];
    }
  }

  /** Pixel position of a dot: (DOT_SIZE + col * DOT_SPACING, DOT_SIZE + row * DOT_SPACING). */
  function Pixel(d: Dot, dotSize: int, spacing: int): (int, int) {
    (dotSize + d.col * spacing, dotSize + d.row * spacing)
  }

  /** Python's <= on pairs of integers. */
  predicate PairLe(p: (int, int), q: (int, int)) {
    p.0 < q.0 || (p.0 == q.0 && p.1 <= q.1)
  }

  lemma ScaleMonotone(u: int, v: int, spacing: int)
    requires spacing > 0
    ensures u < v <==> u * spacing < v * spacing
    ensures u == v <==> u * spacing == v * spacing
  {
    if u < v {
      assert v * spacing - u * spacing == (v - u) * spacing;
    } else if v < u {
      assert u * spacing - v * spacing == (u - v) * spacing;
    }
  }

  /** With a positive dot spacing, comparing and equating pixel positions is the
      same as comparing and equating (col, row) indices, so the model may work on
      indices. */
  lemma PixelOrder(a: Dot, b: Dot, dotSize: int, spacing: int)
    requires spacing > 0
    ensures PairLe(Pixel(a, dotSize, spacing), Pixel(b, dotSize, spacing)) <==> DotLe(a, b)
    ensures Pixel(a, dotSize, spacing) == Pixel(b, dotSize, spacing) <==> a == b
  {
    ScaleMonotone(a.col, b.col, spacing);
    ScaleMonotone(a.row, b.row, spacing);
  }

  /** With a negative dot spacing (a screen narrower than 2 * DOT_SIZE, where
      floor division goes below zero) the dots stay distinct but their pixel
      order is the reverse of the (col, row) order, so min/max picks the
      larger-index dot first. */
  lemma PixelOrderReversed(a: Dot, b: Dot, dotSize: int, spacing: int)
    requires spacing < 0
    ensures PairLe(Pixel(a, dotSize, spacing), Pixel(b, dotSize, spacing)) <==> DotLe(b, a)
    ensures Pixel(a, dotSize, spacing) == Pixel(b, dotSize, spacing) <==> a == b
  {
    ScaleMonotone(b.col, a.col, -spacing);
    ScaleMonotone(b.row, a.row, -spacing);
    assert b.col * -spacing == -(b.col * spacing) && a.col * -spacing == -(a.col * spacing);
    assert b.row * -spacing == -(b.row * spacing) && a.row * -spacing == -(a.row * spacing);
  }
}
