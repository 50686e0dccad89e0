/** Grid arithmetic of spatial routing over exact reals: cells, neighbourhoods and the scaled
    distance test. */
module Spatial {
  import opened Model

  const MIN_CELL: int := -0x8000_0000_0000_0000
  const END_CELL: int := 0x8000_0000_0000_0000

  datatype Cell = Cell2D(x: int, y: int) | Cell3D(x: int, y: int, z: int)

  datatype CellKey = CellKey(space: nat, epoch: nat, cell: Cell)

  datatype CellError = CellOutOfRange | CellDimensionMismatch

  /** Floor of the scaled coordinate, refused when it does not fit the index type. */
  function GridCoordinate(value: real, cellSize: real): (r: Result<int, CellError>)
    requires cellSize > 0.0
    ensures r.Ok? ==> MIN_CELL <= r.value < END_CELL
    ensures r.Ok? ==> r.value as real * cellSize <= value < (r.value + 1) as real * cellSize
  {
    var c := (value / cellSize).Floor;
    if c < MIN_CELL || c >= END_CELL then Err(CellOutOfRange)
    else
      FloorBrackets(value, cellSize);
      Ok(c)
  }

  lemma FloorBrackets(value: real, cellSize: real)
    requires cellSize > 0.0
    ensures var c := (value / cellSize).Floor; c as real * cellSize <= value < (c + 1) as real * cellSize
  {
    var q := value / cellSize;
    LowerBracket(q.Floor, value, q, cellSize);
    UpperBracket(q.Floor, value, q, cellSize);
  }

  /** A coordinate lies in exactly one cell, and is refused exactly when that cell is out of range. */
  lemma GridCoordinateExact(value: real, cellSize: real, c: int)
    requires cellSize > 0.0 && c as real * cellSize <= value < (c + 1) as real * cellSize
    ensures GridCoordinate(value, cellSize) == if MIN_CELL <= c < END_CELL then Ok(c) else Err(CellOutOfRange)
  {
    var f := (value / cellSize).Floor;
    FloorBrackets(value, cellSize);
    NotBelow(value, cellSize, f, c);
    NotBelow(value, cellSize, c, f);
  }

  lemma NotBelow(value: real, size: real, a: int, b: int)
    requires size > 0.0 && value < (a + 1) as real * size && b as real * size <= value
    ensures a >= b
  {
    if a < b { SmallerProduct(a + 1, b, size); }
  }

  lemma SmallerProduct(a: int, b: int, size: real)
    requires size > 0.0 && a <= b
    ensures a as real * size <= b as real * size
  {
  }

  lemma LowerBracket(c: int, value: real, q: real, cellSize: real)
    requires c == q.Floor && cellSize > 0.0 && q == value / cellSize
    ensures c as real * cellSize <= value
  {
    assert q * cellSize == value;
    Scale(c as real, q, cellSize);
  }

  lemma UpperBracket(c: int, value: real, q: real, cellSize: real)
    requires c == q.Floor && cellSize > 0.0 && q == value / cellSize
    ensures value < (c + 1) as real * cellSize
  {
    assert q * cellSize == value;
    StrictScale(q, (c + 1) as real, cellSize);
  }

  lemma Scale(a: real, b: real, k: real)
    requires a <= b && k >= 0.0
    ensures a * k <= b * k
  {
  }

  lemma StrictScale(a: real, b: real, k: real)
    requires a < b && k > 0.0
    ensures a * k < b * k
  {
  }

  function CellFor(position: Position, descriptor: SpaceDescriptor, epoch: nat): Result<Option<CellKey>, CellError>
    requires descriptor.Validate().None?
  {
    match (position, descriptor.routing)
    case (Pos2D(x, y), Grid2D(size, _, _)) =>
      var cx, cy := GridCoordinate(x, size), GridCoordinate(y, size);
      if cx.Err? then Err(cx.error) else if cy.Err? then Err(cy.error)
      else Ok(Some(CellKey(descriptor.id, epoch, Cell2D(cx.value, cy.value))))
    case (Pos3D(x, y, z), Grid3D(size, _, _)) =>
      var cx, cy, cz := GridCoordinate(x, size), GridCoordinate(y, size), GridCoordinate(z, size);
      if cx.Err? then Err(cx.error) else if cy.Err? then Err(cy.error) else if cz.Err? then Err(cz.error)
      else Ok(Some(CellKey(descriptor.id, epoch, Cell3D(cx.value, cy.value, cz.value))))
    case (_, BroadcastAll) => Ok(None)
    case (_, TopicOnly) => Ok(None)
    case _ => Err(CellDimensionMismatch)
  }

  function AbsDiff(a: int, b: int): nat { if a <= b then b - a else a - b }

  function Abs(a: real): real { if a < 0.0 then -a else a }

  function Ceil(a: real): int { -((-a).Floor) }

  predicate CellsAreNear(source: Cell, candidate: Cell, radiusInCells: int) {
    match (source, candidate)
    case (Cell2D(sx, sy), Cell2D(cx, cy)) => AbsDiff(sx, cx) <= radiusInCells && AbsDiff(sy, cy) <= radiusInCells
    case (Cell3D(sx, sy, sz), Cell3D(cx, cy, cz)) =>
      AbsDiff(sx, cx) <= radiusInCells && AbsDiff(sy, cy) <= radiusInCells && AbsDiff(sz, cz) <= radiusInCells
    case _ => false
  }

  function Max(a: real, b: real): real { if a < b then b else a }

  function Square(a: real): real { a * a }

  /** The test the router runs: every component and the radius are scaled by the largest of them. */
  predicate SquaredDistanceWithin(source: Position, candidate: Position, radius: real)
    requires radius > 0.0
  {
    match (source, candidate)
    case (Pos2D(sx, sy), Pos2D(cx, cy)) =>
      var scale := Max(Max(radius, Abs(sx - cx)), Abs(sy - cy));
      Square((sx - cx) / scale) + Square((sy - cy) / scale) <= Square(radius / scale)
    case (Pos3D(sx, sy, sz), Pos3D(cx, cy, cz)) =>
      var scale := Max(Max(Max(radius, Abs(sx - cx)), Abs(sy - cy)), Abs(sz - cz));
      Square((sx - cx) / scale) + Square((sy - cy) / scale) + Square((sz - cz) / scale) <= Square(radius / scale)
    case _ => false
  }

  /** Plain Euclidean reach. */
  ghost predicate Within(source: Position, candidate: Position, radius: real) {
    match (source, candidate)
    case (Pos2D(sx, sy), Pos2D(cx, cy)) => Square(sx - cx) + Square(sy - cy) <= Square(radius)
    case (Pos3D(sx, sy, sz), Pos3D(cx, cy, cz)) =>
      Square(sx - cx) + Square(sy - cy) + Square(sz - cz) <= Square(radius)
    case _ => false
  }

  lemma SquareNonNegative(a: real)
    ensures Square(a) >= 0.0
  {
    var p := a * a;
    if a > 0.0 {
      var _ := PositiveProduct(a, a);
    } else if a < 0.0 {
      var _ := PositiveProduct(-a, -a);
      assert (-a) * (-a) == p;
    }
    assert Square(a) == p;
  }

  lemma SquarePositive(a: real)
    requires a > 0.0
    ensures Square(a) > 0.0
  {
    var p := PositiveProduct(a, a);
    assert Square(a) == p;
  }

  lemma PositiveProduct(a: real, b: real) returns (p: real)
    requires a > 0.0 && b > 0.0
    ensures p == a * b && p > 0.0
  {
    p := a * b;
  }

  lemma SquareOfQuotient(a: real, s: real)
    requires s > 0.0
    ensures Square(a / s) * Square(s) == Square(a)
  {
    var q := a / s;
    assert q * s == a;
    Regroup(q, s);
  }

  lemma Regroup(q: real, s: real)
    ensures (q * q) * (s * s) == (q * s) * (q * s)
  {
  }

  /** Scaling both sides by a positive square does not change the comparison. */
  lemma ScaledComparison(a: real, b: real, k: real)
    requires k > 0.0
    ensures a <= b <==> a * k <= b * k
  {
    if a <= b { Scale(a, b, k); } else { StrictScale(b, a, k); }
  }

  lemma Distribute(a: real, b: real, c: real, k: real)
    ensures (a + b + c) * k == a * k + b * k + c * k
  {
  }

  /** The scaled test decides exactly the plain Euclidean reach. */
  lemma ScaledDistanceIsExact(source: Position, candidate: Position, radius: real)
    requires radius > 0.0
    ensures SquaredDistanceWithin(source, candidate, radius) <==> Within(source, candidate, radius)
  {
    match (source, candidate)
    case (Pos2D(sx, sy), Pos2D(cx, cy)) =>
      ScaledSum(sx - cx, sy - cy, 0.0, radius, Max(Max(radius, Abs(sx - cx)), Abs(sy - cy)));
    case (Pos3D(sx, sy, sz), Pos3D(cx, cy, cz)) =>
      ScaledSum(sx - cx, sy - cy, sz - cz, radius, Max(Max(Max(radius, Abs(sx - cx)), Abs(sy - cy)), Abs(sz - cz)));
    case _ =>
  }

  lemma ScaledSum(a: real, b: real, c: real, r: real, s: real)
    requires s > 0.0
    ensures Square(a / s) + Square(b / s) + Square(c / s) <= Square(r / s)
            <==> Square(a) + Square(b) + Square(c) <= Square(r)
    ensures c == 0.0 ==> Square(c / s) == 0.0 && Square(c) == 0.0
  {
    var k := Square(s);
    assert k > 0.0 by { SquarePositive(s); }
    var qa, qb, qc, qr := Square(a / s), Square(b / s), Square(c / s), Square(r / s);
    assert qa * k == Square(a) by { SquareOfQuotient(a, s); }
    assert qb * k == Square(b) by { SquareOfQuotient(b, s); }
    assert qc * k == Square(c) by { SquareOfQuotient(c, s); }
    assert qr * k == Square(r) by { SquareOfQuotient(r, s); }
    ScaledTerms(qa, qb, qc, qr, k, Square(a), Square(b), Square(c), Square(r));
    if c == 0.0 { ZeroSquares(c, s); }
  }

  lemma ScaledTerms(qa: real, qb: real, qc: real, qr: real, k: real, a: real, b: real, c: real, r: real)
    requires k > 0.0 && qa * k == a && qb * k == b && qc * k == c && qr * k == r
    ensures qa + qb + qc <= qr <==> a + b + c <= r
  {
    Distribute(qa, qb, qc, k);
    ScaledComparison(qa + qb + qc, qr, k);
  }

  lemma ZeroSquares(c: real, s: real)
    requires c == 0.0 && s > 0.0
    ensures Square(c / s) == 0.0 && Square(c) == 0.0
  {
    var q := c / s;
    assert q * s == c;
    assert Square(q) == q * q && Square(c) == c * c;
  }

  lemma ComponentWithin(d: real, rest: real, radius: real)
    requires radius > 0.0 && rest >= 0.0 && Square(d) + rest <= Square(radius)
    ensures -radius <= d <= radius
  {
    if d > radius {
      LargerSquare(radius, d);
    } else if d < -radius {
      SquareOfNegation(d);
      LargerSquare(radius, -d);
    }
  }

  lemma SquareOfNegation(a: real)
    ensures Square(-a) == Square(a)
  {
    assert Square(-a) == (-a) * (-a) && Square(a) == a * a;
  }

  lemma LargerSquare(a: real, b: real)
    requires 0.0 < a < b
    ensures Square(a) < Square(b)
  {
    StrictScale(a, b, a);
    StrictScale(a, b, b);
  }

  lemma CeilCovers(a: real, k: int)
    requires k as real < a + 1.0
    ensures k <= Ceil(a)
  {
  }

  /** Coordinates at most a radius apart fall in cells at most `ceil(radius / size)` apart. */
  lemma NeighbourNotLost(a: real, b: real, size: real, radius: real)
    requires size > 0.0 && radius > 0.0
    requires -radius <= a - b <= radius
    requires GridCoordinate(a, size).Ok? && GridCoordinate(b, size).Ok?
    ensures AbsDiff(GridCoordinate(a, size).value, GridCoordinate(b, size).value) <= Ceil(radius / size)
  {
    var ca, cb := GridCoordinate(a, size).value, GridCoordinate(b, size).value;
    if ca <= cb { CellGap(cb, ca, b, a, size, radius); } else { CellGap(ca, cb, a, b, size, radius); }
  }

  lemma CellGap(hi: int, lo: int, upper: real, lower: real, size: real, radius: real)
    requires size > 0.0 && upper - lower <= radius
    requires hi as real * size <= upper && lower < (lo + 1) as real * size
    ensures hi - lo <= Ceil(radius / size)
  {
    var gap := (hi - lo - 1) as real;
    assert gap * size < radius by {
      assert (lo + 1) as real * size == lo as real * size + size;
      assert hi as real * size - (lo + 1) as real * size == gap * size by {
        assert gap == hi as real - (lo + 1) as real;
      }
    }
    var q := radius / size;
    assert q * size == radius;
    if gap >= q { Scale(q, gap, size); }
    CeilCovers(q, hi - lo);
  }

  /** No neighbour is lost: entities of one grid space within the interest radius sit in near cells. */
  lemma WithinImpliesNear(source: Position, candidate: Position, descriptor: SpaceDescriptor, e1: nat, e2: nat)
    requires descriptor.Validate().None? && (descriptor.routing.Grid2D? || descriptor.routing.Grid3D?)
    requires CellFor(source, descriptor, e1).Ok? && CellFor(candidate, descriptor, e2).Ok?
    requires Within(source, candidate, descriptor.routing.interestRadius)
    ensures var k := Ceil(descriptor.routing.interestRadius / descriptor.routing.cellSize);
            CellsAreNear(CellFor(source, descriptor, e1).value.value.cell,
                         CellFor(candidate, descriptor, e2).value.value.cell, k)
  {
    var size, radius := descriptor.routing.cellSize, descriptor.routing.interestRadius;
    var dx, dy := source.x - candidate.x, source.y - candidate.y;
    SquareNonNegative(dx);
    SquareNonNegative(dy);
    if source.Pos2D? {
      ComponentWithin(dx, Square(dy), radius);
      ComponentWithin(dy, Square(dx), radius);
    } else {
      var dz := source.z - candidate.z;
      SquareNonNegative(dz);
      ComponentWithin(dx, Square(dy) + Square(dz), radius);
      ComponentWithin(dy, Square(dx) + Square(dz), radius);
      ComponentWithin(dz, Square(dx) + Square(dy), radius);
      NeighbourNotLost(source.z, candidate.z, size, radius);
    }
    NeighbourNotLost(source.x, candidate.x, size, radius);
    NeighbourNotLost(source.y, candidate.y, size, radius);
  }
}
