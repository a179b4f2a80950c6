/**
 * The positions computed by `drawLuminaireLayout` (src/App.jsx:202-233): the
 * room is drawn at 1 m = 100 px with its corner at (50, 50); `count` luminaires
 * go into a square grid of ceil(sqrt(count)) rows and columns, row by row, each
 * at the centre of its cell. Only the positions are modelled, not the drawing.
 */
module Layout {

  /** A canvas position in pixels. */
  datatype Point = Point(x: real, y: real)

  /** Pixels per metre on the layout canvas. */
  const PixelsPerMetre: real := 100.0

  /** Offset of the room rectangle's corner from the canvas origin, on both axes. */
  const Margin: real := 50.0

  /** Search upwards from `k` for the least square root bound of `n`. */
  function CeilSqrtFrom(n: nat, k: nat): (r: nat)
    requires k == 0 || (k - 1) * (k - 1) < n
    ensures r * r >= n
    ensures r == 0 || (r - 1) * (r - 1) < n
    decreases n - k
  {
    if k * k >= n then k
    else
      assert k <= k * k;
      CeilSqrtFrom(n, k + 1)
  }

  /** `Math.ceil(Math.sqrt(n))` on an exact integer: the least `k` with `k * k >= n`. */
  function CeilSqrt(n: nat): (k: nat)
    ensures k * k >= n
    ensures k == 0 || (k - 1) * (k - 1) < n
    ensures k == 0 <==> n == 0
  {
    CeilSqrtFrom(n, 0)
  }

  lemma SquareMono(a: nat, b: nat)
    requires a <= b
    ensures a * a <= b * b
  {
    assert a * a <= a * b;
    assert a * b <= b * b;
  }

  /** No smaller side gives enough cells: `CeilSqrt(n)` is the least such side. */
  lemma CeilSqrtLeast(n: nat, j: nat)
    requires j * j >= n
    ensures CeilSqrt(n) <= j
  {
    var k := CeilSqrt(n);
    if k > 0 && j < k {
      SquareMono(j, k - 1);
      assert false;
    }
  }

  /**
   * The centre of cell (`row`, `col`) of a `k` by `k` grid over a room of
   * `width` by `height` metres, computed as the source does.
   */
  function CellCentre(width: real, height: real, k: nat, row: nat, col: nat): Point
    requires k > 0
  {
    var spacingX := width * PixelsPerMetre / k as real;
    var spacingY := height * PixelsPerMetre / k as real;
    Point(Margin + col as real * spacingX + spacingX / 2.0,
          Margin + row as real * spacingY + spacingY / 2.0)
  }

  /** Centre of a cell along one axis: `Margin + (i + 1/2) * extent / k`. */
  lemma CentreOnAxis(extent: real, k: nat, i: nat)
    requires k > 0
    ensures var s := extent * PixelsPerMetre / k as real;
      Margin + i as real * s + s / 2.0 == Margin + (i as real + 0.5) * (extent * PixelsPerMetre / k as real)
  {
  }

  /** Along one axis, the centre of cell `i < k` lies strictly inside `(Margin, Margin + extent * 100)`. */
  lemma CentreInside(extent: real, k: nat, i: nat)
    requires k > 0 && i < k && extent > 0.0
    ensures var s := extent * PixelsPerMetre / k as real;
      Margin < Margin + i as real * s + s / 2.0 < Margin + extent * PixelsPerMetre
  {
    var s := extent * PixelsPerMetre / k as real;
    var t := i as real + 0.5;
    assert s > 0.0;
    assert i as real * s + s / 2.0 == t * s;
    assert 0.0 < t < k as real;
    assert t * s < k as real * s;
    assert k as real * s == extent * PixelsPerMetre;
  }

  /**
   * Every cell centre of the grid, with both room dimensions positive, is strictly
   * inside the drawn room rectangle, and equals the cell's origin plus half a cell.
   */
  lemma CellCentreInsideRoom(width: real, height: real, k: nat, row: nat, col: nat)
    requires k > 0 && row < k && col < k
    requires width > 0.0 && height > 0.0
    ensures var p := CellCentre(width, height, k, row, col);
      Margin < p.x < Margin + width * PixelsPerMetre &&
      Margin < p.y < Margin + height * PixelsPerMetre
    ensures var p := CellCentre(width, height, k, row, col);
      p.x == Margin + (col as real + 0.5) * (width * PixelsPerMetre / k as real) &&
      p.y == Margin + (row as real + 0.5) * (height * PixelsPerMetre / k as real)
  {
    CentreInside(width, k, col);
    CentreInside(height, k, row);
    CentreOnAxis(width, k, col);
    CentreOnAxis(height, k, row);
  }

  /** A multiple of a positive `k` strictly between `-k` and `k` is zero. */
  lemma SmallMultiple(k: int, d: int)
    requires k > 0
    ensures -k < k * d < k ==> d == 0
  {
    if d >= 1 {
      assert k * d == k * (d - 1) + k;
      assert k * (d - 1) >= 0;
    } else if d <= -1 {
      assert k * d == k * (d + 1) - k;
      assert k * (d + 1) <= 0;
    }
  }

  /** Index `row * k + col` of a row-major walk is in row `row` and column `col`. */
  lemma RowMajorIndex(row: nat, col: nat, k: nat)
    requires col < k
    ensures (row * k + col) / k == row
    ensures (row * k + col) % k == col
  {
    var i := row * k + col;
    var q, r := i / k, i % k;
    assert k * q + r == k * row + col;
    assert k * (q - row) == col - r;
    SmallMultiple(k, q - row);
  }

  /** Luminaire `i < count` lands in a row of the grid: no cell beyond the grid is used. */
  lemma RowInGrid(count: nat, i: nat)
    requires i < count
    ensures CeilSqrt(count) > 0
    ensures i / CeilSqrt(count) < CeilSqrt(count)
  {
    var k := CeilSqrt(count);
    var r := i / k;
    assert k * r <= i;
    assert k * r < k * k;
    assert k * (k - r) > 0;
  }

  /** The luminaires occupy pairwise different cells. */
  lemma CellsDistinct(k: nat, i: nat, j: nat)
    requires k > 0 && i != j
    ensures i / k != j / k || i % k != j % k
  {
    assert i == k * (i / k) + i % k;
    assert j == k * (j / k) + j % k;
  }

  /**
   * Seven luminaires (the 4 m by 5 m LED office) need a 3 by 3 grid; the seventh
   * sits alone in the first column of the third row.
   */
  lemma SevenLuminairesGrid()
    ensures CeilSqrt(7) == 3
    ensures 6 / CeilSqrt(7) == 2 && 6 % CeilSqrt(7) == 0
  {
    CeilSqrtLeast(7, 3);
  }

  /** Position `i` of `positions` is the centre of cell `i` of a row-major walk over a `k`-sided grid. */
  predicate RowMajor(width: real, height: real, k: nat, positions: seq<Point>) {
    forall i :: 0 <= i < |positions| ==> k > 0 && positions[i] == CellCentre(width, height, k, i / k, i % k)
  }

  /** Appending the centre of the next cell of the walk keeps the positions row-major. */
  lemma RowMajorExtend(width: real, height: real, k: nat, positions: seq<Point>, row: nat, col: nat)
    requires RowMajor(width, height, k, positions)
    requires col < k && |positions| == row * k + col
    ensures RowMajor(width, height, k, positions + [CellCentre(width, height, k, row, col)])
  {
    RowMajorIndex(row, col, k);
  }

  /**
   * A row-major layout of `count` luminaires over a room with positive sides puts
   * every luminaire strictly inside the room rectangle drawn at (50, 50).
   */
  lemma RowMajorInsideRoom(width: real, height: real, count: nat, positions: seq<Point>)
    requires |positions| == count && RowMajor(width, height, CeilSqrt(count), positions)
    requires width > 0.0 && height > 0.0
    ensures forall i :: 0 <= i < count ==>
      Margin < positions[i].x < Margin + width * PixelsPerMetre &&
      Margin < positions[i].y < Margin + height * PixelsPerMetre
  {
    var k := CeilSqrt(count);
    forall i | 0 <= i < count
      ensures Margin < positions[i].x < Margin + width * PixelsPerMetre
      ensures Margin < positions[i].y < Margin + height * PixelsPerMetre
    {
      RowInGrid(count, i);
      CellCentreInsideRoom(width, height, k, i / k, i % k);
    }
  }

  /**
   * The nested loop of src/App.jsx:215-232. The `break` leaves only the inner loop;
   * later rows stop at their first column, so exactly `count` positions come out,
   * position `i` at the centre of cell (i / k, i % k) for k = ceil(sqrt(count)).
   */
  method PlaceLuminaires(width: real, height: real, count: nat) returns (positions: seq<Point>)
    ensures |positions| == count
    ensures RowMajor(width, height, CeilSqrt(count), positions)
  {
    var perRow := CeilSqrt(count);
    positions := [];
    var index := 0;
    var row := 0;
    ghost var rowStart := 0;
    while row < perRow
      invariant 0 <= row <= perRow
      invariant rowStart == row * perRow
      invariant index == if rowStart <= count then rowStart else count
      invariant |positions| == index
      invariant RowMajor(width, height, perRow, positions)
    {
      var col := 0;
      while col < perRow
        invariant 0 <= col <= perRow
        invariant index == if rowStart + col <= count then rowStart + col else count
        invariant |positions| == index
        invariant RowMajor(width, height, perRow, positions)
      {
        if index >= count {
          break;
        }
        RowMajorExtend(width, height, perRow, positions, row, col);
        positions := positions + [CellCentre(width, height, perRow, row, col)];
        index := index + 1;
        col := col + 1;
      }
      assert (row + 1) * perRow == row * perRow + perRow;
      row := row + 1;
      rowStart := rowStart + perRow;
    }
  }
}
