/** The isometric coordinate transform of src/lib/to-isometric-position.ts:
    a "diagonal" coordinate pair (X, Y) is first turned into grid
    coordinates, which a linear map sends to screen pixels. Pixel values are
    exact reals: no rounding happens anywhere in the transform. */
module Projection {
  import opened Wrappers

  /** Logical tile coordinates. */
  datatype GridPosition = GridPosition(gridX: int, gridY: int)

  /** Pixel coordinates on screen. */
  datatype ScreenPosition = ScreenPosition(x: real, y: real)

  const DefaultScreenOriginY: real := 168.0
  const DefaultScreenOffsetY: real := 32.0

  /** Horizontal pixels per grid step: 16 plus a 0.25 correction. */
  const StepX: real := 16.25
  /** Vertical pixels per grid step: 8 plus a 0.25 correction. */
  const StepY: real := 8.25

  /** diagonalToGrid: the sum of the outputs recovers Y and their
      difference recovers X, so the map is injective (see GridToDiagonal). */
  function DiagonalToGrid(X: int, Y: int): (g: GridPosition)
    ensures g.gridX + g.gridY == 2 * Y - 1
    ensures g.gridX - g.gridY == 2 * X - 1
  {
    GridPosition(X + Y - 1, Y - X)
  }

  /** Grid positions that DiagonalToGrid can produce: those of odd parity. */
  predicate InDiagonalImage(g: GridPosition) {
    (g.gridX + g.gridY) % 2 == 1
  }

  /** The inverse of DiagonalToGrid on its image. */
  function GridToDiagonal(g: GridPosition): (d: (int, int))
    requires InDiagonalImage(g)
    ensures DiagonalToGrid(d.0, d.1) == g
  {
    ((g.gridX - g.gridY + 1) / 2, (g.gridX + g.gridY + 1) / 2)
  }

  /** Every grid position produced from integer input has an odd coordinate sum. */
  lemma DiagonalToGridIsOdd(X: int, Y: int)
    ensures InDiagonalImage(DiagonalToGrid(X, Y))
  {
    var g := DiagonalToGrid(X, Y);
    assert g.gridX + g.gridY == 2 * (Y - 1) + 1;
  }

  /** Round trip in the other direction: decoding an encoded pair returns it. */
  lemma DiagonalRoundTrip(X: int, Y: int)
    ensures InDiagonalImage(DiagonalToGrid(X, Y))
    ensures GridToDiagonal(DiagonalToGrid(X, Y)) == (X, Y)
  {
    DiagonalToGridIsOdd(X, Y);
  }

  lemma DiagonalToGridInjective(X1: int, Y1: int, X2: int, Y2: int)
    ensures DiagonalToGrid(X1, Y1) == DiagonalToGrid(X2, Y2) <==> X1 == X2 && Y1 == Y2
  {
  }

  /** toIsometricPosition. An absent origin or offset falls back to 168 and
      32; a supplied one, 0 included, is used as it is. The result is the
      closed form of the diagonal projection: X and Y move the point along
      the two isometric axes by 16.25 horizontally and 8.25 vertically. */
  function ToIsometricPosition(X: int, Y: int, screenOriginY: Option<real>, screenOffsetY: Option<real>): (p: ScreenPosition)
    ensures p.x == StepX * (X + Y - 1) as real
    ensures p.y == OrElse(screenOriginY, DefaultScreenOriginY) + StepY * (Y - X) as real
                   + OrElse(screenOffsetY, DefaultScreenOffsetY)
  {
    var g := DiagonalToGrid(X, Y);
    var screenX := 16.0 * g.gridX as real + g.gridX as real * 0.25;
    var originY := OrElse(screenOriginY, DefaultScreenOriginY);
    var offsetY := OrElse(screenOffsetY, DefaultScreenOffsetY);
    var screenY := originY + 8.0 * g.gridY as real + g.gridY as real * 0.25 + offsetY;
    ScreenPosition(screenX, screenY)
  }

  /** Omitting both optional arguments is the same as passing 168 and 32. */
  lemma DefaultsAreOriginAndOffset(X: int, Y: int)
    ensures ToIsometricPosition(X, Y, None, None) == ToIsometricPosition(X, Y, Some(168.0), Some(32.0))
  {
  }

  /** A supplied 0 is not replaced by the default: `??` only fills in absent values. */
  lemma ZeroOriginAndOffsetAreKept(X: int, Y: int)
    ensures ToIsometricPosition(X, Y, Some(0.0), Some(0.0)).y == StepY * (Y - X) as real
    ensures ToIsometricPosition(X, Y, Some(0.0), Some(0.0)).y
            == ToIsometricPosition(X, Y, None, None).y - 200.0
  {
  }

  /** One step along X moves the point right and up; one step along Y moves
      it right and down. */
  lemma StepAlongAxes(X: int, Y: int, o: Option<real>, f: Option<real>)
    ensures ToIsometricPosition(X + 1, Y, o, f)
            == ScreenPosition(ToIsometricPosition(X, Y, o, f).x + 16.25, ToIsometricPosition(X, Y, o, f).y - 8.25)
    ensures ToIsometricPosition(X, Y + 1, o, f)
            == ScreenPosition(ToIsometricPosition(X, Y, o, f).x + 16.25, ToIsometricPosition(X, Y, o, f).y + 8.25)
  {
  }

  /** Distinct positions never share a pixel, for a fixed origin and offset. */
  lemma ProjectionInjective(X1: int, Y1: int, X2: int, Y2: int, o: Option<real>, f: Option<real>)
    ensures ToIsometricPosition(X1, Y1, o, f) == ToIsometricPosition(X2, Y2, o, f) <==> X1 == X2 && Y1 == Y2
  {
    if ToIsometricPosition(X1, Y1, o, f) == ToIsometricPosition(X2, Y2, o, f) {
      assert StepX * (X1 + Y1 - 1) as real == StepX * (X2 + Y2 - 1) as real;
      assert StepY * (Y1 - X1) as real == StepY * (Y2 - X2) as real;
    }
  }

  /** The initial unit position (4, 4) with origin 168 and offset 34 is
      drawn at (113.75, 202). */
  lemma InitialUnitProjection()
    ensures DiagonalToGrid(4, 4) == GridPosition(7, 0)
    ensures ToIsometricPosition(4, 4, Some(168.0), Some(34.0)) == ScreenPosition(113.75, 202.0)
  {
  }
}
