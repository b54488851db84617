/** The ISOMETRIC constant record of src/constants/isometric.ts and the
    constant-based initial placement computed from it. This placement is
    a separate path from Projection.ToIsometricPosition and is not
    reconciled with it. */
module IsometricConstants {
  import opened Wrappers
  import opened Projection

  const TileWidth: int := 32
  const TileHeight: int := 16
  /** Pixels per grid step to the right. */
  const GridMoveX: int := 16
  /** Pixels per grid step downwards (half of X, as the view is isometric). */
  const GridMoveY: int := 8
  const MapGridX: int := 80
  const MapGridY: int := 160
  const OffsetX: int := -32
  const OffsetY: int := -62 + 12

  /** The one-step move constants are half a tile, and the offsets are the
      literal values -32 and -50. */
  lemma ConstantsAgree()
    ensures GridMoveX * 2 == TileWidth && GridMoveY * 2 == TileHeight
    ensures OffsetX == -32 && OffsetY == -50
  {
  }

  /** getInitialPosition: a fixed point that depends on no input; x is the
      difference of the map centre coordinates and y their sum, each shifted
      by its offset. */
  function GetInitialPosition(): (p: ScreenPosition)
    ensures p.x == (MapGridY - MapGridX + OffsetX) as real
    ensures p.y == (MapGridX + MapGridY + OffsetY) as real
    ensures p == ScreenPosition(48.0, 190.0)
  {
    var screenX := -(MapGridX - MapGridY) + OffsetX;
    var screenY := MapGridX + MapGridY + OffsetY;
    ScreenPosition(screenX as real, screenY as real)
  }

  /** The two projections disagree: one grid step of the constant mapping is
      (16, 8) pixels, one of ToIsometricPosition is 16.25 by 8.25. */
  lemma ProjectionsDisagree(X: int, Y: int)
    ensures ToIsometricPosition(X, Y + 1, None, None).x - ToIsometricPosition(X, Y, None, None).x != GridMoveX as real
    ensures ToIsometricPosition(X, Y + 1, None, None).y - ToIsometricPosition(X, Y, None, None).y != GridMoveY as real
  {
  }
}
