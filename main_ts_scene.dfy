/** The earlier scene of src/scenes/main.ts: a wheel handler with zoom range
    [1, 4], the same drag handlers, a fixed framing of a 5 by 5 map at zoom
    1.5, and a character placed by the constant formula. */
module MainTsScene {
  import opened Wrappers
  import opened Projection
  import opened IsometricConstants
  import opened CameraInput

  const MaxZoom: real := 4.0
  const InitialZoom: real := 1.5

  /** Where the character is put, and how it is drawn. */
  datatype CharacterPlacement = CharacterPlacement(x: real, y: real, z: int, scale: real)

  /** The character's start, written out in this file with its own literals
      (map centre 80 and 160, offsets -32 and -62 + 12); it is the same point
      as the constant-based initial position. */
  function CharacterStart(): (p: ScreenPosition)
    ensures p == GetInitialPosition()
  {
    var mapGridX := 80;
    var mapGridY := 160;
    var screenX := -(mapGridX - mapGridY) - 32;
    var screenY := mapGridX + mapGridY - 62 + 12;
    ScreenPosition(screenX as real, screenY as real)
  }

  /** onInitialize: wheel and drag handlers with zoom bound 4, the camera at
      (80, 160) with zoom 1.5, and the character at (48, 190), z 1000,
      scale 0.1875. */
  method OnInitialize(camera: Camera) returns (controls: PointerControls, character: CharacterPlacement)
    modifies camera
    ensures fresh(controls) && controls.Valid() && controls.maxZoom == Some(MaxZoom)
    ensures !controls.isDragging && controls.lastX == 0.0 && controls.lastY == 0.0
    ensures camera.x == 80.0 && camera.y == 160.0 && camera.zoom == InitialZoom
    ensures character == CharacterPlacement(48.0, 190.0, 1000, 0.1875)
  {
    controls := new PointerControls(Some(MaxZoom));
    FrameCamera(camera, 5, 5, 32, 16, InitialZoom);
    DefaultMapFraming(InitialZoom);
    var start := CharacterStart();
    character := CharacterPlacement(start.x, start.y, 1000, 0.1875);
  }

  /** With this file's handlers, a zoom inside [1, 4] stays inside it. */
  lemma ZoomWithinOneToFour(c: Controls, events: seq<PointerEvent>)
    requires c.view.Some? && MinZoom <= c.view.value.zoom <= MaxZoom
    ensures var d := Run(c, events, Some(MaxZoom)); MinZoom <= d.view.value.zoom <= MaxZoom
  {
    ZoomStaysInRange(c, events, MaxZoom);
  }
}
