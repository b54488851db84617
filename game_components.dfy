/** The React effects of src/components/game/input-controller.tsx and
    src/components/game/camera-controller.tsx. An engine that is not ready
    yet (null) is a null camera for the camera controller and a false flag
    for the input controller: in both cases the effect does nothing. */
module GameComponents {
  import opened Wrappers
  import opened CameraInput

  /** The input controller's zoom bound. */
  const InputMaxZoom: real := 3.0
  const ControllerZoom: real := 1.5
  const MapColumns: int := 5
  const MapRows: int := 5
  const TileWidth: int := 32
  const TileHeight: int := 16

  /** InputController's effect: without an engine nothing is registered;
      with one, wheel (zoom bound 3) and drag handlers over fresh closure
      state. */
  method SetUpInputControls(engineReady: bool) returns (controls: PointerControls?)
    ensures engineReady <==> controls != null
    ensures controls != null ==> fresh(controls) && controls.Valid() && controls.maxZoom == Some(InputMaxZoom)
    ensures controls != null ==> !controls.isDragging && controls.lastX == 0.0 && controls.lastY == 0.0
  {
    if !engineReady {
      return null;
    }
    controls := new PointerControls(Some(InputMaxZoom));
  }

  /** With the input controller's handlers, a zoom inside [1, 3] stays
      inside it. */
  lemma ZoomWithinOneToThree(c: Controls, events: seq<PointerEvent>)
    requires c.view.Some? && MinZoom <= c.view.value.zoom <= InputMaxZoom
    ensures var d := Run(c, events, Some(InputMaxZoom)); MinZoom <= d.view.value.zoom <= InputMaxZoom
  {
    ZoomStaysInRange(c, events, InputMaxZoom);
  }

  /** CameraController's effect: for the fixed 5 by 5 map of 32 by 16 tiles
      (160 by 80 pixels), put the camera at (80, 160) with zoom 1.5; without
      an engine, do nothing. */
  method CameraControllerEffect(camera: Camera?)
    modifies camera
    ensures camera != null ==> camera.x == 80.0 && camera.y == 160.0 && camera.zoom == ControllerZoom
  {
    if camera == null {
      return;
    }
    var mapPixelWidth := MapPixelWidth(MapColumns, MapRows, TileWidth);
    var mapPixelHeight := MapPixelHeight(MapColumns, MapRows, TileHeight);
    DefaultMapFraming(ControllerZoom);
    camera.x := mapPixelWidth / 2.0;
    camera.y := mapPixelHeight * 2.0;
    camera.zoom := ControllerZoom;
  }
}
