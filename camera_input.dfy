/** The camera input state machine shared, in three near-identical copies, by
    src/scenes/main-scene/main-scene.ts, src/scenes/main.ts and
    src/components/game/input-controller.tsx: a pointer drag machine
    (Idle/Dragging with the last pointer position) that pans the camera
    against the drag, scaled by 0.5 / zoom, and a wheel handler that steps
    the zoom by 0.05 within [1, maxZoom]. Also the camera framing computed
    from the map size. */
module CameraInput {
  import opened Wrappers

  const ZoomSpeed: real := 0.05
  const MinZoom: real := 1.0
  /** Pan factor before division by the zoom. */
  const DragSpeed: real := 0.5

  /** The scene camera: its position and zoom, updated in place by the handlers. */
  class Camera {
    var x: real
    var y: real
    var zoom: real

    constructor (x: real, y: real, zoom: real)
      ensures this.x == x && this.y == y && this.zoom == zoom
    {
      this.x, this.y, this.zoom := x, y, zoom;
    }
  }

  /** A camera's position and zoom, as a value. */
  datatype View = View(x: real, y: real, zoom: real)

  /** The handlers' closure state (`isDragging`, `lastPointerPos`) together
      with the camera they act on; `view` is None when no camera is found. */
  datatype Controls = Controls(dragging: bool, lastX: real, lastY: real, view: Option<View>)

  datatype PointerEvent = Down(x: real, y: real) | Move(x: real, y: real) | Up | Wheel(deltaY: real)

  /** The pan divides by the zoom, which every camera writer keeps positive. */
  predicate ZoomPositive(c: Controls) {
    c.view.Some? ==> c.view.value.zoom > 0.0
  }

  /** A wheel handler's upper zoom bound; None when no wheel handler is registered. */
  predicate ValidMaxZoom(maxZoom: Option<real>) {
    maxZoom.Some? ==> maxZoom.value >= MinZoom
  }

  function Min(a: real, b: real): real { if a <= b then a else b }
  function Max(a: real, b: real): real { if a >= b then a else b }

  /** One wheel notch: a negative deltaY zooms in by one step but never above
      maxZoom; any other deltaY, 0 included, zooms out by one step but never
      below 1. */
  function WheelZoom(zoom: real, deltaY: real, maxZoom: real): (z: real)
    ensures deltaY < 0.0 ==> z <= maxZoom && (z == zoom + ZoomSpeed || z == maxZoom)
    ensures deltaY < 0.0 && zoom + ZoomSpeed <= maxZoom ==> z == zoom + ZoomSpeed
    ensures deltaY >= 0.0 ==> z >= MinZoom && (z == zoom - ZoomSpeed || z == MinZoom)
    ensures deltaY >= 0.0 && zoom - ZoomSpeed >= MinZoom ==> z == zoom - ZoomSpeed
    ensures MinZoom <= zoom <= maxZoom ==> MinZoom <= z <= maxZoom
  {
    if deltaY < 0.0 then Min(zoom + ZoomSpeed, maxZoom) else Max(zoom - ZoomSpeed, MinZoom)
  }

  /** One pan of the camera for a pointer delta; the zoom is kept. */
  function Pan(v: View, dx: real, dy: real): (w: View)
    requires v.zoom > 0.0
    ensures w.zoom == v.zoom
  {
    var moveSpeed := DragSpeed / v.zoom;
    View(v.x - dx * moveSpeed, v.y - dy * moveSpeed, v.zoom)
  }

  /** The camera moves against the pointer delta: the displacement, times the
      zoom, is minus half the delta, so a drag to the right moves the camera
      left, and by less the further it is zoomed in. */
  lemma PanOpposesDrag(v: View, dx: real, dy: real)
    requires v.zoom > 0.0
    ensures (Pan(v, dx, dy).x - v.x) * v.zoom == -DragSpeed * dx
    ensures (Pan(v, dx, dy).y - v.y) * v.zoom == -DragSpeed * dy
    ensures dx > 0.0 ==> Pan(v, dx, dy).x < v.x
    ensures dx < 0.0 ==> Pan(v, dx, dy).x > v.x
  {
    var k := DragSpeed / v.zoom;
    assert k * v.zoom == DragSpeed;
    assert k > 0.0;
  }

  /** One event through the handlers. `down` records the pointer and starts a
      drag; `move` does nothing unless dragging, and nothing (not even
      recording the pointer) when there is no camera; `up` ends the drag;
      `wheel` changes only the zoom. */
  function Step(c: Controls, e: PointerEvent, maxZoom: Option<real>): (d: Controls)
    requires ZoomPositive(c) && ValidMaxZoom(maxZoom)
    ensures ZoomPositive(d)
    ensures d.view.Some? == c.view.Some?
  {
    match e
    case Down(px, py) => c.(dragging := true, lastX := px, lastY := py)
    case Move(px, py) =>
      if !c.dragging || c.view.None? then c
      else c.(view := Some(Pan(c.view.value, px - c.lastX, py - c.lastY)), lastX := px, lastY := py)
    case Up => c.(dragging := false)
    case Wheel(deltaY) =>
      if maxZoom.None? || c.view.None? then c
      else c.(view := Some(c.view.value.(zoom := WheelZoom(c.view.value.zoom, deltaY, maxZoom.value))))
  }

  /** A sequence of events, handled in arrival order. */
  function Run(c: Controls, events: seq<PointerEvent>, maxZoom: Option<real>): (d: Controls)
    requires ZoomPositive(c) && ValidMaxZoom(maxZoom)
    ensures ZoomPositive(d)
    ensures d.view.Some? == c.view.Some?
    decreases |events|
  {
    if events == [] then c else Run(Step(c, events[0], maxZoom), events[1..], maxZoom)
  }

  /** A zoom inside [1, maxZoom] stays inside it after any sequence of events. */
  lemma {:induction false} ZoomStaysInRange(c: Controls, events: seq<PointerEvent>, maxZoom: real)
    requires ZoomPositive(c) && ValidMaxZoom(Some(maxZoom))
    requires c.view.Some? && MinZoom <= c.view.value.zoom <= maxZoom
    ensures MinZoom <= Run(c, events, Some(maxZoom)).view.value.zoom <= maxZoom
    decreases |events|
  {
    if events != [] {
      ZoomStaysInRange(Step(c, events[0], Some(maxZoom)), events[1..], maxZoom);
    }
  }

  /** While not dragging, a move changes neither the camera nor the recorded pointer. */
  lemma MoveWhileIdleIgnored(c: Controls, x: real, y: real, maxZoom: Option<real>)
    requires ZoomPositive(c) && ValidMaxZoom(maxZoom)
    requires !c.dragging
    ensures Step(c, Move(x, y), maxZoom) == c
  {
  }

  /** A move without a camera returns before recording the pointer. */
  lemma MoveWithoutCameraIgnored(c: Controls, x: real, y: real, maxZoom: Option<real>)
    requires ZoomPositive(c) && ValidMaxZoom(maxZoom)
    requires c.view.None?
    ensures Step(c, Move(x, y), maxZoom) == c
    ensures Step(c, Wheel(x), maxZoom) == c
  {
  }

  /** `down` starts a drag at the pointer, whatever the state was, and leaves the camera alone. */
  lemma DownStartsDrag(c: Controls, x: real, y: real, maxZoom: Option<real>)
    requires ZoomPositive(c) && ValidMaxZoom(maxZoom)
    ensures Step(c, Down(x, y), maxZoom) == Controls(true, x, y, c.view)
  {
  }

  /** A wheel event leaves the camera position and the drag state alone. */
  lemma WheelOnlyZooms(c: Controls, deltaY: real, maxZoom: Option<real>)
    requires ZoomPositive(c) && ValidMaxZoom(maxZoom)
    ensures var d := Step(c, Wheel(deltaY), maxZoom);
      d.dragging == c.dragging && d.lastX == c.lastX && d.lastY == c.lastY
      && (c.view.Some? ==> d.view.value.x == c.view.value.x && d.view.value.y == c.view.value.y)
  {
  }

  /** `up` only ends the drag: the camera and the recorded pointer are kept. */
  lemma UpOnlyEndsDrag(c: Controls, maxZoom: Option<real>)
    requires ZoomPositive(c) && ValidMaxZoom(maxZoom)
    ensures var d := Step(c, Up, maxZoom);
      !d.dragging && d.lastX == c.lastX && d.lastY == c.lastY && d.view == c.view
  {
  }

  predicate AllMoves(events: seq<PointerEvent>) {
    forall i :: 0 <= i < |events| ==> events[i].Move?
  }

  lemma AllMovesTail(events: seq<PointerEvent>)
    requires events != [] && AllMoves(events)
    ensures AllMoves(events[1..])
  {
    forall i | 0 <= i < |events[1..]| ensures events[1..][i].Move? {
      assert events[1..][i] == events[i + 1];
    }
  }

  /** After `up`, moves are ignored until the next `down`. */
  lemma {:induction false} MovesAfterUpIgnored(c: Controls, moves: seq<PointerEvent>, maxZoom: Option<real>)
    requires ZoomPositive(c) && ValidMaxZoom(maxZoom)
    requires AllMoves(moves)
    ensures Run(Step(c, Up, maxZoom), moves, maxZoom) == Step(c, Up, maxZoom)
    decreases |moves|
  {
    if moves != [] {
      AllMovesTail(moves);
      var u := Step(c, Up, maxZoom);
      assert Step(u, moves[0], maxZoom) == u;
      assert Step(u, Up, maxZoom) == u;
      MovesAfterUpIgnored(u, moves[1..], maxZoom);
    }
  }

  /** Over a drag at a fixed zoom, the pans telescope: however many moves
      there are, the camera ends displaced by minus the pointer's total travel
      times 0.5 / zoom, and the last pointer position is recorded. */
  lemma {:induction false} DragTelescopes(c: Controls, moves: seq<PointerEvent>, maxZoom: Option<real>)
    requires ZoomPositive(c) && ValidMaxZoom(maxZoom)
    requires c.dragging && c.view.Some?
    requires moves != [] && AllMoves(moves)
    ensures var d := Run(c, moves, maxZoom);
      var v := c.view.value;
      var last := moves[|moves| - 1];
      d.dragging && d.lastX == last.x && d.lastY == last.y
      && d.view.Some? && d.view.value.zoom == v.zoom
      && d.view.value.x == v.x - (last.x - c.lastX) * (DragSpeed / v.zoom)
      && d.view.value.y == v.y - (last.y - c.lastY) * (DragSpeed / v.zoom)
    decreases |moves|
  {
    var v := c.view.value;
    var k := DragSpeed / v.zoom;
    assert moves[0].Move?;
    var c1 := Step(c, moves[0], maxZoom);
    assert c1.view == Some(Pan(v, moves[0].x - c.lastX, moves[0].y - c.lastY));
    assert c1.view.value.x == v.x - (moves[0].x - c.lastX) * k;
    assert c1.view.value.y == v.y - (moves[0].y - c.lastY) * k;
    if |moves| > 1 {
      AllMovesTail(moves);
      DragTelescopes(c1, moves[1..], maxZoom);
      var last := moves[|moves| - 1];
      assert moves[1..][|moves[1..]| - 1] == last;
      assert c1.view.value.zoom == v.zoom && c1.lastX == moves[0].x && c1.lastY == moves[0].y;
      PanSum(v.x, c.lastX, moves[0].x, last.x, k);
      PanSum(v.y, c.lastY, moves[0].y, last.y, k);
      var d := Run(c1, moves[1..], maxZoom);
      assert Run(c, moves, maxZoom) == d;
      assert d.view.value.x == v.x - (last.x - c.lastX) * k;
      assert d.view.value.y == v.y - (last.y - c.lastY) * k;
    } else {
      assert moves[1..] == [];
    }
  }

  /** Two consecutive pans add up to one pan over the whole pointer travel. */
  lemma PanSum(x: real, p0: real, p1: real, p2: real, k: real)
    ensures (x - (p1 - p0) * k) - (p2 - p1) * k == x - (p2 - p0) * k
  {
  }

  /** The closure state of the registered handlers. The camera is passed to
      each handler: the source reads `engine.currentScene.camera` afresh on
      every event, and a missing camera (null) takes the early-return guard.
      `maxZoom` is the wheel handler's bound, None when the copy registers no
      wheel handler. */
  class PointerControls {
    const maxZoom: Option<real>
    var isDragging: bool
    var lastX: real
    var lastY: real

    ghost predicate Valid() {
      ValidMaxZoom(maxZoom)
    }

    /** The closure state together with the camera, as a value. */
    function Snapshot(camera: Camera?): Controls
      reads this, camera
    {
      Controls(isDragging, lastX, lastY,
        if camera == null then None else Some(View(camera.x, camera.y, camera.zoom)))
    }

    constructor (maxZoom: Option<real>)
      requires ValidMaxZoom(maxZoom)
      ensures Valid() && this.maxZoom == maxZoom
      ensures !isDragging && lastX == 0.0 && lastY == 0.0
    {
      this.maxZoom := maxZoom;
      isDragging := false;
      lastX, lastY := 0.0, 0.0;
    }

    method OnWheel(camera: Camera?, deltaY: real)
      requires Valid() && ZoomPositive(Snapshot(camera))
      modifies camera
      ensures Snapshot(camera) == Step(old(Snapshot(camera)), Wheel(deltaY), maxZoom)
    {
      if maxZoom.None? || camera == null {
        return;
      }
      if deltaY < 0.0 {
        camera.zoom := Min(camera.zoom + ZoomSpeed, maxZoom.value);
      } else {
        camera.zoom := Max(camera.zoom - ZoomSpeed, MinZoom);
      }
    }

    method OnDown(camera: Camera?, x: real, y: real)
      requires Valid() && ZoomPositive(Snapshot(camera))
      modifies this
      ensures Snapshot(camera) == Step(old(Snapshot(camera)), Down(x, y), maxZoom)
    {
      isDragging := true;
      lastX, lastY := x, y;
    }

    method OnMove(camera: Camera?, x: real, y: real)
      requires Valid() && ZoomPositive(Snapshot(camera))
      modifies this, camera
      ensures Snapshot(camera) == Step(old(Snapshot(camera)), Move(x, y), maxZoom)
    {
      if !isDragging {
        return;
      }
      var deltaX := x - lastX;
      var deltaY := y - lastY;
      if camera == null {
        return;
      }
      ghost var before := View(camera.x, camera.y, camera.zoom);
      var moveSpeed := DragSpeed / camera.zoom;
      camera.x := camera.x - deltaX * moveSpeed;
      camera.y := camera.y - deltaY * moveSpeed;
      lastX, lastY := x, y;
      assert View(camera.x, camera.y, camera.zoom) == Pan(before, deltaX, deltaY);
    }

    method OnUp(camera: Camera?)
      requires Valid() && ZoomPositive(Snapshot(camera))
      modifies this
      ensures Snapshot(camera) == Step(old(Snapshot(camera)), Up, maxZoom)
    {
      isDragging := false;
    }
  }

  /** Map extent in pixels: each column and each row adds half a tile. */
  function MapPixelWidth(columns: int, rows: int, tileWidth: int): (w: real)
    ensures w == (columns + rows) as real * tileWidth as real / 2.0
  {
    columns as real * (tileWidth as real / 2.0) + rows as real * (tileWidth as real / 2.0)
  }

  function MapPixelHeight(columns: int, rows: int, tileHeight: int): (h: real)
    ensures h == (columns + rows) as real * tileHeight as real / 2.0
  {
    rows as real * (tileHeight as real / 2.0) + columns as real * (tileHeight as real / 2.0)
  }

  /** The initial framing: horizontally centred on the map, vertically at
      twice its height, with the given zoom. */
  function Framing(columns: int, rows: int, tileWidth: int, tileHeight: int, zoom: real): (v: View)
    ensures v.x * 2.0 == MapPixelWidth(columns, rows, tileWidth)
    ensures v.y == MapPixelHeight(columns, rows, tileHeight) * 2.0
    ensures v.zoom == zoom
  {
    View(MapPixelWidth(columns, rows, tileWidth) / 2.0, MapPixelHeight(columns, rows, tileHeight) * 2.0, zoom)
  }

  /** A 5 by 5 map of 32 by 16 tiles is 160 by 80 pixels, framed at (80, 160). */
  lemma DefaultMapFraming(zoom: real)
    ensures MapPixelWidth(5, 5, 32) == 160.0 && MapPixelHeight(5, 5, 16) == 80.0
    ensures Framing(5, 5, 32, 16, zoom) == View(80.0, 160.0, zoom)
  {
  }

  /** Writes a framing into the camera in place. */
  method FrameCamera(camera: Camera, columns: int, rows: int, tileWidth: int, tileHeight: int, zoom: real)
    modifies camera
    ensures View(camera.x, camera.y, camera.zoom) == Framing(columns, rows, tileWidth, tileHeight, zoom)
  {
    var mapPixelWidth := MapPixelWidth(columns, rows, tileWidth);
    var mapPixelHeight := MapPixelHeight(columns, rows, tileHeight);
    camera.x := mapPixelWidth / 2.0;
    camera.y := mapPixelHeight * 2.0;
    camera.zoom := zoom;
  }
}
