/** The work-zone editor: viewport state, the pan and drag sessions, the layer
    of polygons (each kept as its `points` attribute text) and the grid layer,
    driven by drop, wheel and mouse handlers. The pointer position, the drawing
    surface's top-left corner and its pixel size are handler parameters. */
module Editor {
  import opened Wrappers
  import opened Geometry
  import opened PointText
  import opened Viewport
  import opened Grid

  /** What a mouse event was dispatched on: the bare canvas or the polygon at a
      position of the layer. */
  datatype Target = Canvas | Polygon(index: nat)

  /** The polygon being dragged: none, one in the layer, or one that a load or a
      clear has removed from the layer while it was held (its moves still
      rewrite its own points, which are no longer shown). */
  datatype DragTarget = NoDrag | OnLayer(index: nat) | Detached(points: string)

  // ----- what a drop and a drag move do to the polygon text -----

  /** The layer after a drop of `payload` whose cursor maps to world point `world`:
      an empty payload or one that does not parse leaves it as it is; otherwise
      the polygon, re-centred on its bounding box under the cursor, is appended. */
  function Dropped(t: NumberText, layer: seq<string>, payload: string, world: Point): seq<string> {
    if payload == [] then layer
    else
      match ParsePoints(t, Trim(payload))
      case Some(pts) => layer + [FormatPoints(t, Placed(pts, world))]
      case None => layer
  }

  /** Unfolds `Dropped` for a payload that parses. */
  lemma DroppedAppends(t: NumberText, layer: seq<string>, payload: string, world: Point, text: string)
    requires payload != [] && ParsePoints(t, Trim(payload)).Some?
    requires text == FormatPoints(t, Placed(ParsePoints(t, Trim(payload)).value, world))
    ensures Dropped(t, layer, payload, world) == layer + [text]
  {
  }

  /** Unfolds `Dropped` for an empty payload or one that does not parse. */
  lemma DroppedKeeps(t: NumberText, layer: seq<string>, payload: string, world: Point)
    requires payload == [] || ParsePoints(t, Trim(payload)).None?
    ensures Dropped(t, layer, payload, world) == layer
  {
  }

  /** A drop that parses appends one polygon with as many points as the payload,
      every point shifted by the same vector, its bounding-box centre on the
      cursor's world point, and leaves the existing polygons as they were. */
  lemma DropPlacesUnderCursor(t: NumberText, layer: seq<string>, payload: string, world: Point)
    requires payload != [] && ParsePoints(t, Trim(payload)).Some?
    requires FaithfulOn(t, Placed(ParsePoints(t, Trim(payload)).value, world))
    ensures var r, pts := Dropped(t, layer, payload, world), ParsePoints(t, Trim(payload)).value;
      && |r| == |layer| + 1 && r[..|layer|] == layer
      && ParsePoints(t, r[|layer|]).Some?
      && var q := ParsePoints(t, r[|layer|]).value;
         && |q| == |pts| && BoxCenter(q) == world
         && forall i :: 0 <= i < |q| ==> Sub(q[i], pts[i]) == Sub(world, BoxCenter(pts))
  {
    var pts := ParsePoints(t, Trim(payload)).value;
    ParseFormat(t, Placed(pts, world));
    assert (layer + [FormatPoints(t, Placed(pts, world))])[..|layer|] == layer;
  }

  /** A payload written in the point-string format itself (as the buffer zone
      sends it) is dropped as exactly those points, re-centred. */
  lemma DropFormattedPayload(t: NumberText, layer: seq<string>, pts: seq<Point>, world: Point)
    requires |pts| >= 1 && FaithfulOn(t, pts)
    ensures Dropped(t, layer, FormatPoints(t, pts), world) == layer + [FormatPoints(t, Placed(pts, world))]
  {
    assert Writes(t, pts[0].x) && Writes(t, pts[|pts| - 1].y);
    TrimFormat(t, pts);
    ParseFormat(t, pts);
    assert FormatPoints(t, pts) != [] by {
      FormatEnds(Tokens(t, pts));
    }
  }

  /** The text of a dragged polygon after a move towards `target`: its points
      translated so that their centroid is `target`; text that does not parse is
      left as it is. */
  function MovedText(t: NumberText, s: string, target: Point): string {
    match ParsePoints(t, s)
    case Some(pts) => FormatPoints(t, Moved(pts, target))
    case None => s
  }

  /** A drag move keeps the number of points, moves every point by the same
      vector and puts the centroid on the target. */
  lemma MoveIsRigid(t: NumberText, s: string, target: Point)
    requires ParsePoints(t, s).Some?
    requires FaithfulOn(t, Moved(ParsePoints(t, s).value, target))
    ensures var pts := ParsePoints(t, s).value;
      && ParsePoints(t, MovedText(t, s, target)).Some?
      && var q := ParsePoints(t, MovedText(t, s, target)).value;
         && |q| == |pts| && Centroid(q) == target
         && forall i :: 0 <= i < |q| ==> Sub(q[i], pts[i]) == Sub(target, Centroid(pts))
  {
    ParseFormat(t, Moved(ParsePoints(t, s).value, target));
  }

  /** Two moves in a row: the second shifts every point by the difference of the
      two targets, that is by the pointer's world-space movement. */
  lemma MovesFollowPointer(t: NumberText, s: string, t1: Point, t2: Point)
    requires ParsePoints(t, s).Some?
    requires var pts := ParsePoints(t, s).value;
      FaithfulOn(t, Moved(pts, t1)) && FaithfulOn(t, Moved(Moved(pts, t1), t2))
    ensures var once := MovedText(t, s, t1);
      && ParsePoints(t, once).Some?
      && ParsePoints(t, MovedText(t, once, t2)) == Some(Translate(ParsePoints(t, once).value, Sub(t2, t1)))
  {
    var pts := ParsePoints(t, s).value;
    ParseFormat(t, Moved(pts, t1));
    SuccessiveMoves(pts, t1, t2);
    ParseFormat(t, Moved(Moved(pts, t1), t2));
  }

  /** The drag target once the layer's elements are replaced or removed. */
  function Detach(d: DragTarget, layer: seq<string>): DragTarget
    requires d.OnLayer? ==> d.index < |layer|
  {
    if d.OnLayer? then Detached(layer[d.index]) else d
  }

  class PolygonEditor {
    /** How numbers are written into and read from point strings. */
    const numbers: NumberText

    var scale: real
    var offset: Point
    var isPanning: bool
    var start: Option<Point>
    var draggingPolygon: DragTarget
    var dragOffset: Point
    /** The `points` text of each polygon of the layer, in document order. */
    var polygons: seq<string>
    /** The polygon layer's transform attribute; absent until the first redraw. */
    var transform: Option<Transform>
    var grid: seq<GridItem>

    ghost predicate Valid()
      reads this
    {
      && ScaleInRange(scale)
      && (isPanning ==> start.Some?)
      && (draggingPolygon.OnLayer? ==> draggingPolygon.index < |polygons|)
    }

    /** The world point under a pointer at `client`, for a surface whose top-left
        corner is at `corner`. */
    function PointerWorld(client: Point, corner: Point): Point
      reads this`scale, this`offset
      requires ScaleInRange(scale)
    {
      ScreenToWorld(Sub(client, corner), scale, offset)
    }

    constructor (numbers: NumberText, width: nat, height: nat)
      ensures Valid() && this.numbers == numbers
      ensures scale == 1.0 && offset == Point(0.0, 0.0)
      ensures !isPanning && start == None
      ensures draggingPolygon == NoDrag && dragOffset == Point(0.0, 0.0)
      ensures polygons == [] && transform == None
      ensures grid == Layout(1.0, Point(0.0, 0.0), width, height)
    {
      var items := Draw(1.0, Point(0.0, 0.0), width, height);
      this.numbers := numbers;
      scale := 1.0;
      offset := Point(0.0, 0.0);
      isPanning := false;
      start := None;
      draggingPolygon := NoDrag;
      dragOffset := Point(0.0, 0.0);
      polygons := [];
      transform := None;
      grid := items;
    }

    /** `_drawGrid`: rebuilds the grid layer for the current viewport. */
    method DrawGrid(width: nat, height: nat)
      requires ScaleInRange(scale)
      modifies this`grid
      ensures grid == Layout(scale, offset, width, height)
    {
      grid := Draw(scale, offset, width, height);
    }

    /** `_applyTransform`: sets the polygon layer's transform, as written, and
        redraws the grid. */
    method ApplyTransform(width: nat, height: nat)
      requires Valid()
      modifies this`transform, this`grid
      ensures Valid()
      ensures transform == Some(LayerTransformAsWritten(scale, offset))
      ensures grid == Layout(scale, offset, width, height)
    {
      transform := Some(LayerTransformAsWritten(scale, offset));
      DrawGrid(width, height);
    }

    /** `_onDrop`. */
    method Drop(payload: string, client: Point, corner: Point)
      requires Valid()
      modifies this`polygons
      ensures Valid()
      ensures polygons == Dropped(numbers, old(polygons), payload, PointerWorld(client, corner))
    {
      var world := PointerWorld(client, corner);
      if payload == [] {
        DroppedKeeps(numbers, polygons, payload, world);
        return;
      }
      var parsed := ParsePoints(numbers, Trim(payload));
      if parsed.Some? {
        var text := FormatPoints(numbers, Placed(parsed.value, world));
        DroppedAppends(numbers, polygons, payload, world, text);
        polygons := polygons + [text];
      } else {
        DroppedKeeps(numbers, polygons, payload, world);
      }
    }

    /** `_onZoom`: scale by one step, clamped, then the offset update as written. */
    method Zoom(client: Point, corner: Point, deltaY: real, width: nat, height: nat)
      requires Valid()
      modifies this`scale, this`offset, this`transform, this`grid
      ensures Valid()
      ensures MinScale <= scale <= MaxScale
      ensures scale == ZoomedScale(old(scale), deltaY)
      ensures offset == ZoomedOffset(Sub(client, corner), old(scale), scale, old(offset))
      ensures transform == Some(LayerTransformAsWritten(scale, offset))
      ensures grid == Layout(scale, offset, width, height)
    {
      var mouse := Sub(client, corner);
      var oldScale := scale;
      scale := ZoomedScale(scale, deltaY);
      offset := ZoomedOffset(mouse, oldScale, scale, offset);
      ApplyTransform(width, height);
    }

    /** `_onMouseDown`: a press on the bare canvas starts a pan. */
    method MouseDown(target: Target, client: Point)
      requires Valid()
      modifies this`isPanning, this`start
      ensures Valid()
      ensures target.Canvas? ==> isPanning && start == Some(client)
      ensures target.Polygon? ==> isPanning == old(isPanning) && start == old(start)
    {
      if target.Canvas? {
        isPanning := true;
        start := Some(client);
      }
    }

    /** `_onMouseMove`: while panning, moves the offset by the pointer's movement
        over the scale, capped at 0, and redraws. */
    method MouseMove(client: Point, width: nat, height: nat)
      requires Valid()
      modifies this`start, this`offset, this`transform, this`grid
      ensures Valid()
      ensures !old(isPanning) ==>
        start == old(start) && offset == old(offset) && transform == old(transform) && grid == old(grid)
      ensures old(isPanning) ==>
        && start == Some(client)
        && offset == PannedOffset(old(offset), old(start).value, client, scale)
        && offset.x <= 0.0 && offset.y <= 0.0
        && transform == Some(LayerTransformAsWritten(scale, offset))
        && grid == Layout(scale, offset, width, height)
    {
      if !isPanning {
        return;
      }
      var last := start.value;
      start := Some(client);
      offset := PannedOffset(offset, last, client, scale);
      ApplyTransform(width, height);
    }

    /** `_onMouseUp`: ends a pan. */
    method MouseUp()
      requires Valid()
      modifies this`isPanning
      ensures Valid() && !isPanning
    {
      isPanning := false;
    }

    /** `_onPolygonMouseDown`: a press on a polygon starts dragging it, with the
        grab offset taken from the first of its nearest vertices. */
    method PolygonMouseDown(target: Target, client: Point, corner: Point)
      requires Valid()
      requires target.Polygon? ==> target.index < |polygons|
      modifies this`dragOffset, this`draggingPolygon
      ensures Valid()
      ensures target.Canvas? ==> draggingPolygon == old(draggingPolygon) && dragOffset == old(dragOffset)
      ensures target.Polygon? ==> draggingPolygon == OnLayer(target.index)
      ensures target.Polygon? ==>
        var mouse := PointerWorld(client, corner);
        match ParsePoints(numbers, polygons[target.index])
        case None => dragOffset == old(dragOffset)
        case Some(pts) => exists k: nat :: IsFirstNearest(pts, mouse, k) && dragOffset == Sub(mouse, pts[k])
    {
      if target.Polygon? {
        var mouse := PointerWorld(client, corner);
        match ParsePoints(numbers, polygons[target.index]) {
          case Some(pts) =>
            var nearest := NearestVertex(pts, mouse);
            dragOffset := Sub(mouse, pts[nearest.value]);
          case None =>
        }
        draggingPolygon := OnLayer(target.index);
      }
    }

    /** `_onPolygonMouseMove`: moves the dragged polygon so that its centroid is
        the pointer's world point minus the grab offset. */
    method PolygonMouseMove(client: Point, corner: Point)
      requires Valid()
      modifies this`polygons, this`draggingPolygon
      ensures Valid()
      ensures var target := Sub(PointerWorld(client, corner), dragOffset);
        match old(draggingPolygon)
        case NoDrag => polygons == old(polygons) && draggingPolygon == NoDrag
        case OnLayer(i) =>
          polygons == old(polygons)[i := MovedText(numbers, old(polygons)[i], target)]
          && draggingPolygon == old(draggingPolygon)
        case Detached(s) => polygons == old(polygons) && draggingPolygon == Detached(MovedText(numbers, s, target))
    {
      var target := Sub(PointerWorld(client, corner), dragOffset);
      match draggingPolygon {
        case NoDrag =>
        case OnLayer(i) =>
          polygons := polygons[i := MovedText(numbers, polygons[i], target)];
        case Detached(s) =>
          draggingPolygon := Detached(MovedText(numbers, s, target));
      }
    }

    /** `_onPolygonMouseUp`, also bound to `mouseleave`: ends a drag. */
    method PolygonMouseUp()
      requires Valid()
      modifies this`draggingPolygon
      ensures Valid() && draggingPolygon == NoDrag
    {
      draggingPolygon := NoDrag;
    }

    // ----- one DOM event runs every listener bound to it, in binding order -----

    /** `mousedown`: a single press starts at most one session, since the two
        listeners test opposite conditions on the target. */
    method OnMouseDown(target: Target, client: Point, corner: Point)
      requires Valid()
      requires target.Polygon? ==> target.index < |polygons|
      modifies this`isPanning, this`start, this`dragOffset, this`draggingPolygon
      ensures Valid()
      ensures target.Canvas? ==>
        isPanning && start == Some(client)
        && draggingPolygon == old(draggingPolygon) && dragOffset == old(dragOffset)
      ensures target.Polygon? ==>
        isPanning == old(isPanning) && start == old(start) && draggingPolygon == OnLayer(target.index)
      ensures target.Polygon? ==>
        var mouse := PointerWorld(client, corner);
        match ParsePoints(numbers, polygons[target.index])
        case None => dragOffset == old(dragOffset)
        case Some(pts) => exists k: nat :: IsFirstNearest(pts, mouse, k) && dragOffset == Sub(mouse, pts[k])
    {
      MouseDown(target, client);
      PolygonMouseDown(target, client, corner);
    }

    /** `mousemove`: the pan step runs first, so a drag in the same event moves
        the polygon towards the pointer's world point under the panned offset. */
    method OnMouseMove(client: Point, corner: Point, width: nat, height: nat)
      requires Valid()
      modifies this`start, this`offset, this`transform, this`grid, this`polygons, this`draggingPolygon
      ensures Valid()
      ensures !old(isPanning) ==>
        start == old(start) && offset == old(offset) && transform == old(transform) && grid == old(grid)
      ensures old(isPanning) ==>
        && start == Some(client)
        && offset == PannedOffset(old(offset), old(start).value, client, scale)
        && offset.x <= 0.0 && offset.y <= 0.0
        && transform == Some(LayerTransformAsWritten(scale, offset))
        && grid == Layout(scale, offset, width, height)
      ensures var target := Sub(PointerWorld(client, corner), dragOffset);
        match old(draggingPolygon)
        case NoDrag => polygons == old(polygons) && draggingPolygon == NoDrag
        case OnLayer(i) =>
          polygons == old(polygons)[i := MovedText(numbers, old(polygons)[i], target)]
          && draggingPolygon == old(draggingPolygon)
        case Detached(s) => polygons == old(polygons) && draggingPolygon == Detached(MovedText(numbers, s, target))
    {
      MouseMove(client, width, height);
      PolygonMouseMove(client, corner);
    }

    /** `mouseup`: ends both a pan and a drag. */
    method OnMouseUp()
      requires Valid()
      modifies this`isPanning, this`draggingPolygon
      ensures Valid()
      ensures !isPanning && draggingPolygon == NoDrag
    {
      MouseUp();
      PolygonMouseUp();
    }

    /** `mouseleave`: ends a drag only; a pan in progress goes on. */
    method OnMouseLeave()
      requires Valid()
      modifies this`draggingPolygon
      ensures Valid()
      ensures draggingPolygon == NoDrag
    {
      PolygonMouseUp();
    }

    // ----- the polygon layer -----

    /** `loadPolygons`: replaces the layer by the given point strings, in order. */
    method LoadPolygons(pointsArray: seq<string>)
      requires Valid()
      modifies this`polygons, this`draggingPolygon
      ensures Valid()
      ensures polygons == pointsArray
      ensures draggingPolygon == Detach(old(draggingPolygon), old(polygons))
    {
      draggingPolygon := Detach(draggingPolygon, polygons);
      polygons := [];
      var i := 0;
      while i < |pointsArray|
        invariant 0 <= i <= |pointsArray|
        invariant polygons == pointsArray[..i]
        invariant draggingPolygon == Detach(old(draggingPolygon), old(polygons))
      {
        polygons := polygons + [pointsArray[i]];
        i := i + 1;
      }
    }

    /** `getPolygons`: the point strings of the layer, in document order. */
    method GetPolygons() returns (r: seq<string>)
      requires Valid()
      ensures r == polygons
    {
      r := polygons;
    }

    /** `clearPolygons`: empties the layer. */
    method ClearPolygons()
      requires Valid()
      modifies this`polygons, this`draggingPolygon
      ensures Valid()
      ensures polygons == []
      ensures draggingPolygon == Detach(old(draggingPolygon), old(polygons))
    {
      draggingPolygon := Detach(draggingPolygon, polygons);
      polygons := [];
    }
  }
}
