/** Where the primitives on the map are. Between events every live center
    marker, circle and close marker is exactly what its zone's add call
    draws from the zone's current fields at the current camera bearing:
    the center marker at the zone's location, the circle with its radius
    and the colours its selection calls for, the close marker at 45 degrees
    on the circle. The resize marker is the exception: after a resize drag
    it stays where the user dropped it, which need not be where the zone's
    radius and heading place it. */
module Placement {
  import opened Base
  import opened Geo
  import opened Surface
  import opened Zones
  import opened Registry
  import opened Handlers
  import opened Invariant
  import opened Session

  // ---------------------------------------------------------------------
  // The placement invariant

  /** If `id` is a live primitive other than a resize marker, it is what its
      zone's add call draws now. */
  ghost predicate PlacedAt(g: Sphere, w: World, id: PrimId) {
    id in w.view.live && id < |w.view.prims|
    && w.view.prims[id].owner in w.heap && w.view.prims[id].role != ResizeRole
    ==> w.view.prims[id].shape == ShapeFor(g, w.view.bearing, w.heap[w.view.prims[id].owner], w.view.prims[id].role)
  }

  /** Every primitive outside `skip` is placed. */
  ghost predicate PlacedBut(g: Sphere, w: World, skip: set<PrimId>) {
    forall id: PrimId :: id !in skip ==> PlacedAt(g, w, id)
  }

  /** Every live center marker, circle and close marker is placed. */
  ghost predicate Placed(g: Sphere, w: World) {
    PlacedBut(g, w, {})
  }

  /** Every primitive `d` added to `v` is drawn from the zone state `d`
      ends with. */
  ghost predicate DrawnCurrent(g: Sphere, v: MapView, d: Drawing) {
    forall id: PrimId :: Added(v, d.view, id) ==>
      d.view.prims[id].shape == ShapeFor(g, v.bearing, d.zone, d.view.prims[id].role)
  }

  /** The center marker `m` is its zone's, moved to where it is now. */
  ghost predicate Grabbed(w: World, m: PrimId) {
    && IsMarker(w.view, m) && w.view.prims[m].owner in w.heap
    && w.view.prims[m].shape == CenterShape(w.heap[w.view.prims[m].owner].(location := PositionOf(w.view, m)))
  }

  /** A field in the removed set names one of the removed ids. */
  lemma FieldInRoleIds(z: ZoneRec, gone: set<Role>, role: Role)
    requires role in gone && z.Field(role).Some?
    ensures z.Field(role).value in RoleIds(z, gone)
  {
    match role
    case CenterRole =>
    case CircleRole =>
    case ResizeRole =>
    case CloseRole =>
  }

  /** Storing a redraw of zone `o` keeps every primitive outside `skip`
      placed, when the new primitives are drawn from the zone's final
      state and every kept field outside `skip` looks the same in it. */
  lemma StorePlaced(g: Sphere, w: World, o: ZoneRef, d: Drawing, gone: set<Role>, redrawn: set<Role>, k: nat, skip: set<PrimId>)
    requires Wf(w) && o in w.heap && LiveExact(w) && PlacedBut(g, w, skip)
    requires Redraws(w.view, o, w.heap[o], d, gone, redrawn, k)
    requires DrawnCurrent(g, w.view, d)
    requires forall role ::
               (role !in gone && role != ResizeRole && w.heap[o].Field(role).Some? && w.heap[o].Field(role).value !in skip) ==>
               ShapeFor(g, w.view.bearing, d.zone, role) == ShapeFor(g, w.view.bearing, w.heap[o], role)
    ensures PlacedBut(g, Store(w, o, d), skip)
  {
    var w' := Store(w, o, d);
    var z := w.heap[o];
    forall id: PrimId | id !in skip ensures PlacedAt(g, w', id) {
      if id in w'.view.live && id < |w'.view.prims| && w'.view.prims[id].owner in w'.heap
         && w'.view.prims[id].role != ResizeRole {
        if id < |w.view.prims| {
          var p := w.view.prims[id];
          assert w'.view.prims[id] == p;
          assert id in w.view.live && id !in RoleIds(z, gone);
          assert PlacedAt(g, w, id);
          if p.owner == o {
            assert Expected(w, id);
            if p.role in gone {
              FieldInRoleIds(z, gone, p.role);
            }
          }
        } else {
          assert Added(w.view, d.view, id);
        }
      }
    }
  }

  // Each per-zone redraw draws from the zone state it ends with.

  lemma DeactivateCurrent(v: MapView, g: Sphere, r: ZoneRef, z: ZoneRec)
    ensures DrawnCurrent(g, v, Deactivate(v, g, r, z))
  {
    var d := Deactivate(v, g, r, z);
    assert forall id: PrimId :: Added(v, d.view, id) ==> id == |v.prims|;
  }

  lemma RefreshHandlesCurrent(v: MapView, g: Sphere, r: ZoneRef, z: ZoneRec)
    ensures DrawnCurrent(g, v, RefreshHandles(v, g, r, z))
  {
    var d := RefreshHandles(v, g, r, z);
    assert forall id: PrimId :: Added(v, d.view, id) ==> id == |v.prims| || id == |v.prims| + 1;
  }

  lemma ResizeToCurrent(v: MapView, g: Sphere, r: ZoneRef, z: ZoneRec, pos: LatLng)
    ensures DrawnCurrent(g, v, ResizeTo(v, g, r, z, pos))
  {
    var d := ResizeTo(v, g, r, z, pos);
    assert forall id: PrimId :: Added(v, d.view, id) ==> id == |v.prims| || id == |v.prims| + 1;
  }

  lemma MoveToCurrent(v: MapView, g: Sphere, r: ZoneRef, z: ZoneRec, pos: LatLng)
    ensures DrawnCurrent(g, v, MoveTo(v, g, r, z, pos))
  {
    var d := MoveTo(v, g, r, z, pos);
    assert forall id: PrimId :: Added(v, d.view, id) ==> id == |v.prims| || id == |v.prims| + 1 || id == |v.prims| + 2;
  }

  lemma SnapCurrent(v: MapView, g: Sphere, r: ZoneRef, z: ZoneRec, pos: LatLng)
    requires Overlaps(v, g, z, pos)
    ensures DrawnCurrent(g, v, Snap(v, g, r, z, pos))
  {
    var d := Snap(v, g, r, z, pos);
    assert forall id: PrimId :: Added(v, d.view, id) ==> id == |v.prims|;
  }

  // ---------------------------------------------------------------------
  // The registry operations

  /** Building a zone object moves nothing. */
  lemma ConstructPlaced(g: Sphere, w: World, r: ZoneRef, cfg: Config, location: LatLng, radius: real)
    requires Consistent(w) && Placed(g, w) && r !in w.heap
    ensures Placed(g, Construct(w, r, cfg, location, radius))
  {
    var w' := Construct(w, r, cfg, location, radius);
    forall id: PrimId ensures PlacedAt(g, w', id) {
      assert PlacedAt(g, w, id);
    }
  }

  /** Removing a zone only takes primitives off the map. */
  lemma RemovePlaced(g: Sphere, w: World, z: ZoneRef)
    requires Wf(w) && z in w.heap && Placed(g, w)
    ensures Placed(g, Remove(w, z))
  {
    var w' := Remove(w, z);
    forall id: PrimId ensures PlacedAt(g, w', id) {
      assert PlacedAt(g, w, id);
    }
  }

  /** After the sweep every live primitive is a new one, drawn from its
      zone's final fields. */
  lemma SweptPlaced(g: Sphere, w: World, w': World, z: ZoneRef)
    requires Consistent(w) && Wf(w') && w'.heap.Keys == w.heap.Keys
    requires Swept(g, w, w', z) && NoDup(w'.zones)
    ensures Placed(g, w')
  {
    forall id: PrimId ensures PlacedAt(g, w', id) {
      if id in w'.view.live && id < |w'.view.prims| && w'.view.prims[id].role != ResizeRole {
        if id in w.view.live {
          LiveOwned(w, id);
        }
        assert Added(w.view, w'.view, id);
        var o := w'.view.prims[id].owner;
        assert o in w'.zones && w'.heap[o].Field(w'.view.prims[id].role) == Some(id);
        assert Rendered(g, w'.view, o, w'.heap[o]);
      }
    }
  }

  /** `showOnMap` of a showable zone draws everything in place. */
  lemma ShowOnMapPlaced(g: Sphere, w: World, z: ZoneRef)
    requires Consistent(w) && z in w.heap && z !in w.zones
    ensures Placed(g, ShowOnMap(w, g, z))
  {
    NoDupAppend(w.zones, z);
    SweptPlaced(g, w, ShowOnMap(w, g, z), z);
  }

  /** `setSelected` draws everything in place. */
  lemma SetSelectedPlaced(g: Sphere, w: World, z: ZoneRef)
    requires Consistent(w) && z in w.heap
    ensures Placed(g, SetSelected(w, g, z))
  {
    SweptPlaced(g, w, SetSelected(w, g, z), z);
  }

  // ---------------------------------------------------------------------
  // The listeners

  /** The only live close marker belongs to the selected zone, so after the
      camera turns only that marker is out of place until it is drawn
      again. */
  lemma TurnedPlaced(g: Sphere, w: World, bearing: real)
    requires Consistent(w) && Placed(g, w)
    ensures var w1 := w.(view := w.view.(bearing := bearing));
            && (Find(w, Selected).None? ==> Placed(g, w1))
            && (Find(w, Selected).Some? ==> PlacedBut(g, w1, Ids(w.heap[Find(w, Selected).value].markerClose)))
  {
    var w1 := w.(view := w.view.(bearing := bearing));
    var skip := if Find(w, Selected).Some? then Ids(w.heap[Find(w, Selected).value].markerClose) else {};
    forall id: PrimId | id !in skip ensures PlacedAt(g, w1, id) {
      assert PlacedAt(g, w, id);
      if id in w.view.live && w.view.prims[id].role == CloseRole {
        assert Expected(w, id);
      }
    }
  }

  /** The camera-move listener leaves everything in place: the selected
      zone's close marker is drawn again at the new bearing. */
  lemma CameraPlaced(g: Sphere, w: World, bearing: real)
    requires Consistent(w) && Placed(g, w)
    ensures Placed(g, OnCameraMove(w, g, bearing))
  {
    var w1 := w.(view := w.view.(bearing := bearing));
    BearingConsistent(w, bearing);
    TurnedPlaced(g, w, bearing);
    assert Find(w1, Selected) == Find(w, Selected);
    match Find(w1, Selected)
    case None =>
    case Some(r) =>
      var z := w1.heap[r];
      var skip := Ids(z.markerClose);
      var d := RefreshHandles(w1.view, g, r, z);
      RefreshHandlesRedraws(w1.view, g, r, z);
      RefreshHandlesCurrent(w1.view, g, r, z);
      StorePlaced(g, w1, r, d, {CloseRole, ResizeRole}, {CloseRole, ResizeRole}, 2, skip);
      var w' := Store(w1, r, d);
      assert OnCameraMove(w, g, bearing) == w';
      forall id: PrimId ensures PlacedAt(g, w', id) {
        if id in skip {
          assert id in RoleIds(z, {CloseRole, ResizeRole});
        }
      }
  }

  /** Recording a callback moves nothing. */
  lemma FiredPlaced(g: Sphere, w: World, w': World)
    requires Placed(g, w) && w'.heap == w.heap && w'.view == w.view
    ensures Placed(g, w')
  {
    forall id: PrimId ensures PlacedAt(g, w', id) {
      assert PlacedAt(g, w, id);
    }
  }

  /** A click on a marker on the map leaves everything in place. */
  lemma ClickPlaced(g: Sphere, w: World, m: PrimId)
    requires Consistent(w) && Placed(g, w) && OnMap(w, m)
    ensures Placed(g, OnMarkerClick(w, g, m))
  {
    ClickDispatch(w, g, m);
    MarkerResolves(w, m);
    var o := w.view.prims[m].owner;
    match w.view.prims[m].role
    case CenterRole =>
      SetSelectedPlaced(g, w, o);
    case CircleRole =>
    case ResizeRole =>
    case CloseRole =>
      if w.heap[o].cfg.hasOnClose {
        FiredPlaced(g, w, OnMarkerClick(w, g, m));
      } else {
        RemovePlaced(g, w, o);
      }
  }

  /** The map moving a marker leaves every other primitive in place, and a
      center marker in place up to its position. */
  lemma MovedPlaced(g: Sphere, w: World, m: PrimId, pos: LatLng)
    requires Consistent(w) && Placed(g, w) && OnMap(w, m) && w.view.prims[m].role == CenterRole
    ensures PlacedBut(g, Moved(w, m, pos), {m}) && Grabbed(Moved(w, m, pos), m)
  {
    var w' := Moved(w, m, pos);
    forall id: PrimId | id != m ensures PlacedAt(g, w', id) {
      assert PlacedAt(g, w, id);
    }
    assert PlacedAt(g, w, m);
  }

  /** The map moving a resize marker leaves everything in place. */
  lemma MovedHandlePlaced(g: Sphere, w: World, m: PrimId, pos: LatLng)
    requires Wf(w) && Placed(g, w) && IsMarker(w.view, m) && w.view.prims[m].role == ResizeRole
    ensures Placed(g, Moved(w, m, pos))
  {
    var w' := Moved(w, m, pos);
    forall id: PrimId ensures PlacedAt(g, w', id) {
      assert PlacedAt(g, w, id);
    }
  }

  /** `updateMarkers` during a drag is a redraw of the dragged marker's
      zone. */
  lemma FollowIsStore(g: Sphere, w: World, m: PrimId)
    requires Dragging(w, m)
    ensures var o := w.view.prims[m].owner;
            var z := w.heap[o];
            var pos := PositionOf(w.view, m);
            UpdateMarkers(w, g, m)
              == Store(w, o, if w.view.prims[m].role == ResizeRole then ResizeTo(w.view, g, o, z, pos) else MoveTo(w.view, g, o, z, pos))
  {
    MarkerResolves(w, m);
  }

  /** `updateMarkers` during a drag puts everything in place: a moved
      center marker is matched by the zone moving to it; a resize marker
      is not placed. */
  lemma FollowPlaced(g: Sphere, w: World, m: PrimId)
    requires Dragging(w, m) && PlacedBut(g, w, {m})
    requires w.view.prims[m].role == CenterRole ==> Grabbed(w, m)
    ensures Placed(g, UpdateMarkers(w, g, m))
  {
    MarkerResolves(w, m);
    FollowIsStore(g, w, m);
    var o := w.view.prims[m].owner;
    var z := w.heap[o];
    var pos := PositionOf(w.view, m);
    if w.view.prims[m].role == ResizeRole {
      ResizePlaced(g, w, o, m, pos);
    } else {
      MoveToRedraws(w.view, g, o, z, pos);
      MovePlaced(g, w, o, z, m, pos);
    }
  }

  /** The resize branch of `updateMarkers` puts everything in place; the
      dragged resize marker is not placed. */
  lemma ResizePlaced(g: Sphere, w: World, o: ZoneRef, m: PrimId, pos: LatLng)
    requires Wf(w) && o in w.heap && LiveExact(w) && PlacedBut(g, w, {m})
    requires w.heap[o].isSelected && m < |w.view.prims| && w.view.prims[m].role == ResizeRole
    ensures Placed(g, Store(w, o, ResizeTo(w.view, g, o, w.heap[o], pos)))
  {
    var z := w.heap[o];
    var d := ResizeTo(w.view, g, o, z, pos);
    ResizeToRedraws(w.view, g, o, z, pos);
    ResizeToCurrent(w.view, g, o, z, pos);
    StorePlaced(g, w, o, d, {CircleRole, CloseRole}, {CircleRole, CloseRole}, 2, {m});
    assert Store(w, o, d).view.prims[m] == w.view.prims[m];
  }

  /** Moving zone `o`, in state `z`, to the position `p` its grabbed
      center marker `m` was moved to puts everything in place. */
  lemma MovePlaced(g: Sphere, w: World, o: ZoneRef, z: ZoneRec, m: PrimId, p: LatLng)
    requires Wf(w) && o in w.heap && LiveExact(w) && PlacedBut(g, w, {m})
    requires z.cfg == w.heap[o].cfg && w.heap[o].marker == Some(m)
    requires m < |w.view.prims| && w.view.prims[m].owner == o && w.view.prims[m].role == CenterRole
    requires w.view.prims[m].shape == CenterShape(z.(location := p))
    requires Redraws(w.view, o, w.heap[o], MoveTo(w.view, g, o, z, p), {CircleRole, ResizeRole, CloseRole}, {CircleRole, ResizeRole, CloseRole}, 3)
    ensures Placed(g, Store(w, o, MoveTo(w.view, g, o, z, p)))
  {
    var all := {CircleRole, ResizeRole, CloseRole};
    var d := MoveTo(w.view, g, o, z, p);
    MoveToCurrent(w.view, g, o, z, p);
    StorePlaced(g, w, o, d, all, all, 3, {m});
    var w' := Store(w, o, d);
    assert w'.view.prims[m] == w.view.prims[m];
    assert PlacedAt(g, w', m);
  }

  /** A drag event leaves everything in place. */
  lemma DragPlaced(g: Sphere, w: World, m: PrimId, pos: LatLng)
    requires Dragging(w, m) && Placed(g, w)
    ensures Placed(g, OnMarkerDrag(w, g, m, pos))
  {
    MovedDragging(w, m, pos);
    MarkerResolves(w, m);
    if w.view.prims[m].role == CenterRole {
      MovedPlaced(g, w, m, pos);
    } else {
      MovedHandlePlaced(g, w, m, pos);
    }
    FollowPlaced(g, Moved(w, m, pos), m);
  }

  /** Any number of drag events leaves everything in place. */
  lemma {:induction false} DragAlongPlaced(g: Sphere, w: World, m: PrimId, moves: seq<LatLng>)
    requires Dragging(w, m) && Placed(g, w)
    ensures Placed(g, DragAlong(w, g, m, moves))
    decreases |moves|
  {
    if moves != [] {
      DragPlaced(g, w, m, moves[0]);
      DragConsistent(w, g, m, moves[0]);
      DragAlongPlaced(g, OnMarkerDrag(w, g, m, moves[0]), m, moves[1..]);
    }
  }

  /** The drag-start deselection keeps every primitive but the grabbed
      center marker in place, and that one grabbed. */
  lemma DeselectPlaced(g: Sphere, w: World, m: PrimId)
    requires Consistent(w) && OnMap(w, m) && w.view.prims[m].role == CenterRole
    requires PlacedBut(g, w, {m}) && Grabbed(w, m)
    ensures PlacedBut(g, DeselectForDrag(w, g, m), {m}) && Grabbed(DeselectForDrag(w, g, m), m)
  {
    MarkerResolves(w, m);
    match Find(w, Selected)
    case None =>
    case Some(s) =>
      var z := w.heap[s];
      var d := Deactivate(w.view, g, s, z);
      DeactivateRedraws(w.view, g, s, z);
      DeactivateCurrent(w.view, g, s, z);
      DeactivateConsistent(w, g, s, m);
      StorePlaced(g, w, s, d, {CircleRole, CloseRole, ResizeRole}, {CircleRole}, 1, {m});
  }

  /** The drag-start listener leaves everything in place. */
  lemma DragStartPlaced(g: Sphere, w: World, m: PrimId, pos: LatLng)
    requires Consistent(w) && Placed(g, w) && OnMap(w, m) && w.view.prims[m].shape.draggable
    ensures Placed(g, OnMarkerDragStart(w, g, m, pos))
  {
    var w0 := Moved(w, m, pos);
    MovedConsistent(w, m, pos);
    MarkerResolves(w0, m);
    var o := w0.view.prims[m].owner;
    if w0.view.prims[m].role == ResizeRole {
      MovedHandlePlaced(g, w, m, pos);
      assert DeselectForDrag(w0, g, m) == w0;
      assert w0.heap[o := w0.heap[o].(isSelected := true)] == w0.heap;
      assert MarkDragged(w0, m) == w0;
      FollowPlaced(g, w0, m);
    } else {
      MovedPlaced(g, w, m, pos);
      var w1 := DeselectForDrag(w0, g, m);
      DeselectConsistent(w0, g, m);
      DeselectPlaced(g, w0, m);
      GrabPlaced(g, w1, m);
    }
  }

  /** The rest of a drag start on a center marker, once nothing is
      selected: the zone is selected and moved to the marker, which puts
      the marker back in place. */
  lemma GrabPlaced(g: Sphere, w: World, m: PrimId)
    requires Consistent(w) && OnMap(w, m) && w.view.prims[m].role == CenterRole
    requires forall x :: x in w.zones ==> !w.heap[x].isSelected
    requires PlacedBut(g, w, {m}) && Grabbed(w, m)
    ensures Placed(g, UpdateMarkers(MarkDragged(w, m), g, m))
  {
    MarkerResolves(w, m);
    var o := w.view.prims[m].owner;
    var z := w.heap[o];
    var p := PositionOf(w.view, m);
    var all := {CircleRole, ResizeRole, CloseRole};
    GrabIsRedraw(w, g, m, o);
    var d := MoveTo(w.view, g, o, z.(isSelected := true), p);
    MoveToRedraws(w.view, g, o, z.(isSelected := true), p);
    RedrawsFromSelected(w.view, o, z, d, all, all, 3);
    MovePlaced(g, w, o, z.(isSelected := true), m, p);
  }

  /** The drag-end listener leaves everything in place; the anti-overlap
      rule only redraws the resize marker. */
  lemma DragEndPlaced(g: Sphere, w: World, m: PrimId, pos: LatLng)
    requires Dragging(w, m) && Placed(g, w)
    ensures Placed(g, OnMarkerDragEnd(w, g, m, pos))
  {
    var w1 := OnMarkerDrag(w, g, m, pos);
    DragPlaced(g, w, m, pos);
    DragConsistent(w, g, m, pos);
    CheckPlaced(g, w1, m);
    FiredPlaced(g, CheckResizeMarkerHeadingOverlap(w1, g, m), OnMarkerDragEnd(w, g, m, pos));
  }

  /** The anti-overlap rule at the end of a drag leaves everything in
      place. */
  lemma CheckPlaced(g: Sphere, w: World, m: PrimId)
    requires Dragging(w, m) && Placed(g, w)
    ensures Placed(g, CheckResizeMarkerHeadingOverlap(w, g, m))
  {
    MarkerResolves(w, m);
    var o := w.view.prims[m].owner;
    var p := PositionOf(w.view, m);
    if IsResizeTitle(TitleOf(w.view, m)) && Overlaps(w.view, g, w.heap[o], p) {
      SnapPlaced(g, w, o, p);
    }
  }

  /** The snap redraws only the resize marker, so it leaves everything in
      place. */
  lemma SnapPlaced(g: Sphere, w: World, o: ZoneRef, p: LatLng)
    requires Wf(w) && o in w.heap && LiveExact(w) && Placed(g, w)
    requires w.heap[o].isSelected && Overlaps(w.view, g, w.heap[o], p)
    ensures Placed(g, Store(w, o, Snap(w.view, g, o, w.heap[o], p)))
  {
    var z := w.heap[o];
    SnapRedraws(w.view, g, o, z, p);
    SnapCurrent(w.view, g, o, z, p);
    StorePlaced(g, w, o, Snap(w.view, g, o, z, p), {ResizeRole}, {ResizeRole}, 1, {});
  }

  /** A whole drag gesture leaves everything in place. */
  lemma GesturePlaced(g: Sphere, w: World, m: PrimId, start: LatLng, moves: seq<LatLng>, end: LatLng)
    requires Consistent(w) && Placed(g, w) && OnMap(w, m) && w.view.prims[m].shape.draggable
    ensures Placed(g, Gesture(w, g, m, start, moves, end))
  {
    var w1 := OnMarkerDragStart(w, g, m, start);
    DragStartConsistent(w, g, m, start);
    DragStartPlaced(g, w, m, start);
    DragAlongConsistent(w1, g, m, moves);
    DragAlongPlaced(g, w1, m, moves);
    DragEndPlaced(g, DragAlong(w1, g, m, moves), m, end);
  }

  /** Every event leaves the primitives in place. */
  lemma StepPlaced(g: Sphere, w: World, e: Event)
    requires Consistent(w) && Placed(g, w)
    ensures Placed(g, Step(w, g, e))
  {
    if Enabled(w, e) {
      match e
      case Build(r, cfg, location, radius) => ConstructPlaced(g, w, r, cfg, location, radius);
      case Show(r) => ShowOnMapPlaced(g, w, r);
      case Select(r) => SetSelectedPlaced(g, w, r);
      case Unregister(r) => RemovePlaced(g, w, r);
      case CameraMove(bearing) => CameraPlaced(g, w, bearing);
      case Click(m) => ClickPlaced(g, w, m);
      case Drag(m, start, moves, end) => GesturePlaced(g, w, m, start, moves, end);
    }
  }

  /** From a consistent state with everything in place, such as the empty
      one, every sequence of events keeps every live center marker, circle
      and close marker where its zone's fields put it. */
  lemma {:induction false} RunPlaced(g: Sphere, w: World, es: seq<Event>)
    requires Consistent(w) && Placed(g, w)
    ensures Placed(g, Run(w, g, es))
    decreases |es|
  {
    if es != [] {
      StepPlaced(g, w, es[0]);
      StepConsistent(w, g, es[0]);
      RunPlaced(g, Step(w, g, es[0]), es[1..]);
    }
  }

  // ---------------------------------------------------------------------
  // The resize marker is not kept in place

  /** A resize drag leaves the resize marker where the user dropped it: the
      zone keeps referencing it, it stays on the map, and the resize branch
      of `updateMarkers` never draws it again. */
  lemma ResizeHandleStaysAtDrop(g: Sphere, w: World, m: PrimId, pos: LatLng)
    requires Dragging(w, m) && w.view.prims[m].role == ResizeRole
    ensures var w' := OnMarkerDrag(w, g, m, pos);
            var o := w.view.prims[m].owner;
            && m in w'.view.live && w'.heap[o].markerResize == Some(m)
            && PositionOf(w'.view, m) == pos
  {
    MarkerResolves(w, m);
    DragConsistent(w, g, m, pos);
    MovedDragging(w, m, pos);
    MarkerResolves(Moved(w, m, pos), m);
  }

  /** A flat toy geometry: the offset moves north by the distance, the
      distance is the difference in latitude. */
  const Flat: Sphere := Sphere(
    (p: LatLng, d: real, h: real) => LatLng(p.latitude + d, p.longitude),
    (a: LatLng, b: LatLng) => b.latitude - a.latitude,
    (a: LatLng, b: LatLng) => 0.0)

  /** Dragging a resize marker to 1 metre from the center clamps the radius
      to 5 metres, so the fields place the resize marker 5 metres out while
      it stays at the drop point 1 metre out. */
  lemma ClampedResizeLeavesHandleBehind()
    ensures var z := NewZone(DefaultConfig, LatLng(0.0, 0.0), DefaultRadius);
            var pos := LatLng(1.0, 0.0);
            var d := ResizeTo(MapView(0.0, [], {}), Flat, 0, z, pos);
            && Flat.computeOffset(z.location, Flat.computeDistanceBetween(z.location, pos), Flat.computeHeading(z.location, pos)) == pos
            && d.zone.radius == MinimumRadius
            && ResizeShape(Flat, 0.0, d.zone).position == LatLng(5.0, 0.0)
            && ResizeShape(Flat, 0.0, d.zone).position != pos
  {
  }
}
