/** What the listeners do to a consistent state: how a marker delivered by
    the map is resolved to its zone from its title, what a click on each
    kind of marker does, the invariant across a whole drag gesture, and the
    invariant across any sequence of events. Also the behaviour of the
    string dispatch outside the invariant. */
module Session {
  import opened Base
  import opened Text
  import opened Geo
  import opened Surface
  import opened Zones
  import opened Registry
  import opened Handlers
  import opened Invariant

  /** Marker `m` is on the map, so the map can deliver events for it. */
  predicate OnMap(w: World, m: PrimId) {
    m in w.view.live && IsMarker(w.view, m)
  }

  // ---------------------------------------------------------------------
  // Resolving a marker from its title

  /** A title lookup for a registered zone's own title finds that zone. */
  lemma FindOwnTitle(w: World, r: ZoneRef)
    requires Wf(w) && UniqueTitles(w) && r in w.zones
    ensures Find(w, TitleIs(w.heap[r].cfg.title)) == Some(r)
  {
  }

  /** A title lookup for a string carrying a handle suffix finds nothing
      while the registered titles are clean. */
  lemma FindSuffixedTitle(w: World, t: string)
    requires Wf(w) && CleanTitles(w)
    requires Contains(t, ResizeMarkerTitleSuffix) || Contains(t, CloseMarkerTitleSuffix)
    ensures Find(w, TitleIs(t)).None?
  {
  }

  /** A clean title is not a handle title, and "_resize" is not stripped
      from it. */
  lemma CleanTitleClassifies(t: string)
    requires !Contains(t, ResizeMarkerTitleSuffix) && !Contains(t, CloseMarkerTitleSuffix)
    ensures !IsResizeTitle(t) && !IsCloseTitle(t)
    ensures RemoveSuffix(t, ResizeMarkerTitleSuffix) == t
  {
    if EndsWith(t, ResizeMarkerTitleSuffix) {
      EndsWithContains(t, ResizeMarkerTitleSuffix);
    }
  }

  /** Under the invariant a marker on the map is the center marker or a
      handle of a registered zone, which still references it; its title
      classifies it correctly; and the drag lookup (for the center and
      resize markers) and the close lookup (for the close marker) both
      resolve it to that zone. A handle on the map belongs to the selected
      zone. */
  lemma MarkerResolves(w: World, m: PrimId)
    requires Consistent(w) && OnMap(w, m)
    ensures var o := w.view.prims[m].owner;
            var role := w.view.prims[m].role;
            && o in w.zones
            && w.heap[o].Field(role) == Some(m)
            && role != CircleRole
            && (IsHandle(role) ==> w.heap[o].isSelected)
            && (role == CenterRole <==> !IsResizeTitle(TitleOf(w.view, m)) && !IsCloseTitle(TitleOf(w.view, m)))
            && (role == ResizeRole <==> IsResizeTitle(TitleOf(w.view, m)))
            && (role == CloseRole <==> IsCloseTitle(TitleOf(w.view, m)))
            && (role == CenterRole || role == ResizeRole ==> DragTarget(w, m) == Some(o))
            && (role == CloseRole ==> CloseTarget(w, m) == Some(o))
            && (role == CenterRole || role == ResizeRole ==> CloseTarget(w, m).None?)
  {
    assert Expected(w, m);
    var o := w.view.prims[m].owner;
    var t := w.heap[o].cfg.title;
    assert ShapeFits(w.view.prims[m], w.heap[o].cfg);
    FindOwnTitle(w, o);
    CleanTitleClassifies(t);
    match w.view.prims[m].role
    case CenterRole =>
    case CircleRole =>
    case ResizeRole =>
      StripAppended(t, ResizeMarkerTitleSuffix);
      ResizeTitleHasNoClose(t);
    case CloseRole =>
      StripAppended(t, CloseMarkerTitleSuffix);
      CloseTitleHasNoResize(t);
  }

  // ---------------------------------------------------------------------
  // Clicks

  /** Recording a callback does not touch the invariant. */
  lemma FiredConsistent(w: World, w': World)
    requires Consistent(w)
    requires w'.zones == w.zones && w'.heap == w.heap && w'.view == w.view
    ensures Consistent(w')
  {
    assert forall id :: Expected(w', id) <==> Expected(w, id);
  }

  /** What a click on each kind of marker does under the invariant: a
      center marker selects its zone with the full sweep; a resize marker
      does nothing; a close marker fires its zone's close listener when it
      has one and removes the zone otherwise. */
  lemma ClickDispatch(w: World, g: Sphere, m: PrimId)
    requires Consistent(w) && OnMap(w, m)
    ensures var o := w.view.prims[m].owner;
            var role := w.view.prims[m].role;
            var w' := OnMarkerClick(w, g, m);
            && (role == CenterRole ==> w' == SetSelected(w, g, o))
            && (role == ResizeRole ==> w' == w)
            && (role == CloseRole && w.heap[o].cfg.hasOnClose ==> w' == w.(fired := w.fired + [CloseFired(o)]))
            && (role == CloseRole && !w.heap[o].cfg.hasOnClose ==> w' == Remove(w, o))
  {
    MarkerResolves(w, m);
    var o := w.view.prims[m].owner;
    var t := TitleOf(w.view, m);
    match w.view.prims[m].role
    case CenterRole =>
      assert ClickCleared(w, m) == w;
      FindOwnTitle(w, o);
    case CircleRole =>
    case ResizeRole =>
      assert ClickCleared(w, m) == w;
      FindSuffixedTitle(w, t);
    case CloseRole =>
      if !w.heap[o].cfg.hasOnClose {
        var w2 := Remove(w, o);
        assert ClickCleared(w, m) == w2;
        RemoveFirstMembers(w.zones, o);
        assert CleanTitles(w2);
        FindSuffixedTitle(w2, t);
      }
  }

  /** A click on any marker on the map keeps the invariant. */
  lemma ClickConsistent(w: World, g: Sphere, m: PrimId)
    requires Consistent(w) && OnMap(w, m)
    ensures Consistent(OnMarkerClick(w, g, m))
  {
    ClickDispatch(w, g, m);
    MarkerResolves(w, m);
    var o := w.view.prims[m].owner;
    match w.view.prims[m].role
    case CenterRole =>
      SetSelectedConsistent(w, g, o);
    case CircleRole =>
    case ResizeRole =>
    case CloseRole =>
      if w.heap[o].cfg.hasOnClose {
        FiredConsistent(w, OnMarkerClick(w, g, m));
      } else {
        RemoveConsistent(w, o);
      }
  }

  // ---------------------------------------------------------------------
  // Drags

  /** Marker `m` is being dragged: it is a draggable marker on the map and
      its zone is the selected one. */
  ghost predicate Dragging(w: World, m: PrimId) {
    && Consistent(w) && OnMap(w, m)
    && w.view.prims[m].shape.draggable
    && w.view.prims[m].owner in w.heap
    && w.heap[w.view.prims[m].owner].isSelected
  }

  /** A redraw that does not remove the field a live primitive was drawn
      for leaves that primitive on the map as it was. */
  lemma StoreKeepsMarker(w: World, o: ZoneRef, d: Drawing, gone: set<Role>, redrawn: set<Role>, k: nat, m: PrimId)
    requires Wf(w) && o in w.heap && Tagged(w)
    requires Redraws(w.view, o, w.heap[o], d, gone, redrawn, k)
    requires m in w.view.live && m < |w.view.prims| && w.view.prims[m].role !in gone
    ensures m in Store(w, o, d).view.live && m < |Store(w, o, d).view.prims|
    ensures Store(w, o, d).view.prims[m] == w.view.prims[m]
  {
    if m in RoleIds(w.heap[o], gone) {
      RoleIdsTagged(w, o, gone, m);
    }
  }

  /** A redraw of a zone marked selected is a redraw of the zone before it
      was marked, when the handles are among the removed fields. */
  lemma RedrawsFromSelected(v: MapView, o: ZoneRef, z: ZoneRec, d: Drawing, gone: set<Role>, redrawn: set<Role>, k: nat)
    requires Redraws(v, o, z.(isSelected := true), d, gone, redrawn, k)
    requires ResizeRole in gone && CloseRole in gone
    ensures Redraws(v, o, z, d, gone, redrawn, k)
  {
    assert RoleIds(z.(isSelected := true), gone) == RoleIds(z, gone);
    assert forall role :: z.(isSelected := true).Field(role) == z.Field(role);
  }

  /** `updateMarkers` during a drag keeps the invariant and the drag: the
      dragged marker is not among the primitives it redraws. */
  lemma FollowConsistent(w: World, g: Sphere, m: PrimId)
    requires Dragging(w, m)
    ensures Dragging(UpdateMarkers(w, g, m), m)
    ensures UpdateMarkers(w, g, m).view.prims[m] == w.view.prims[m]
  {
    MarkerResolves(w, m);
    var o := w.view.prims[m].owner;
    var z := w.heap[o];
    var pos := PositionOf(w.view, m);
    if w.view.prims[m].role == ResizeRole {
      var d := ResizeTo(w.view, g, o, z, pos);
      ResizeToRedraws(w.view, g, o, z, pos);
      StoreConsistent(w, o, d, {CircleRole, CloseRole}, {CircleRole, CloseRole}, 2);
      StoreKeepsMarker(w, o, d, {CircleRole, CloseRole}, {CircleRole, CloseRole}, 2, m);
      assert UpdateMarkers(w, g, m) == Store(w, o, d);
    } else {
      var d := MoveTo(w.view, g, o, z, pos);
      MoveToRedraws(w.view, g, o, z, pos);
      StoreConsistent(w, o, d, {CircleRole, ResizeRole, CloseRole}, {CircleRole, ResizeRole, CloseRole}, 3);
      StoreKeepsMarker(w, o, d, {CircleRole, ResizeRole, CloseRole}, {CircleRole, ResizeRole, CloseRole}, 3, m);
      assert UpdateMarkers(w, g, m) == Store(w, o, d);
    }
  }

  /** The map moving the dragged marker keeps the drag. */
  lemma MovedDragging(w: World, m: PrimId, pos: LatLng)
    requires Dragging(w, m)
    ensures Dragging(Moved(w, m, pos), m)
  {
    MovedConsistent(w, m, pos);
  }

  /** The drag listener keeps the invariant and the drag. */
  lemma DragConsistent(w: World, g: Sphere, m: PrimId, pos: LatLng)
    requires Dragging(w, m)
    ensures Dragging(OnMarkerDrag(w, g, m, pos), m)
  {
    MovedDragging(w, m, pos);
    FollowConsistent(Moved(w, m, pos), g, m);
  }

  /** The deselection at the start of a drag on a center marker keeps the
      invariant, leaves no zone selected, and leaves the marker alone. */
  lemma DeselectConsistent(w: World, g: Sphere, m: PrimId)
    requires Consistent(w) && OnMap(w, m) && w.view.prims[m].role == CenterRole
    ensures var w' := DeselectForDrag(w, g, m);
            && Consistent(w')
            && (forall x :: x in w'.zones ==> !w'.heap[x].isSelected)
            && OnMap(w', m) && w'.view.prims[m] == w.view.prims[m]
  {
    MarkerResolves(w, m);
    match Find(w, Selected)
    case None =>
    case Some(s) =>
      DeactivateConsistent(w, g, s, m);
  }

  /** Deactivating the only selected zone keeps the invariant, leaves no
      zone selected, and keeps every center marker on the map. */
  lemma DeactivateConsistent(w: World, g: Sphere, s: ZoneRef, m: PrimId)
    requires Consistent(w) && s in w.zones
    requires forall x :: x in w.zones && w.heap[x].isSelected ==> x == s
    requires m in w.view.live && m < |w.view.prims| && w.view.prims[m].role == CenterRole
    ensures var w' := Store(w, s, Deactivate(w.view, g, s, w.heap[s]));
            && Consistent(w')
            && (forall x :: x in w'.zones ==> !w'.heap[x].isSelected)
            && m in w'.view.live && m < |w'.view.prims| && w'.view.prims[m] == w.view.prims[m]
  {
    var d := Deactivate(w.view, g, s, w.heap[s]);
    var gone := {CircleRole, CloseRole, ResizeRole};
    DeactivateRedraws(w.view, g, s, w.heap[s]);
    StoreRedraw(w, s, d, gone, {CircleRole}, 1);
    StoreKeepsMarker(w, s, d, gone, {CircleRole}, 1, m);
  }

  /** Selecting and redrawing zone `o` in a consistent state where no zone
      is selected gives a consistent state. */
  lemma SelectDrawConsistent(w: World, o: ZoneRef, d: Drawing, gone: set<Role>, redrawn: set<Role>, k: nat)
    requires Consistent(w) && o in w.zones
    requires forall x :: x in w.zones ==> !w.heap[x].isSelected
    requires Redraws(w.view, o, w.heap[o], d, gone, redrawn, k)
    requires d.zone.isSelected && d.zone.marker.Some? && d.zone.circle.Some?
    requires d.zone.markerResize.Some? && d.zone.markerClose.Some?
    ensures Consistent(Store(w, o, d))
  {
    StoreRedraw(w, o, d, gone, redrawn, k);
  }

  /** The drag-start listener on a draggable marker on the map keeps the
      invariant and starts a drag: the marker's zone ends up the selected
      one. For a center marker the previously selected zone is first
      deselected, then the marker's zone is selected and moved; for a
      resize marker the zone is already selected and is resized. */
  lemma DragStartConsistent(w: World, g: Sphere, m: PrimId, pos: LatLng)
    requires Consistent(w) && OnMap(w, m) && w.view.prims[m].shape.draggable
    ensures Dragging(OnMarkerDragStart(w, g, m, pos), m)
  {
    var w0 := Moved(w, m, pos);
    MovedConsistent(w, m, pos);
    MarkerResolves(w0, m);
    var o := w0.view.prims[m].owner;
    assert ShapeFits(w0.view.prims[m], w0.heap[o].cfg);
    if w0.view.prims[m].role == ResizeRole {
      assert DeselectForDrag(w0, g, m) == w0;
      assert w0.heap[o := w0.heap[o].(isSelected := true)] == w0.heap;
      assert MarkDragged(w0, m) == w0;
      FollowConsistent(w0, g, m);
    } else {
      var w1 := DeselectForDrag(w0, g, m);
      DeselectConsistent(w0, g, m);
      GrabConsistent(w1, g, m);
    }
  }

  /** The rest of a drag start on a center marker, once no zone is
      selected: the marker's zone is marked selected and moved, which
      draws it again with its handles. */
  lemma GrabConsistent(w: World, g: Sphere, m: PrimId)
    requires Consistent(w) && OnMap(w, m) && w.view.prims[m].role == CenterRole
    requires forall x :: x in w.zones ==> !w.heap[x].isSelected
    ensures Dragging(UpdateMarkers(MarkDragged(w, m), g, m), m)
  {
    MarkerResolves(w, m);
    var o := w.view.prims[m].owner;
    GrabIsRedraw(w, g, m, o);
    GrabDraws(w, g, o, PositionOf(w.view, m), m);
  }

  /** A drag start on a center marker, after the deselection, is a redraw
      of the marker's zone moved to the marker and selected. */
  lemma GrabIsRedraw(w: World, g: Sphere, m: PrimId, o: ZoneRef)
    requires Wf(w) && IsMarker(w.view, m) && o in w.heap
    requires DragTarget(w, m) == Some(o) && !IsResizeTitle(TitleOf(w.view, m))
    ensures UpdateMarkers(MarkDragged(w, m), g, m)
              == Store(w, o, MoveTo(w.view, g, o, w.heap[o].(isSelected := true), PositionOf(w.view, m)))
  {
    var w2 := MarkDragged(w, m);
    var d := MoveTo(w.view, g, o, w.heap[o].(isSelected := true), PositionOf(w.view, m));
    assert w2 == w.(heap := w.heap[o := w.heap[o].(isSelected := true)]);
    assert UpdateMarkers(w2, g, m) == Store(w2, o, d);
    assert Store(w2, o, d).heap == Store(w, o, d).heap;
  }

  /** Moving and selecting a registered zone in a consistent state where
      no zone is selected keeps the invariant and leaves its center marker
      on the map. */
  lemma GrabDraws(w: World, g: Sphere, o: ZoneRef, p: LatLng, m: PrimId)
    requires Consistent(w) && o in w.zones
    requires forall x :: x in w.zones ==> !w.heap[x].isSelected
    requires m in w.view.live && m < |w.view.prims| && w.view.prims[m].role == CenterRole
    requires w.view.prims[m].owner == o
    ensures var w' := Store(w, o, MoveTo(w.view, g, o, w.heap[o].(isSelected := true), p));
            && Consistent(w') && m in w'.view.live && m < |w'.view.prims|
            && w'.view.prims[m] == w.view.prims[m] && w'.heap[o].isSelected
  {
    var z := w.heap[o];
    var all := {CircleRole, ResizeRole, CloseRole};
    var d := MoveTo(w.view, g, o, z.(isSelected := true), p);
    MoveToRedraws(w.view, g, o, z.(isSelected := true), p);
    RedrawsFromSelected(w.view, o, z, d, all, all, 3);
    SelectDrawConsistent(w, o, d, all, all, 3);
    StoreKeepsMarker(w, o, d, all, all, 3, m);
  }

  /** The drag-end listener at the end of a drag keeps the invariant,
      whether or not the anti-overlap rule moves the resize marker. */
  lemma DragEndConsistent(w: World, g: Sphere, m: PrimId, pos: LatLng)
    requires Dragging(w, m)
    ensures Consistent(OnMarkerDragEnd(w, g, m, pos))
  {
    var w0 := Moved(w, m, pos);
    MovedDragging(w, m, pos);
    var w1 := UpdateMarkers(w0, g, m);
    FollowConsistent(w0, g, m);
    var w2 := CheckResizeMarkerHeadingOverlap(w1, g, m);
    MarkerResolves(w1, m);
    var o := w1.view.prims[m].owner;
    var z := w1.heap[o];
    var p := PositionOf(w1.view, m);
    if IsResizeTitle(TitleOf(w1.view, m)) && Overlaps(w1.view, g, z, p) {
      var d := Snap(w1.view, g, o, z, p);
      SnapRedraws(w1.view, g, o, z, p);
      StoreConsistent(w1, o, d, {ResizeRole}, {ResizeRole}, 1);
      assert w2 == Store(w1, o, d);
    } else {
      assert w2 == w1;
    }
    var w3 := ExecuteOnResizeCompleteListener(w2, m);
    FiredConsistent(w2, w3);
    FiredConsistent(w3, OnMarkerDragEnd(w, g, m, pos));
  }

  // ---------------------------------------------------------------------
  // Whole gestures and event sequences

  /** The drag events of a gesture after its start: the map moves the
      marker through `moves`, calling the drag listener at each point. */
  function DragAlong(w: World, g: Sphere, m: PrimId, moves: seq<LatLng>): (w': World)
    requires Wf(w) && IsMarker(w.view, m)
    ensures Wf(w') && IsMarker(w'.view, m)
    ensures w'.zones == w.zones && w'.fired == w.fired && w'.heap.Keys == w.heap.Keys
    decreases |moves|
  {
    if moves == [] then w
    else DragAlong(OnMarkerDrag(w, g, m, moves[0]), g, m, moves[1..])
  }

  /** Every drag event keeps the invariant and the drag. */
  lemma {:induction false} DragAlongConsistent(w: World, g: Sphere, m: PrimId, moves: seq<LatLng>)
    requires Dragging(w, m)
    ensures Dragging(DragAlong(w, g, m, moves), m)
    decreases |moves|
  {
    if moves != [] {
      DragConsistent(w, g, m, moves[0]);
      DragAlongConsistent(OnMarkerDrag(w, g, m, moves[0]), g, m, moves[1..]);
    }
  }

  /** A whole drag gesture on marker `m`: drag start at `start`, drags
      through `moves`, drag end at `end`. */
  function Gesture(w: World, g: Sphere, m: PrimId, start: LatLng, moves: seq<LatLng>, end: LatLng): (w': World)
    requires Wf(w) && IsMarker(w.view, m)
    ensures Wf(w') && w'.zones == w.zones && w'.heap.Keys == w.heap.Keys
  {
    OnMarkerDragEnd(DragAlong(OnMarkerDragStart(w, g, m, start), g, m, moves), g, m, end)
  }

  /** A drag gesture on a draggable marker on the map keeps the invariant. */
  lemma GestureConsistent(w: World, g: Sphere, m: PrimId, start: LatLng, moves: seq<LatLng>, end: LatLng)
    requires Consistent(w) && OnMap(w, m) && w.view.prims[m].shape.draggable
    ensures Consistent(Gesture(w, g, m, start, moves, end))
  {
    var w1 := OnMarkerDragStart(w, g, m, start);
    DragStartConsistent(w, g, m, start);
    DragAlongConsistent(w1, g, m, moves);
    DragEndConsistent(DragAlong(w1, g, m, moves), g, m, end);
  }

  /** What can happen to the zones: the app builds a zone object, shows,
      selects or removes one; the user turns the camera, clicks a marker,
      or drags one. */
  datatype Event =
    | Build(r: ZoneRef, cfg: Config, location: LatLng, radius: real)
    | Show(r: ZoneRef)
    | Select(r: ZoneRef)
    | Unregister(r: ZoneRef)
    | CameraMove(bearing: real)
    | Click(m: PrimId)
    | Drag(m: PrimId, start: LatLng, moves: seq<LatLng>, end: LatLng)

  /** The zone may be shown: it is not registered yet, and its title is
      free of the handle suffixes and not taken by a registered zone. */
  predicate Showable(w: World, r: ZoneRef)
    requires Wf(w)
  {
    && r in w.heap && r !in w.zones
    && !Contains(w.heap[r].cfg.title, ResizeMarkerTitleSuffix)
    && !Contains(w.heap[r].cfg.title, CloseMarkerTitleSuffix)
    && (forall x :: x in w.zones ==> w.heap[x].cfg.title != w.heap[r].cfg.title)
  }

  /** The events the model lets happen: a new zone object gets a fresh
      reference, `showOnMap` gets a showable zone, the map delivers clicks
      only for markers on it and drags only for draggable ones. */
  predicate Enabled(w: World, e: Event)
    requires Wf(w)
  {
    match e
    case Build(r, _, _, _) => r !in w.heap
    case Show(r) => Showable(w, r)
    case Select(r) => r in w.heap
    case Unregister(r) => r in w.heap
    case CameraMove(_) => true
    case Click(m) => OnMap(w, m)
    case Drag(m, _, _, _) => OnMap(w, m) && w.view.prims[m].shape.draggable
  }

  /** One event; an event that cannot happen changes nothing. */
  function Step(w: World, g: Sphere, e: Event): (w': World)
    requires Wf(w)
    ensures Wf(w')
    ensures e.Show? && Enabled(w, e) ==> w'.zones == w.zones + [e.r]
    ensures e.Unregister? && Enabled(w, e) ==> w'.zones == RemoveFirst(w.zones, e.r)
    ensures e.Build? || e.Select? || e.CameraMove? || e.Drag? ==> w'.zones == w.zones
  {
    if !Enabled(w, e) then w
    else
      match e
      case Build(r, cfg, location, radius) => Construct(w, r, cfg, location, radius)
      case Show(r) => ShowOnMap(w, g, r)
      case Select(r) => SetSelected(w, g, r)
      case Unregister(r) => Remove(w, r)
      case CameraMove(bearing) => OnCameraMove(w, g, bearing)
      case Click(m) => OnMarkerClick(w, g, m)
      case Drag(m, start, moves, end) => Gesture(w, g, m, start, moves, end)
  }

  /** A sequence of events, one after the other. */
  function Run(w: World, g: Sphere, es: seq<Event>): (w': World)
    requires Wf(w)
    ensures Wf(w')
    decreases |es|
  {
    if es == [] then w else Run(Step(w, g, es[0]), g, es[1..])
  }

  /** Every event keeps the invariant. */
  lemma StepConsistent(w: World, g: Sphere, e: Event)
    requires Consistent(w)
    ensures Consistent(Step(w, g, e))
  {
    if Enabled(w, e) {
      match e
      case Build(r, cfg, location, radius) => ConstructConsistent(w, r, cfg, location, radius);
      case Show(r) => ShowOnMapConsistent(w, g, r);
      case Select(r) => SetSelectedConsistent(w, g, r);
      case Unregister(r) => RemoveConsistent(w, r);
      case CameraMove(bearing) => CameraConsistent(w, g, bearing);
      case Click(m) => ClickConsistent(w, g, m);
      case Drag(m, start, moves, end) => GestureConsistent(w, g, m, start, moves, end);
    }
  }

  /** Starting from a consistent state, in particular from no zones at
      all, every sequence of events keeps the invariant: at most one zone
      is selected, every registered zone is drawn, and exactly the
      primitives the registered zones reference are on the map. */
  lemma {:induction false} RunConsistent(w: World, g: Sphere, es: seq<Event>)
    requires Consistent(w)
    ensures Consistent(Run(w, g, es))
    decreases |es|
  {
    if es != [] {
      StepConsistent(w, g, es[0]);
      RunConsistent(Step(w, g, es[0]), g, es[1..]);
    }
  }

  /** The state before any zone exists is consistent. */
  lemma EmptyConsistent(bearing: real)
    ensures Consistent(World([], map[], MapView(bearing, [], {}), []))
  {
  }

  // ---------------------------------------------------------------------
  // The string dispatch outside the invariant

  /** The close dispatch goes by title alone: a click on any marker titled
      t + "_close", such as the center marker of a zone whose own title
      ends in "_close", closes the first zone titled t and, when that zone
      has no close listener, removes it. */
  lemma CloseSuffixClosesByTitle(w: World, g: Sphere, m: PrimId, t: string)
    requires Wf(w) && IsMarker(w.view, m) && TitleOf(w.view, m) == t + CloseMarkerTitleSuffix
    requires Find(w, TitleIs(t)).Some? && !w.heap[Find(w, TitleIs(t)).value].cfg.hasOnClose
    ensures OnMarkerClick(w, g, m).zones == RemoveFirst(w.zones, Find(w, TitleIs(t)).value)
  {
    StripAppended(t, CloseMarkerTitleSuffix);
  }

  /** `showOnMap` does not check whether the zone is already registered:
      showing a registered zone again lists it twice, which the invariant
      rules out. */
  lemma ShowTwiceListsTwice(w: World, g: Sphere, z: ZoneRef)
    requires Wf(w) && z in w.heap && z in w.zones
    ensures !NoDup(ShowOnMap(w, g, z).zones)
    ensures !Consistent(ShowOnMap(w, g, z))
  {
    var zs := ShowOnMap(w, g, z).zones;
    var i := IndexOf(w.zones, z);
    assert zs[i] == z && zs[|w.zones|] == z;
  }

  /** With two registered zones `a` and `b` sharing the title `t`, `a`
      listed first and `b` selected, a drag start on `b`'s resize marker
      (titled `t` + "_resize") marks `a` selected as well: the drag lookup
      finds the first zone with the title, and a resize drag start
      deselects nothing. */
  lemma SharedTitleSelectsTwo(w: World, g: Sphere, m: PrimId, pos: LatLng, t: string, a: ZoneRef, b: ZoneRef)
    requires Wf(w) && IsMarker(w.view, m) && w.view.prims[m].owner == b
    requires a in w.zones && b in w.zones && a != b
    requires w.heap[a].cfg.title == t && w.heap[b].cfg.title == t && w.heap[b].isSelected
    requires Find(w, TitleIs(t)) == Some(a)
    requires TitleOf(w.view, m) == t + ResizeMarkerTitleSuffix
    ensures var w' := OnMarkerDragStart(w, g, m, pos);
            && w'.heap[a].isSelected && w'.heap[b].isSelected
            && !AtMostOneSelected(w')
  {
    StripAppended(t, ResizeMarkerTitleSuffix);
    DragStartSelects(w, g, m, pos);
  }

  /** "_close" inside a title, not at its end: a click on such a center
      marker is taken for a close click, and since stripping the suffix
      changes nothing, the lookup finds the marker's own zone and removes
      it instead of selecting it. */
  lemma CloseInsideTitleRemovesZone(w: World, g: Sphere, m: PrimId)
    requires Wf(w) && NoDup(w.zones) && IsMarker(w.view, m)
    requires IsCloseTitle(TitleOf(w.view, m)) && !EndsWith(TitleOf(w.view, m), CloseMarkerTitleSuffix)
    requires Find(w, TitleIs(TitleOf(w.view, m))).Some?
    requires !w.heap[Find(w, TitleIs(TitleOf(w.view, m))).value].cfg.hasOnClose
    ensures var r := Find(w, TitleIs(TitleOf(w.view, m))).value;
            r in w.zones && r !in OnMarkerClick(w, g, m).zones
  {
    RemoveFirstNoDup(w.zones, Find(w, TitleIs(TitleOf(w.view, m))).value);
  }

  /** "_resize" inside a title, not at its end: dragging such a center
      marker is taken for a resize drag of the marker's own zone, which
      keeps its location and takes the distance to the marker as its
      radius. */
  lemma ResizeInsideTitleResizes(w: World, g: Sphere, m: PrimId, pos: LatLng)
    requires Wf(w) && IsMarker(w.view, m)
    requires IsResizeTitle(TitleOf(w.view, m)) && !EndsWith(TitleOf(w.view, m), ResizeMarkerTitleSuffix)
    requires Find(w, TitleIs(TitleOf(w.view, m))).Some?
    ensures var r := Find(w, TitleIs(TitleOf(w.view, m))).value;
            var w' := OnMarkerDrag(w, g, m, pos);
            && w'.heap[r].location == w.heap[r].location
            && w'.heap[r].radius == ClampRadius(g.computeDistanceBetween(w.heap[r].location, pos))
  {
  }

  /** Titles such as "a_close_b" and "a_resize_b" contain a handle suffix
      without ending with it. */
  lemma InsideTitles()
    ensures IsCloseTitle("a_close_b") && !EndsWith("a_close_b", CloseMarkerTitleSuffix)
    ensures IsResizeTitle("a_resize_b") && !EndsWith("a_resize_b", ResizeMarkerTitleSuffix)
  {
    assert CloseMarkerTitleSuffix <= "a_close_b"[1..];
    assert ResizeMarkerTitleSuffix <= "a_resize_b"[1..];
  }
}
