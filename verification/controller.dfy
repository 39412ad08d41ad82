/** The map listeners of the zones' companion object: camera move, marker
    click, and marker drag start/move/end, with the helpers they call
    (`updateMarkers`, `checkResizeMarkerHeadingOverlap`, and the two
    completion-listener dispatchers). A marker is classified by whether its
    title contains "_resize" or "_close", and its zone is looked up by the
    first registered zone whose title equals the marker title with a suffix
    stripped. */
module Handlers {
  import opened Base
  import opened Text
  import opened Geo
  import opened Surface
  import opened Zones
  import opened Registry

  // ---------------------------------------------------------------------
  // Per-zone redraws

  /** Going from `v` to `v'` removed the ids in `gone`, added `k` live
      primitives, and changed nothing else. */
  ghost predicate Replaced(v: MapView, v': MapView, gone: set<PrimId>, k: nat) {
    && Appended(v, v')
    && |v'.prims| == |v.prims| + k
    && (forall id :: id in v'.live <==> (id in v.live && id !in gone) || Added(v, v', id))
  }

  /** The deselection done at the start of a drag on a non-resize marker:
      the zone is deselected, its circle, close and resize markers are
      removed, and the circle is drawn again in the inactive colours. */
  function Deactivate(v: MapView, g: Sphere, r: ZoneRef, z: ZoneRec): (d: Drawing)
    ensures !d.zone.isSelected
    ensures d.zone == z.(isSelected := false, circle := Some(|v.prims|))
    ensures Replaced(v, d.view, Ids(z.circle) + Ids(z.markerClose) + Ids(z.markerResize), 1)
    ensures Shows(d.view, |v.prims|, Prim(r, CircleRole, CircleShapeOf(d.zone)))
    ensures CircleShapeOf(d.zone).strokeColor == z.cfg.borderColorInactive
    ensures CircleShapeOf(d.zone).fillColor == z.cfg.fillColorInactive
  {
    var z1 := z.(isSelected := false);
    var v1 := Undraw(Undraw(Undraw(v, z1, CircleRole), z1, CloseRole), z1, ResizeRole);
    Draw(v1, g, r, z1, CircleRole)
  }

  /** The camera-move redraw of a zone's handles: remove the close and
      resize markers and add them again at the current bearing. */
  function RefreshHandles(v: MapView, g: Sphere, r: ZoneRef, z: ZoneRec): (d: Drawing)
    ensures d.zone == z.(markerClose := Some(|v.prims|), markerResize := Some(|v.prims| + 1))
    ensures Replaced(v, d.view, Ids(z.markerClose) + Ids(z.markerResize), 2)
    ensures Shows(d.view, |v.prims|, Prim(r, CloseRole, CloseShape(g, v.bearing, z)))
    ensures Shows(d.view, |v.prims| + 1, Prim(r, ResizeRole, ResizeShape(g, v.bearing, z)))
    ensures d.view.prims[|v.prims|].shape.position == g.computeOffset(z.location, z.radius, CloseMarkerHeading + v.bearing)
    ensures d.view.prims[|v.prims| + 1].shape.position == g.computeOffset(z.location, z.radius, z.resizeHeading + v.bearing)
  {
    var v1 := Undraw(Undraw(v, z, CloseRole), z, ResizeRole);
    var d1 := Draw(v1, g, r, z, CloseRole);
    Draw(d1.view, g, r, d1.zone, ResizeRole)
  }

  /** The radius a resize drag to distance `dist` gives: the distance,
      floored at the minimum radius. */
  function ClampRadius(dist: real): (radius: real)
    ensures radius >= MinimumRadius
    ensures dist >= MinimumRadius ==> radius == dist
    ensures dist < MinimumRadius ==> radius == MinimumRadius
  {
    if dist < MinimumRadius then MinimumRadius else dist
  }

  /** The resize branch of `updateMarkers`: the radius becomes the distance
      from the center to the dragged position (at least 5), the stored
      heading becomes the heading to that position relative to the camera,
      and only the circle and close marker are drawn again. */
  function ResizeTo(v: MapView, g: Sphere, r: ZoneRef, z: ZoneRec, pos: LatLng): (d: Drawing)
    ensures d.zone.radius >= MinimumRadius
    ensures d.zone.radius == g.computeDistanceBetween(z.location, pos) || d.zone.radius == MinimumRadius
    ensures g.computeDistanceBetween(z.location, pos) >= MinimumRadius ==> d.zone.radius == g.computeDistanceBetween(z.location, pos)
    ensures d.zone.resizeHeading + v.bearing == g.computeHeading(z.location, pos)
    ensures d.zone.location == z.location && d.zone.cfg == z.cfg && d.zone.isSelected == z.isSelected
    ensures d.zone.marker == z.marker && d.zone.markerResize == z.markerResize
    ensures d.zone.circle == Some(|v.prims|) && d.zone.markerClose == Some(|v.prims| + 1)
    ensures Replaced(v, d.view, Ids(z.circle) + Ids(z.markerClose), 2)
    ensures Shows(d.view, |v.prims|, Prim(r, CircleRole, CircleShapeOf(d.zone)))
    ensures Shows(d.view, |v.prims| + 1, Prim(r, CloseRole, CloseShape(g, v.bearing, d.zone)))
  {
    var z1 := z.(radius := ClampRadius(g.computeDistanceBetween(z.location, pos)),
                 resizeHeading := g.computeHeading(z.location, pos) - v.bearing);
    var v1 := Undraw(Undraw(v, z1, CircleRole), z1, CloseRole);
    var d1 := Draw(v1, g, r, z1, CircleRole);
    Draw(d1.view, g, r, d1.zone, CloseRole)
  }

  /** The center branch of `updateMarkers`: the zone moves to the dragged
      position, keeping its radius and heading, and its circle, resize and
      close markers are drawn again there. */
  function MoveTo(v: MapView, g: Sphere, r: ZoneRef, z: ZoneRec, pos: LatLng): (d: Drawing)
    ensures d.zone.location == pos
    ensures d.zone.radius == z.radius && d.zone.resizeHeading == z.resizeHeading
    ensures d.zone.cfg == z.cfg && d.zone.isSelected == z.isSelected && d.zone.marker == z.marker
    ensures d.zone.circle == Some(|v.prims|)
    ensures d.zone.markerResize == Some(|v.prims| + 1)
    ensures d.zone.markerClose == Some(|v.prims| + 2)
    ensures Replaced(v, d.view, Ids(z.circle) + Ids(z.markerResize) + Ids(z.markerClose), 3)
    ensures Shows(d.view, |v.prims|, Prim(r, CircleRole, CircleShapeOf(d.zone)))
    ensures Shows(d.view, |v.prims| + 1, Prim(r, ResizeRole, ResizeShape(g, v.bearing, d.zone)))
    ensures Shows(d.view, |v.prims| + 2, Prim(r, CloseRole, CloseShape(g, v.bearing, d.zone)))
  {
    var v1 := Undraw(Undraw(Undraw(v, z, CircleRole), z, ResizeRole), z, CloseRole);
    var z1 := z.(location := pos);
    var d1 := Draw(v1, g, r, z1, CircleRole);
    var d2 := Draw(d1.view, g, r, d1.zone, ResizeRole);
    Draw(d2.view, g, r, d2.zone, CloseRole)
  }

  /** The heading from the zone's center to its close marker, when the zone
      has a close marker. */
  function CloseHeading(v: MapView, g: Sphere, z: ZoneRec): Option<real> {
    if z.markerClose.Some? && IsMarker(v, z.markerClose.value)
    then Some(g.computeHeading(z.location, v.prims[z.markerClose.value].shape.position))
    else None
  }

  /** The resize marker at `pos` lies within the overlap band of the close
      marker: the absolute difference of the two headings from the center
      is in [0, 30], both ends included, with no wrap-around at 360. */
  predicate Overlaps(v: MapView, g: Sphere, z: ZoneRec, pos: LatLng) {
    && CloseHeading(v, g, z).Some?
    && OverlapBandStart <= Abs(g.computeHeading(z.location, pos) - CloseHeading(v, g, z).value) <= OverlapBandEnd
  }

  /** The anti-overlap rule of `checkResizeMarkerHeadingOverlap` for a
      resize marker dropped at `pos`: when it overlaps the close marker, the
      resize marker is moved to 15 degrees past the close marker and drawn
      again; otherwise nothing happens. */
  function Snap(v: MapView, g: Sphere, r: ZoneRef, z: ZoneRec, pos: LatLng): (d: Drawing)
    ensures Overlaps(v, g, z, pos) ==>
              && d.zone.resizeHeading + v.bearing == CloseHeading(v, g, z).value + OverlapBandEnd / 2.0
              && d.zone == z.(resizeHeading := d.zone.resizeHeading, markerResize := Some(|v.prims|))
              && Replaced(v, d.view, Ids(z.markerResize), 1)
              && Shows(d.view, |v.prims|, Prim(r, ResizeRole, ResizeShape(g, v.bearing, d.zone)))
    ensures !Overlaps(v, g, z, pos) ==> d == Drawing(v, z)
  {
    if Overlaps(v, g, z, pos) then
      var z1 := z.(resizeHeading := CloseHeading(v, g, z).value + OverlapBandEnd / 2.0 - v.bearing);
      Draw(Undraw(v, z1, ResizeRole), g, r, z1, ResizeRole)
    else
      Drawing(v, z)
  }

  /** The snapped resize heading is 15 degrees past the close marker's, so
      it still lies inside the overlap band: the rule moves the handle but
      does not take it out of the band. */
  lemma SnapStaysInBand(v: MapView, g: Sphere, r: ZoneRef, z: ZoneRec, pos: LatLng)
    requires Overlaps(v, g, z, pos)
    ensures var d := Snap(v, g, r, z, pos);
            OverlapBandStart <= Abs(d.zone.resizeHeading + v.bearing - CloseHeading(v, g, z).value) <= OverlapBandEnd
  {
  }

  // ---------------------------------------------------------------------
  // Markers as the listeners receive them

  function TitleOf(v: MapView, m: PrimId): string
    requires IsMarker(v, m)
  {
    v.prims[m].shape.title
  }

  function PositionOf(v: MapView, m: PrimId): LatLng
    requires IsMarker(v, m)
  {
    v.prims[m].shape.position
  }

  /** A marker is a resize handle when its title contains "_resize". */
  predicate IsResizeTitle(t: string) {
    Contains(t, ResizeMarkerTitleSuffix)
  }

  /** A marker is a close handle when its title contains "_close". */
  predicate IsCloseTitle(t: string) {
    Contains(t, CloseMarkerTitleSuffix)
  }

  /** The zone the drag helpers act on: the first registered zone whose title
      is the marker title with "_resize" stripped. */
  function DragTarget(w: World, m: PrimId): (r: Option<ZoneRef>)
    requires Wf(w) && IsMarker(w.view, m)
    ensures r.Some? ==> r.value in w.zones && r.value in w.heap
    ensures r.Some? ==> w.heap[r.value].cfg.title == RemoveSuffix(TitleOf(w.view, m), ResizeMarkerTitleSuffix)
    ensures r.Some? ==> forall j :: 0 <= j < IndexOf(w.zones, r.value) ==>
              w.heap[w.zones[j]].cfg.title != RemoveSuffix(TitleOf(w.view, m), ResizeMarkerTitleSuffix)
    ensures r.None? ==> forall x :: x in w.zones ==> w.heap[x].cfg.title != RemoveSuffix(TitleOf(w.view, m), ResizeMarkerTitleSuffix)
  {
    Find(w, TitleIs(RemoveSuffix(TitleOf(w.view, m), ResizeMarkerTitleSuffix)))
  }

  /** Only zone `r` changed, and the list, the callbacks and the bearing are
      as they were. */
  ghost predicate OnlyZone(w: World, w': World, r: ZoneRef)
    requires Wf(w) && Wf(w')
  {
    && w'.zones == w.zones && w'.fired == w.fired
    && w'.view.bearing == w.view.bearing
    && w'.heap.Keys == w.heap.Keys
    && (forall x :: x in w.heap && x != r ==> w'.heap[x] == w.heap[x])
  }

  lemma StoreOnlyZone(w: World, r: ZoneRef, d: Drawing)
    requires Wf(w) && r in w.heap && d.view.bearing == w.view.bearing
    ensures OnlyZone(w, Store(w, r, d), r)
    ensures Store(w, r, d).heap[r] == d.zone && Store(w, r, d).view == d.view
  {
  }

  // ---------------------------------------------------------------------
  // The companion's helpers

  /** `updateMarkers(marker)`: the marker's zone follows the drag. A resize
      marker changes the radius and heading; any other marker moves the
      zone to the marker's position. A marker whose zone is not found
      changes nothing. */
  function UpdateMarkers(w: World, g: Sphere, m: PrimId): (w': World)
    requires Wf(w) && IsMarker(w.view, m)
    ensures Wf(w') && w'.zones == w.zones && w'.fired == w.fired && w'.heap.Keys == w.heap.Keys
    ensures Appended(w.view, w'.view)
    ensures forall x :: x in w.heap ==> w'.heap[x].isSelected == w.heap[x].isSelected
    ensures DragTarget(w, m).None? ==> w' == w
    ensures DragTarget(w, m).Some? ==>
              var r := DragTarget(w, m).value;
              var z := w.heap[r];
              var pos := PositionOf(w.view, m);
              var n := |w.view.prims|;
              && OnlyZone(w, w', r)
              && (IsResizeTitle(TitleOf(w.view, m)) ==>
                    && w'.heap[r] == z.(radius := ClampRadius(g.computeDistanceBetween(z.location, pos)),
                                        resizeHeading := g.computeHeading(z.location, pos) - w.view.bearing,
                                        circle := Some(n), markerClose := Some(n + 1))
                    && Replaced(w.view, w'.view, Ids(z.circle) + Ids(z.markerClose), 2)
                    && Shows(w'.view, n, Prim(r, CircleRole, CircleShapeOf(w'.heap[r])))
                    && Shows(w'.view, n + 1, Prim(r, CloseRole, CloseShape(g, w.view.bearing, w'.heap[r]))))
              && (!IsResizeTitle(TitleOf(w.view, m)) ==>
                    && w'.heap[r] == z.(location := pos, circle := Some(n), markerResize := Some(n + 1), markerClose := Some(n + 2))
                    && Replaced(w.view, w'.view, Ids(z.circle) + Ids(z.markerResize) + Ids(z.markerClose), 3)
                    && Shows(w'.view, n, Prim(r, CircleRole, CircleShapeOf(w'.heap[r])))
                    && Shows(w'.view, n + 1, Prim(r, ResizeRole, ResizeShape(g, w.view.bearing, w'.heap[r])))
                    && Shows(w'.view, n + 2, Prim(r, CloseRole, CloseShape(g, w.view.bearing, w'.heap[r]))))
  {
    match DragTarget(w, m)
    case None => w
    case Some(r) =>
      var d := if IsResizeTitle(TitleOf(w.view, m))
               then ResizeTo(w.view, g, r, w.heap[r], PositionOf(w.view, m))
               else MoveTo(w.view, g, r, w.heap[r], PositionOf(w.view, m));
      StoreOnlyZone(w, r, d);
      Store(w, r, d)
  }

  /** `checkResizeMarkerHeadingOverlap(marker)`: for a resize marker whose
      zone is found, the anti-overlap rule; nothing otherwise. */
  function CheckResizeMarkerHeadingOverlap(w: World, g: Sphere, m: PrimId): (w': World)
    requires Wf(w) && IsMarker(w.view, m)
    ensures Wf(w') && w'.zones == w.zones && w'.fired == w.fired && w'.heap.Keys == w.heap.Keys
    ensures Appended(w.view, w'.view)
    ensures forall x :: x in w.heap ==> w'.heap[x].isSelected == w.heap[x].isSelected
    ensures DragTarget(w, m).None? || !IsResizeTitle(TitleOf(w.view, m)) ==> w' == w
    ensures DragTarget(w, m).Some? && IsResizeTitle(TitleOf(w.view, m)) ==>
              var r := DragTarget(w, m).value;
              var z := w.heap[r];
              && OnlyZone(w, w', r)
              && (Overlaps(w.view, g, z, PositionOf(w.view, m)) ==>
                    && w'.heap[r] == z.(resizeHeading := CloseHeading(w.view, g, z).value + OverlapBandEnd / 2.0 - w.view.bearing,
                                        markerResize := Some(|w.view.prims|))
                    && Replaced(w.view, w'.view, Ids(z.markerResize), 1)
                    && Shows(w'.view, |w.view.prims|, Prim(r, ResizeRole, ResizeShape(g, w.view.bearing, w'.heap[r]))))
              && (!Overlaps(w.view, g, z, PositionOf(w.view, m)) ==> w' == w)
  {
    match DragTarget(w, m)
    case None => w
    case Some(r) =>
      if IsResizeTitle(TitleOf(w.view, m)) then
        var d := Snap(w.view, g, r, w.heap[r], PositionOf(w.view, m));
        StoreOnlyZone(w, r, d);
        if d == Drawing(w.view, w.heap[r]) then w else Store(w, r, d)
      else w
  }

  /** The close-marker position the anti-overlap rule reads on drag end
      always exists: the resize branch of `updateMarkers`, which runs just
      before, has drawn the close marker again. */
  lemma CloseMarkerPresentAtOverlapCheck(w: World, g: Sphere, m: PrimId)
    requires Wf(w) && IsMarker(w.view, m)
    requires IsResizeTitle(TitleOf(w.view, m)) && DragTarget(w, m).Some?
    ensures var w1 := UpdateMarkers(w, g, m);
            && IsMarker(w1.view, m)
            && DragTarget(w1, m) == DragTarget(w, m)
            && CloseHeading(w1.view, g, w1.heap[DragTarget(w, m).value]).Some?
  {
    var r := DragTarget(w, m).value;
    var w1 := UpdateMarkers(w, g, m);
    var d := ResizeTo(w.view, g, r, w.heap[r], PositionOf(w.view, m));
    assert w1 == Store(w, r, d);
    assert forall x :: x in w.zones ==> w1.heap[x].cfg.title == w.heap[x].cfg.title;
    FindSameTitles(w, w1, RemoveSuffix(TitleOf(w.view, m), ResizeMarkerTitleSuffix));
  }

  /** `executeOnResizeCompleteListener(marker)`: for a resize marker, the
      resize-complete listener of its zone, if the zone is found and has
      one. */
  function ExecuteOnResizeCompleteListener(w: World, m: PrimId): (w': World)
    requires Wf(w) && IsMarker(w.view, m)
    ensures w'.zones == w.zones && w'.heap == w.heap && w'.view == w.view
    ensures w'.fired == w.fired || (DragTarget(w, m).Some? && w'.fired == w.fired + [ResizeCompleteFired(DragTarget(w, m).value)])
    ensures w'.fired != w.fired <==>
              IsResizeTitle(TitleOf(w.view, m)) && DragTarget(w, m).Some?
              && w.heap[DragTarget(w, m).value].cfg.hasOnResizeComplete
  {
    if IsResizeTitle(TitleOf(w.view, m)) then
      match DragTarget(w, m)
      case Some(r) =>
        if w.heap[r].cfg.hasOnResizeComplete then w.(fired := w.fired + [ResizeCompleteFired(r)]) else w
      case None => w
    else w
  }

  /** `executeOnDragCompleteListener(marker)`: for a marker whose title
      contains neither suffix, the drag-complete listener of its zone, if
      the zone is found and has one. */
  function ExecuteOnDragCompleteListener(w: World, m: PrimId): (w': World)
    requires Wf(w) && IsMarker(w.view, m)
    ensures w'.zones == w.zones && w'.heap == w.heap && w'.view == w.view
    ensures w'.fired == w.fired || (DragTarget(w, m).Some? && w'.fired == w.fired + [DragCompleteFired(DragTarget(w, m).value)])
    ensures w'.fired != w.fired <==>
              !IsResizeTitle(TitleOf(w.view, m)) && !IsCloseTitle(TitleOf(w.view, m))
              && DragTarget(w, m).Some? && w.heap[DragTarget(w, m).value].cfg.hasOnDragComplete
  {
    if !IsResizeTitle(TitleOf(w.view, m)) && !IsCloseTitle(TitleOf(w.view, m)) then
      match DragTarget(w, m)
      case Some(r) =>
        if w.heap[r].cfg.hasOnDragComplete then w.(fired := w.fired + [DragCompleteFired(r)]) else w
      case None => w
    else w
  }

  // ---------------------------------------------------------------------
  // The listeners

  /** The camera-move listener, after the camera turned to `bearing`: the
      first selected zone removes its close and resize markers and adds them
      again at the new bearing. Nothing else changes. */
  function OnCameraMove(w: World, g: Sphere, bearing: real): (w': World)
    requires Wf(w)
    ensures Wf(w') && w'.zones == w.zones && w'.fired == w.fired
    ensures w'.view.bearing == bearing
    ensures w'.heap.Keys == w.heap.Keys
    ensures Find(w, Selected).None? ==> w'.heap == w.heap && w'.view.prims == w.view.prims && w'.view.live == w.view.live
    ensures Find(w, Selected).Some? ==>
              var r := Find(w, Selected).value;
              var n := |w.view.prims|;
              && (forall x :: x in w.heap && x != r ==> w'.heap[x] == w.heap[x])
              && w'.heap[r] == w.heap[r].(markerClose := Some(n), markerResize := Some(n + 1))
              && Replaced(w.view.(bearing := bearing), w'.view, Ids(w.heap[r].markerClose) + Ids(w.heap[r].markerResize), 2)
              && Shows(w'.view, n, Prim(r, CloseRole, CloseShape(g, bearing, w.heap[r])))
              && Shows(w'.view, n + 1, Prim(r, ResizeRole, ResizeShape(g, bearing, w.heap[r])))
              && w'.view.prims[n].shape.position == g.computeOffset(w.heap[r].location, w.heap[r].radius, CloseMarkerHeading + bearing)
              && w'.view.prims[n + 1].shape.position == g.computeOffset(w.heap[r].location, w.heap[r].radius, w.heap[r].resizeHeading + bearing)
  {
    var w1 := w.(view := w.view.(bearing := bearing));
    assert Find(w1, Selected) == Find(w, Selected);
    match Find(w1, Selected)
    case None => w1
    case Some(r) => Store(w1, r, RefreshHandles(w1.view, g, r, w1.heap[r]))
  }

  /** The zone a click on `m` closes: for a title containing "_close", the
      first registered zone whose title is the marker title with "_close"
      stripped; none otherwise. */
  function CloseTarget(w: World, m: PrimId): (r: Option<ZoneRef>)
    requires Wf(w) && IsMarker(w.view, m)
    ensures r.Some? ==> r.value in w.zones && r.value in w.heap
    ensures r.Some? ==> IsCloseTitle(TitleOf(w.view, m))
    ensures r.Some? ==> w.heap[r.value].cfg.title == RemoveSuffix(TitleOf(w.view, m), CloseMarkerTitleSuffix)
    ensures r.Some? ==> forall j :: 0 <= j < IndexOf(w.zones, r.value) ==>
              w.heap[w.zones[j]].cfg.title != RemoveSuffix(TitleOf(w.view, m), CloseMarkerTitleSuffix)
    ensures r.None? ==>
              || !IsCloseTitle(TitleOf(w.view, m))
              || forall x :: x in w.zones ==> w.heap[x].cfg.title != RemoveSuffix(TitleOf(w.view, m), CloseMarkerTitleSuffix)
  {
    if IsCloseTitle(TitleOf(w.view, m))
    then Find(w, TitleIs(RemoveSuffix(TitleOf(w.view, m), CloseMarkerTitleSuffix)))
    else None
  }

  /** The world after the close dispatch of a click that the close listener
      did not end: the closed zone, if any, is removed. */
  function ClickCleared(w: World, m: PrimId): (w': World)
    requires Wf(w) && IsMarker(w.view, m)
    ensures Wf(w') && w'.heap == w.heap && w'.fired == w.fired
  {
    match CloseTarget(w, m)
    case None => w
    case Some(r) => Remove(w, r)
  }

  /** The marker-click listener. A marker whose title contains "_close"
      resolves its zone by stripping "_close": a zone with a close listener
      has it invoked and the click ends there; a zone without one is
      removed. Then, for every click that did not end, the zone whose title
      equals the full marker title, if any, is selected. */
  function OnMarkerClick(w: World, g: Sphere, m: PrimId): (w': World)
    requires Wf(w) && IsMarker(w.view, m)
    ensures Wf(w') && w'.heap.Keys == w.heap.Keys
    ensures CloseTarget(w, m).Some? && w.heap[CloseTarget(w, m).value].cfg.hasOnClose ==>
              w' == w.(fired := w.fired + [CloseFired(CloseTarget(w, m).value)])
    ensures !(CloseTarget(w, m).Some? && w.heap[CloseTarget(w, m).value].cfg.hasOnClose) ==>
              && w'.fired == w.fired
              && (CloseTarget(w, m).Some? ==> w'.zones == RemoveFirst(w.zones, CloseTarget(w, m).value))
              && (CloseTarget(w, m).None? ==> w'.zones == w.zones)
              && (Find(ClickCleared(w, m), TitleIs(TitleOf(w.view, m))).Some? ==>
                    && w'.zones == ClickCleared(w, m).zones
                    && Swept(g, ClickCleared(w, m), w', Find(ClickCleared(w, m), TitleIs(TitleOf(w.view, m))).value))
              && (Find(ClickCleared(w, m), TitleIs(TitleOf(w.view, m))).None? ==> w' == ClickCleared(w, m))
  {
    var t := TitleOf(w.view, m);
    var c := CloseTarget(w, m);
    if c.Some? && w.heap[c.value].cfg.hasOnClose then
      w.(fired := w.fired + [CloseFired(c.value)])
    else
      var w2 := ClickCleared(w, m);
      match Find(w2, TitleIs(t))
      case None => w2
      case Some(r) => SetSelected(w2, g, r)
  }

  /** The map moved marker `m` to `pos`: only that marker's position
      changed. */
  function Moved(w: World, m: PrimId, pos: LatLng): (w': World)
    requires Wf(w) && IsMarker(w.view, m)
    ensures Wf(w') && w'.zones == w.zones && w'.heap == w.heap && w'.fired == w.fired
    ensures w'.view.bearing == w.view.bearing && w'.view.live == w.view.live
    ensures |w'.view.prims| == |w.view.prims|
    ensures forall i :: 0 <= i < |w.view.prims| && i != m ==> w'.view.prims[i] == w.view.prims[i]
    ensures IsMarker(w'.view, m) && PositionOf(w'.view, m) == pos
    ensures w'.view.prims[m] == w.view.prims[m].(shape := w'.view.prims[m].shape)
    ensures TitleOf(w'.view, m) == TitleOf(w.view, m)
    ensures w'.view.prims[m].shape.draggable == w.view.prims[m].shape.draggable
    ensures w'.view.prims[m].shape.visible == w.view.prims[m].shape.visible
  {
    w.(view := MoveMarker(w.view, m, pos))
  }

  /** The first part of the drag-start listener: unless the marker's title
      contains "_resize", the first selected zone is deselected, loses its
      circle and both handles, and gets its circle back in the inactive
      colours. */
  function DeselectForDrag(w: World, g: Sphere, m: PrimId): (w': World)
    requires Wf(w) && IsMarker(w.view, m)
    ensures Wf(w') && IsMarker(w'.view, m) && TitleOf(w'.view, m) == TitleOf(w.view, m)
    ensures DragTarget(w', m) == DragTarget(w, m)
    ensures IsResizeTitle(TitleOf(w.view, m)) || Find(w, Selected).None? ==> w' == w
    ensures !IsResizeTitle(TitleOf(w.view, m)) && Find(w, Selected).Some? ==>
              var s := Find(w, Selected).value;
              && OnlyZone(w, w', s)
              && w'.heap[s] == w.heap[s].(isSelected := false, circle := Some(|w.view.prims|))
              && Replaced(w.view, w'.view, Ids(w.heap[s].circle) + Ids(w.heap[s].markerClose) + Ids(w.heap[s].markerResize), 1)
              && Shows(w'.view, |w.view.prims|, Prim(s, CircleRole, CircleShapeOf(w'.heap[s])))
  {
    if !IsResizeTitle(TitleOf(w.view, m)) then
      match Find(w, Selected)
      case None => w
      case Some(s) =>
        var d := Deactivate(w.view, g, s, w.heap[s]);
        StoreOnlyZone(w, s, d);
        var w' := Store(w, s, d);
        assert w'.zones == w.zones;
        assert forall x :: x in w.zones ==> w'.heap[x].cfg.title == w.heap[x].cfg.title;
        FindSameTitles(w, w', RemoveSuffix(TitleOf(w.view, m), ResizeMarkerTitleSuffix));
        w'
    else w
  }

  /** Title lookups only see the list and the titles. */
  lemma FindSameTitles(w: World, w': World, t: string)
    requires Wf(w) && Wf(w') && w'.zones == w.zones
    requires forall x :: x in w.zones ==> w'.heap[x].cfg.title == w.heap[x].cfg.title
    ensures Find(w', TitleIs(t)) == Find(w, TitleIs(t))
  {
    FindFromSameTitles(w.zones, w.heap, w'.heap, t, 0);
  }

  lemma {:induction false} FindFromSameTitles(zs: seq<ZoneRef>, h: map<ZoneRef, ZoneRec>, h': map<ZoneRef, ZoneRec>, t: string, k: nat)
    requires forall x :: x in zs ==> x in h && x in h' && h'[x].cfg.title == h[x].cfg.title
    requires k <= |zs|
    ensures FindFrom(zs, h', TitleIs(t), k) == FindFrom(zs, h, TitleIs(t), k)
    decreases |zs| - k
  {
    if k < |zs| {
      FindFromSameTitles(zs, h, h', t, k + 1);
    }
  }

  /** The second part of the drag-start listener: the marker's zone, if
      found, is marked selected. Nothing is drawn for it here. */
  function MarkDragged(w: World, m: PrimId): (w': World)
    requires Wf(w) && IsMarker(w.view, m)
    ensures Wf(w') && w'.zones == w.zones && w'.view == w.view && w'.fired == w.fired
    ensures w'.heap.Keys == w.heap.Keys
    ensures DragTarget(w, m).Some? ==> w'.heap[DragTarget(w, m).value].isSelected
    ensures forall x :: x in w.heap && Some(x) != DragTarget(w, m) ==> w'.heap[x] == w.heap[x]
    ensures forall x :: x in w.heap ==> w'.heap[x] == w.heap[x].(isSelected := w'.heap[x].isSelected)
    ensures DragTarget(w', m) == DragTarget(w, m)
  {
    match DragTarget(w, m)
    case None => w
    case Some(r) =>
      var w' := w.(heap := w.heap[r := w.heap[r].(isSelected := true)]);
      FindSameTitles(w, w', RemoveSuffix(TitleOf(w.view, m), ResizeMarkerTitleSuffix));
      w'
  }

  /** The drag-start listener, for the marker `m` the map moved to `pos`.
      Unless the title contains "_resize", the first selected zone is
      deselected; then the marker's zone is marked selected, and
      `updateMarkers` runs. */
  function OnMarkerDragStart(w: World, g: Sphere, m: PrimId, pos: LatLng): (w': World)
    requires Wf(w) && IsMarker(w.view, m)
    ensures Wf(w') && w'.zones == w.zones && w'.fired == w.fired && w'.heap.Keys == w.heap.Keys
    ensures IsMarker(w'.view, m) && TitleOf(w'.view, m) == TitleOf(w.view, m)
  {
    var w0 := Moved(w, m, pos);
    var w1 := DeselectForDrag(w0, g, m);
    var w2 := MarkDragged(w1, m);
    UpdateMarkers(w2, g, m)
  }

  /** Drag start selects the marker's zone and, unless the marker is a
      resize handle, deselects the zone that was selected first; no other
      selection flag changes. */
  lemma DragStartSelects(w: World, g: Sphere, m: PrimId, pos: LatLng)
    requires Wf(w) && IsMarker(w.view, m)
    ensures var w' := OnMarkerDragStart(w, g, m, pos);
            && (DragTarget(w, m).Some? ==> w'.heap[DragTarget(w, m).value].isSelected)
            && (forall x :: x in w.heap && Some(x) != DragTarget(w, m) ==>
                  w'.heap[x].isSelected ==
                    (w.heap[x].isSelected && (IsResizeTitle(TitleOf(w.view, m)) || Some(x) != Find(w, Selected))))
  {
    var w0 := Moved(w, m, pos);
    FindSameTitles(w, w0, RemoveSuffix(TitleOf(w.view, m), ResizeMarkerTitleSuffix));
    assert Find(w0, Selected) == Find(w, Selected);
    var w1 := DeselectForDrag(w0, g, m);
    var w2 := MarkDragged(w1, m);
    var w' := UpdateMarkers(w2, g, m);
    assert DragTarget(w2, m) == DragTarget(w, m);
    forall x | x in w.heap && Some(x) != DragTarget(w, m)
      ensures w'.heap[x].isSelected ==
                (w.heap[x].isSelected && (IsResizeTitle(TitleOf(w.view, m)) || Some(x) != Find(w, Selected)))
    {
      assert w'.heap[x].isSelected == w2.heap[x].isSelected;
      assert w2.heap[x] == w1.heap[x];
    }
  }

  /** The drag listener: the map moved marker `m` to `pos`; the zone
      follows. A resize handle sets the radius (at least 5) and the heading
      from the center to `pos`; any other marker moves the zone to `pos`.
      No other zone changes. */
  function OnMarkerDrag(w: World, g: Sphere, m: PrimId, pos: LatLng): (w': World)
    requires Wf(w) && IsMarker(w.view, m)
    ensures Wf(w') && w'.zones == w.zones && w'.fired == w.fired && w'.heap.Keys == w.heap.Keys
    ensures IsMarker(w'.view, m) && TitleOf(w'.view, m) == TitleOf(w.view, m) && PositionOf(w'.view, m) == pos
    ensures forall x :: x in w.heap ==> w'.heap[x].isSelected == w.heap[x].isSelected
    ensures DragTarget(w, m).None? ==> w'.heap == w.heap && w'.view.live == w.view.live
    ensures DragTarget(w, m).Some? ==>
              var r := DragTarget(w, m).value;
              var z := w.heap[r];
              && (forall x :: x in w.heap && x != r ==> w'.heap[x] == w.heap[x])
              && w'.heap[r].cfg == z.cfg && w'.heap[r].marker == z.marker
              && (IsResizeTitle(TitleOf(w.view, m)) ==>
                    && w'.heap[r].location == z.location
                    && w'.heap[r].radius == ClampRadius(g.computeDistanceBetween(z.location, pos))
                    && w'.heap[r].resizeHeading == g.computeHeading(z.location, pos) - w.view.bearing)
              && (!IsResizeTitle(TitleOf(w.view, m)) ==>
                    && w'.heap[r].location == pos
                    && w'.heap[r].radius == z.radius && w'.heap[r].resizeHeading == z.resizeHeading)
  {
    var w0 := Moved(w, m, pos);
    FindSameTitles(w, w0, RemoveSuffix(TitleOf(w.view, m), ResizeMarkerTitleSuffix));
    UpdateMarkers(w0, g, m)
  }

  /** The drag-end listener: the zone follows the marker one last time, the
      anti-overlap rule runs, and then the two completion listeners are
      offered the marker. */
  function OnMarkerDragEnd(w: World, g: Sphere, m: PrimId, pos: LatLng): (w': World)
    requires Wf(w) && IsMarker(w.view, m)
    ensures Wf(w') && w'.zones == w.zones && w'.heap.Keys == w.heap.Keys
    ensures forall x :: x in w.heap ==> w'.heap[x].isSelected == w.heap[x].isSelected
  {
    var w1 := UpdateMarkers(Moved(w, m, pos), g, m);
    var w2 := CheckResizeMarkerHeadingOverlap(w1, g, m);
    var w3 := ExecuteOnResizeCompleteListener(w2, m);
    ExecuteOnDragCompleteListener(w3, m)
  }

  /** At most one completion callback fires per drag end: the
      resize-complete listener only for a title containing "_resize", the
      drag-complete listener only for a title with neither suffix, and
      never the close listener. */
  lemma DragEndFiresAtMostOne(w: World, g: Sphere, m: PrimId, pos: LatLng)
    requires Wf(w) && IsMarker(w.view, m)
    ensures var w' := OnMarkerDragEnd(w, g, m, pos);
            && |w.fired| <= |w'.fired| <= |w.fired| + 1
            && w'.fired[..|w.fired|] == w.fired
            && (|w'.fired| == |w.fired| + 1 ==>
                  && !w'.fired[|w.fired|].CloseFired?
                  && (w'.fired[|w.fired|].ResizeCompleteFired? ==> IsResizeTitle(TitleOf(w.view, m)))
                  && (w'.fired[|w.fired|].DragCompleteFired? ==>
                        !IsResizeTitle(TitleOf(w.view, m)) && !IsCloseTitle(TitleOf(w.view, m))))
  {
    var w0 := Moved(w, m, pos);
    var w1 := UpdateMarkers(w0, g, m);
    var w2 := CheckResizeMarkerHeadingOverlap(w1, g, m);
    var w3 := ExecuteOnResizeCompleteListener(w2, m);
    var w' := ExecuteOnDragCompleteListener(w3, m);
    var t := TitleOf(w.view, m);
    assert TitleOf(w2.view, m) == t && TitleOf(w3.view, m) == t;
    assert w2.fired == w.fired;
    if IsResizeTitle(t) {
      assert w'.fired == w3.fired;
    } else {
      assert w3.fired == w.fired;
    }
  }
}
