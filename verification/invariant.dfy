/** The invariant the zones keep between events, and its preservation by
    every operation.

    `Consistent` says: the list holds each zone once; at most one
    registered zone is selected; every registered zone has its center
    marker and circle, and its handles when selected; every reference a
    zone holds names a primitive its own add call drew for that field; and
    the live primitives are exactly the ones registered zones currently
    reference, handles only for the selected zone. It also asks that
    registered titles be distinct and free of the two handle suffixes,
    which the string dispatch of the listeners needs to find the right
    zone. */
module Invariant {
  import opened Base
  import opened Text
  import opened Geo
  import opened Surface
  import opened Zones
  import opened Registry
  import opened Handlers

  // ---------------------------------------------------------------------
  // The invariant

  /** At most one registered zone is selected. */
  ghost predicate AtMostOneSelected(w: World)
    requires Wf(w)
  {
    forall a, b :: a in w.zones && b in w.zones && w.heap[a].isSelected && w.heap[b].isSelected ==> a == b
  }

  /** Every registered zone has a center marker and a circle, and handles
      when it is selected. */
  ghost predicate Drawn(w: World)
    requires Wf(w)
  {
    forall r :: r in w.zones ==>
      && w.heap[r].marker.Some? && w.heap[r].circle.Some?
      && (w.heap[r].isSelected ==> w.heap[r].markerResize.Some? && w.heap[r].markerClose.Some?)
  }

  /** Every reference a zone object holds names a primitive that zone drew
      for that field. */
  ghost predicate Tagged(w: World) {
    forall r, role :: r in w.heap && w.heap[r].Field(role).Some? ==>
      && w.heap[r].Field(role).value < |w.view.prims|
      && w.view.prims[w.heap[r].Field(role).value].owner == r
      && w.view.prims[w.heap[r].Field(role).value].role == role
  }

  /** Every primitive ever drawn belongs to a zone object and is what that
      zone's add call draws. */
  ghost predicate Labelled(w: World) {
    forall id :: 0 <= id < |w.view.prims| ==>
      && w.view.prims[id].owner in w.heap
      && ShapeFits(w.view.prims[id], w.heap[w.view.prims[id].owner].cfg)
  }

  predicate IsHandle(role: Role) {
    role == ResizeRole || role == CloseRole
  }

  /** Primitive `id` should be on the map: its zone is registered and still
      references it, and it is a handle only if that zone is selected. */
  ghost predicate Expected(w: World, id: int)
    requires Wf(w)
  {
    && 0 <= id < |w.view.prims|
    && w.view.prims[id].owner in w.zones
    && w.heap[w.view.prims[id].owner].Field(w.view.prims[id].role) == Some(id)
    && (!IsHandle(w.view.prims[id].role) || w.heap[w.view.prims[id].owner].isSelected)
  }

  /** The live primitives are exactly the expected ones: nothing orphaned,
      nothing missing. */
  ghost predicate LiveExact(w: World)
    requires Wf(w)
  {
    forall id :: id in w.view.live <==> Expected(w, id)
  }

  /** Registered titles contain neither handle suffix. */
  ghost predicate CleanTitles(w: World)
    requires Wf(w)
  {
    forall r :: r in w.zones ==>
      !Contains(w.heap[r].cfg.title, ResizeMarkerTitleSuffix) && !Contains(w.heap[r].cfg.title, CloseMarkerTitleSuffix)
  }

  /** No two registered zones share a title. */
  ghost predicate UniqueTitles(w: World)
    requires Wf(w)
  {
    forall a, b :: a in w.zones && b in w.zones && w.heap[a].cfg.title == w.heap[b].cfg.title ==> a == b
  }

  /** The state between two events. */
  ghost predicate Consistent(w: World) {
    && Wf(w) && NoDup(w.zones)
    && AtMostOneSelected(w) && Drawn(w)
    && Tagged(w) && Labelled(w) && LiveExact(w)
    && CleanTitles(w) && UniqueTitles(w)
  }

  // ---------------------------------------------------------------------
  // Redrawing one zone

  /** The ids zone `z` references through the fields in `roles`. */
  function RoleIds(z: ZoneRec, roles: set<Role>): set<PrimId> {
    (if CenterRole in roles then Ids(z.marker) else {})
    + (if CircleRole in roles then Ids(z.circle) else {})
    + (if ResizeRole in roles then Ids(z.markerResize) else {})
    + (if CloseRole in roles then Ids(z.markerClose) else {})
  }

  /** `d` redraws zone `o`, in state `z` on map `v`: the primitives of the
      fields in `gone` are removed, the fields in `redrawn` get new
      primitives drawn for them, the other fields keep their references,
      and a removed field that is not redrawn is a handle of a zone that is
      no longer selected. */
  ghost predicate Redraws(v: MapView, o: ZoneRef, z: ZoneRec, d: Drawing, gone: set<Role>, redrawn: set<Role>, k: nat) {
    && redrawn <= gone
    && Replaced(v, d.view, RoleIds(z, gone), k)
    && d.zone.cfg == z.cfg
    && (forall role :: role !in redrawn ==> d.zone.Field(role) == z.Field(role))
    && (forall role :: role in redrawn ==>
          && d.zone.Field(role).Some? && Added(v, d.view, d.zone.Field(role).value)
          && d.view.prims[d.zone.Field(role).value].owner == o
          && d.view.prims[d.zone.Field(role).value].role == role)
    && (forall id :: Added(v, d.view, id) ==>
          && d.view.prims[id].owner == o
          && d.zone.Field(d.view.prims[id].role) == Some(id)
          && ShapeFits(d.view.prims[id], z.cfg))
    && (forall role :: role in gone && role !in redrawn ==> IsHandle(role) && !d.zone.isSelected)
    && (forall role :: role in redrawn && IsHandle(role) ==> d.zone.isSelected)
    && (d.zone.isSelected != z.isSelected ==> ResizeRole in gone && CloseRole in gone)
  }

  /** The ids a zone references through some fields are primitives it drew
      for one of those fields. */
  lemma RoleIdsTagged(w: World, o: ZoneRef, gone: set<Role>, id: PrimId)
    requires Tagged(w) && o in w.heap && id in RoleIds(w.heap[o], gone)
    ensures id < |w.view.prims| && w.view.prims[id].owner == o && w.view.prims[id].role in gone
    ensures w.heap[o].Field(w.view.prims[id].role) == Some(id)
  {
    var z := w.heap[o];
    if CenterRole in gone && z.marker == Some(id) {
      assert z.Field(CenterRole) == Some(id);
    } else if CircleRole in gone && z.circle == Some(id) {
      assert z.Field(CircleRole) == Some(id);
    } else if ResizeRole in gone && z.markerResize == Some(id) {
      assert z.Field(ResizeRole) == Some(id);
    } else {
      assert z.Field(CloseRole) == Some(id);
    }
  }

  /** Storing a redrawn zone keeps every reference tagged. */
  lemma StoreRedrawTagged(w: World, o: ZoneRef, d: Drawing, gone: set<Role>, redrawn: set<Role>, k: nat)
    requires Wf(w) && o in w.heap && Tagged(w)
    requires Redraws(w.view, o, w.heap[o], d, gone, redrawn, k)
    ensures Tagged(Store(w, o, d))
  {
    var w' := Store(w, o, d);
    forall r, role | r in w'.heap && w'.heap[r].Field(role).Some?
      ensures w'.heap[r].Field(role).value < |w'.view.prims|
      ensures w'.view.prims[w'.heap[r].Field(role).value].owner == r
      ensures w'.view.prims[w'.heap[r].Field(role).value].role == role
    {
      if r != o || role !in redrawn {
        assert w'.heap[r].Field(role) == w.heap[r].Field(role);
        assert w.heap[r].Field(role).value < |w.view.prims|;
      }
    }
  }

  /** Storing a redrawn zone keeps every primitive labelled. */
  lemma StoreRedrawLabelled(w: World, o: ZoneRef, d: Drawing, gone: set<Role>, redrawn: set<Role>, k: nat)
    requires Wf(w) && o in w.heap && Labelled(w)
    requires Redraws(w.view, o, w.heap[o], d, gone, redrawn, k)
    ensures Labelled(Store(w, o, d))
  {
    var w' := Store(w, o, d);
    forall id | 0 <= id < |w'.view.prims|
      ensures w'.view.prims[id].owner in w'.heap
      ensures ShapeFits(w'.view.prims[id], w'.heap[w'.view.prims[id].owner].cfg)
    {
      if id >= |w.view.prims| {
        assert Added(w.view, d.view, id);
      } else {
        assert w'.view.prims[id] == w.view.prims[id];
      }
    }
  }

  /** Storing a redrawn registered zone keeps the live set exact. */
  lemma StoreRedrawLive(w: World, o: ZoneRef, d: Drawing, gone: set<Role>, redrawn: set<Role>, k: nat)
    requires Wf(w) && o in w.zones && Tagged(w) && LiveExact(w)
    requires Redraws(w.view, o, w.heap[o], d, gone, redrawn, k)
    ensures LiveExact(Store(w, o, d))
  {
    var w' := Store(w, o, d);
    var z := w.heap[o];
    var n := |w.view.prims|;
    forall id
      ensures id in w'.view.live <==> Expected(w', id)
    {
      if 0 <= id < n {
        var p := w.view.prims[id];
        assert w'.view.prims[id] == p;
        if id in RoleIds(z, gone) {
          RoleIdsTagged(w, o, gone, id);
          assert !Expected(w', id);
        } else if p.owner != o || p.role !in gone {
          assert Expected(w', id) <==> Expected(w, id);
        } else {
          assert !Expected(w, id);
          assert !Expected(w', id);
        }
      } else if id >= n {
        assert id in w'.view.live <==> Added(w.view, d.view, id);
      }
    }
  }

  /** Storing a redrawn registered zone keeps the references tagged, the
      primitives labelled, and the live set exact. */
  lemma StoreRedraw(w: World, o: ZoneRef, d: Drawing, gone: set<Role>, redrawn: set<Role>, k: nat)
    requires Wf(w) && o in w.zones && Tagged(w) && Labelled(w) && LiveExact(w)
    requires Redraws(w.view, o, w.heap[o], d, gone, redrawn, k)
    ensures Tagged(Store(w, o, d)) && Labelled(Store(w, o, d)) && LiveExact(Store(w, o, d))
  {
    StoreRedrawTagged(w, o, d, gone, redrawn, k);
    StoreRedrawLabelled(w, o, d, gone, redrawn, k);
    StoreRedrawLive(w, o, d, gone, redrawn, k);
  }

  // Each per-zone redraw of the listeners, as a `Redraws`.

  lemma DeactivateRedraws(v: MapView, g: Sphere, r: ZoneRef, z: ZoneRec)
    ensures Redraws(v, r, z, Deactivate(v, g, r, z), {CircleRole, CloseRole, ResizeRole}, {CircleRole}, 1)
  {
    var d := Deactivate(v, g, r, z);
    assert RoleIds(z, {CircleRole, CloseRole, ResizeRole}) == Ids(z.circle) + Ids(z.markerClose) + Ids(z.markerResize);
    assert forall id :: Added(v, d.view, id) ==> id == |v.prims|;
  }

  lemma RefreshHandlesRedraws(v: MapView, g: Sphere, r: ZoneRef, z: ZoneRec)
    requires z.isSelected
    ensures Redraws(v, r, z, RefreshHandles(v, g, r, z), {CloseRole, ResizeRole}, {CloseRole, ResizeRole}, 2)
  {
    var d := RefreshHandles(v, g, r, z);
    assert RoleIds(z, {CloseRole, ResizeRole}) == Ids(z.markerClose) + Ids(z.markerResize);
    assert forall id :: Added(v, d.view, id) ==> id == |v.prims| || id == |v.prims| + 1;
  }

  lemma ResizeToRedraws(v: MapView, g: Sphere, r: ZoneRef, z: ZoneRec, pos: LatLng)
    requires z.isSelected
    ensures Redraws(v, r, z, ResizeTo(v, g, r, z, pos), {CircleRole, CloseRole}, {CircleRole, CloseRole}, 2)
  {
    var d := ResizeTo(v, g, r, z, pos);
    assert RoleIds(z, {CircleRole, CloseRole}) == Ids(z.circle) + Ids(z.markerClose);
    assert forall id :: Added(v, d.view, id) ==> id == |v.prims| || id == |v.prims| + 1;
  }

  lemma MoveToRedraws(v: MapView, g: Sphere, r: ZoneRef, z: ZoneRec, pos: LatLng)
    requires z.isSelected
    ensures Redraws(v, r, z, MoveTo(v, g, r, z, pos), {CircleRole, ResizeRole, CloseRole}, {CircleRole, ResizeRole, CloseRole}, 3)
  {
    var d := MoveTo(v, g, r, z, pos);
    assert RoleIds(z, {CircleRole, ResizeRole, CloseRole}) == Ids(z.circle) + Ids(z.markerResize) + Ids(z.markerClose);
    assert forall id :: Added(v, d.view, id) ==> id == |v.prims| || id == |v.prims| + 1 || id == |v.prims| + 2;
  }

  lemma SnapRedraws(v: MapView, g: Sphere, r: ZoneRef, z: ZoneRec, pos: LatLng)
    requires z.isSelected && Overlaps(v, g, z, pos)
    ensures Redraws(v, r, z, Snap(v, g, r, z, pos), {ResizeRole}, {ResizeRole}, 1)
  {
    var d := Snap(v, g, r, z, pos);
    assert RoleIds(z, {ResizeRole}) == Ids(z.markerResize);
    assert forall id :: Added(v, d.view, id) ==> id == |v.prims|;
  }

  /** A reference held in any field is among the zone's owned ids. */
  lemma FieldOwned(z: ZoneRec, role: Role)
    requires z.Field(role).Some?
    ensures z.Field(role).value in Owned(z)
  {
  }

  // ---------------------------------------------------------------------
  // Preservation, operation by operation

  /** Building a zone object with a fresh reference keeps the invariant. */
  lemma ConstructConsistent(w: World, r: ZoneRef, cfg: Config, location: LatLng, radius: real)
    requires Consistent(w) && r !in w.heap
    ensures Consistent(Construct(w, r, cfg, location, radius))
  {
    var w' := Construct(w, r, cfg, location, radius);
    assert forall x :: x in w.zones ==> w'.heap[x] == w.heap[x];
    assert forall id :: Expected(w', id) <==> Expected(w, id);
  }

  /** `remove(zone)` keeps the invariant: the removed zone's primitives are
      exactly the live ones it owned. */
  lemma RemoveConsistent(w: World, z: ZoneRef)
    requires Consistent(w) && z in w.heap
    ensures Consistent(Remove(w, z))
  {
    var w' := Remove(w, z);
    RemoveFirstMembers(w.zones, z);
    RemoveFirstNoDup(w.zones, z);
    forall id ensures id in w'.view.live <==> Expected(w', id) {
      if id in Owned(w.heap[z]) {
        var role :| w.heap[z].Field(role) == Some(id);
        assert w.view.prims[id].owner == z;
        assert !Expected(w', id);
      } else if 0 <= id < |w.view.prims| && w.view.prims[id].owner == z {
        assert !Expected(w, id) by {
          if Expected(w, id) {
            FieldOwned(w.heap[z], w.view.prims[id].role);
          }
        }
        assert !Expected(w', id);
      } else {
        assert Expected(w', id) <==> Expected(w, id);
      }
    }
  }

  /** The map moving a marker keeps the invariant: nothing it depends on
      is a position. */
  lemma MovedConsistent(w: World, m: PrimId, pos: LatLng)
    requires Consistent(w) && IsMarker(w.view, m)
    ensures Consistent(Moved(w, m, pos))
    ensures Moved(w, m, pos).view.prims[m].owner == w.view.prims[m].owner
    ensures Moved(w, m, pos).view.prims[m].role == w.view.prims[m].role
  {
    var w' := Moved(w, m, pos);
    assert forall id :: 0 <= id < |w.view.prims| ==>
      w'.view.prims[id].owner == w.view.prims[id].owner && w'.view.prims[id].role == w.view.prims[id].role;
    assert forall id :: Expected(w', id) <==> Expected(w, id);
    forall id | 0 <= id < |w'.view.prims|
      ensures ShapeFits(w'.view.prims[id], w'.heap[w'.view.prims[id].owner].cfg)
    {
      if id != m {
        assert w'.view.prims[id] == w.view.prims[id];
      }
    }
  }

  /** Turning the camera keeps the invariant: nothing it depends on is the
      bearing. */
  lemma BearingConsistent(w: World, bearing: real)
    requires Consistent(w)
    ensures Consistent(w.(view := w.view.(bearing := bearing)))
  {
    var w1 := w.(view := w.view.(bearing := bearing));
    assert forall id :: Expected(w1, id) <==> Expected(w, id);
  }

  /** Storing a redraw of a registered zone that leaves it drawn and does
      not change its selection keeps the invariant. */
  lemma StoreConsistent(w: World, o: ZoneRef, d: Drawing, gone: set<Role>, redrawn: set<Role>, k: nat)
    requires Consistent(w) && o in w.zones
    requires Redraws(w.view, o, w.heap[o], d, gone, redrawn, k)
    requires d.zone.isSelected == w.heap[o].isSelected
    requires d.zone.marker.Some? && d.zone.circle.Some?
    requires d.zone.isSelected ==> d.zone.markerResize.Some? && d.zone.markerClose.Some?
    ensures Consistent(Store(w, o, d))
  {
    StoreRedraw(w, o, d, gone, redrawn, k);
  }

  /** The camera-move listener keeps the invariant. */
  lemma CameraConsistent(w: World, g: Sphere, bearing: real)
    requires Consistent(w)
    ensures Consistent(OnCameraMove(w, g, bearing))
  {
    var w1 := w.(view := w.view.(bearing := bearing));
    BearingConsistent(w, bearing);
    assert Find(w1, Selected) == Find(w, Selected);
    match Find(w1, Selected)
    case None =>
    case Some(r) =>
      var d := RefreshHandles(w1.view, g, r, w1.heap[r]);
      RefreshHandlesRedraws(w1.view, g, r, w1.heap[r]);
      StoreConsistent(w1, r, d, {CloseRole, ResizeRole}, {CloseRole, ResizeRole}, 2);
      assert OnCameraMove(w, g, bearing) == Store(w1, r, d);
  }

  // ---------------------------------------------------------------------
  // The full sweep

  /** The sweep keeps the invariant, given that the new list holds each
      zone once and its titles are clean and distinct. */
  lemma SweptConsistent(g: Sphere, w: World, w': World, z: ZoneRef)
    requires Consistent(w) && Wf(w') && w'.heap.Keys == w.heap.Keys && z in w.heap
    requires Swept(g, w, w', z)
    requires NoDup(w'.zones) && CleanTitles(w') && UniqueTitles(w')
    requires forall r :: r in w'.zones ==> r in w.zones || r == z
    ensures Consistent(w')
  {
    SweptTagged(g, w, w', z);
    SweptLabelled(g, w, w', z);
    SweptLive(g, w, w', z);
    assert AtMostOneSelected(w');
    assert Drawn(w') by {
      forall r | r in w'.zones ensures Rendered(g, w'.view, r, w'.heap[r]) {
      }
    }
  }

  lemma SweptTagged(g: Sphere, w: World, w': World, z: ZoneRef)
    requires Wf(w) && Wf(w') && w'.heap.Keys == w.heap.Keys && Tagged(w)
    requires SweptSelection(w', z) && SweptDrawn(g, w, w', z) && SweptFrame(w, w', z) && Appended(w.view, w'.view)
    ensures Tagged(w')
  {
    forall r, role | r in w'.heap && w'.heap[r].Field(role).Some?
      ensures w'.heap[r].Field(role).value < |w'.view.prims|
      ensures w'.view.prims[w'.heap[r].Field(role).value].owner == r
      ensures w'.view.prims[w'.heap[r].Field(role).value].role == role
    {
      SweptTaggedOne(g, w, w', z, r, role);
    }
  }

  lemma SweptTaggedOne(g: Sphere, w: World, w': World, z: ZoneRef, r: ZoneRef, role: Role)
    requires Wf(w) && Wf(w') && w'.heap.Keys == w.heap.Keys && Tagged(w)
    requires SweptSelection(w', z) && SweptDrawn(g, w, w', z) && SweptFrame(w, w', z) && Appended(w.view, w'.view)
    requires r in w'.heap && w'.heap[r].Field(role).Some?
    ensures w'.heap[r].Field(role).value < |w'.view.prims|
    ensures w'.view.prims[w'.heap[r].Field(role).value].owner == r
    ensures w'.view.prims[w'.heap[r].Field(role).value].role == role
  {
    var z' := w'.heap[r];
    if r !in w'.zones {
      assert z'.Field(role) == w.heap[r].Field(role);
    } else {
      assert Rendered(g, w'.view, r, z');
      if role == CenterRole || role == CircleRole || r == z {
      } else {
        assert z'.Field(role) == w.heap[r].Field(role);
      }
    }
  }

  lemma SweptLabelled(g: Sphere, w: World, w': World, z: ZoneRef)
    requires Wf(w) && Wf(w') && w'.heap.Keys == w.heap.Keys && Labelled(w)
    requires SweptFrame(w, w', z) && SweptTags(w, w') && Appended(w.view, w'.view)
    ensures Labelled(w')
  {
    forall id | 0 <= id < |w'.view.prims|
      ensures w'.view.prims[id].owner in w'.heap
      ensures ShapeFits(w'.view.prims[id], w'.heap[w'.view.prims[id].owner].cfg)
    {
      if id < |w.view.prims| {
        assert w'.view.prims[id] == w.view.prims[id];
      } else {
        assert Added(w.view, w'.view, id);
      }
    }
  }

  lemma SweptLive(g: Sphere, w: World, w': World, z: ZoneRef)
    requires Wf(w) && Wf(w') && w'.heap.Keys == w.heap.Keys && LiveExact(w)
    requires SweptSelection(w', z) && SweptDrawn(g, w, w', z) && SweptMap(w, w') && SweptTags(w, w')
    requires NoDup(w'.zones)
    ensures LiveExact(w')
  {
    forall id ensures id in w'.view.live <==> Expected(w', id) {
      if id in w.view.live {
        LiveOwned(w, id);
      }
      if Expected(w', id) {
        ExpectedAdded(g, w, w', z, id);
      }
    }
  }

  /** A live primitive is owned by a registered zone. */
  lemma LiveOwned(w: World, id: PrimId)
    requires Wf(w) && LiveExact(w) && id in w.view.live
    ensures id in OwnedAll(w.heap, w.zones)
  {
    assert Expected(w, id);
    var o := w.view.prims[id].owner;
    FieldOwned(w.heap[o], w.view.prims[id].role);
    OwnedAllMembers(w.heap, w.zones);
  }

  /** After the sweep every expected primitive is a new one. */
  lemma ExpectedAdded(g: Sphere, w: World, w': World, z: ZoneRef, id: int)
    requires Wf(w) && Wf(w') && w'.heap.Keys == w.heap.Keys
    requires SweptSelection(w', z) && SweptDrawn(g, w, w', z)
    requires Expected(w', id)
    ensures Added(w.view, w'.view, id)
  {
    var o := w'.view.prims[id].owner;
    var role := w'.view.prims[id].role;
    if IsHandle(role) {
      assert o == z;
    }
  }

  /** The sweep keeps titles clean and distinct when the zone it may add
      has a clean title no registered zone has. */
  lemma SweptTitles(w: World, w': World, z: ZoneRef)
    requires Wf(w) && Wf(w') && w'.heap.Keys == w.heap.Keys && z in w.heap
    requires CleanTitles(w) && UniqueTitles(w) && SweptFrame(w, w', z)
    requires forall r :: r in w'.zones ==> r in w.zones || r == z
    requires z in w'.zones && z !in w.zones ==>
               && !Contains(w.heap[z].cfg.title, ResizeMarkerTitleSuffix)
               && !Contains(w.heap[z].cfg.title, CloseMarkerTitleSuffix)
               && (forall r :: r in w.zones ==> w.heap[r].cfg.title != w.heap[z].cfg.title)
    ensures CleanTitles(w') && UniqueTitles(w')
  {
  }

  /** `showOnMap` of a zone that is not registered, whose title is clean
      and not taken, keeps the invariant. */
  lemma ShowOnMapConsistent(w: World, g: Sphere, z: ZoneRef)
    requires Consistent(w) && z in w.heap && z !in w.zones
    requires !Contains(w.heap[z].cfg.title, ResizeMarkerTitleSuffix)
    requires !Contains(w.heap[z].cfg.title, CloseMarkerTitleSuffix)
    requires forall r :: r in w.zones ==> w.heap[r].cfg.title != w.heap[z].cfg.title
    ensures Consistent(ShowOnMap(w, g, z))
  {
    var w' := ShowOnMap(w, g, z);
    AppendedZoneConsistent(g, w, w', z);
  }

  /** A sweep that appends a fresh zone with a clean, untaken title keeps
      the invariant. */
  lemma AppendedZoneConsistent(g: Sphere, w: World, w': World, z: ZoneRef)
    requires Consistent(w) && z in w.heap && z !in w.zones
    requires !Contains(w.heap[z].cfg.title, ResizeMarkerTitleSuffix)
    requires !Contains(w.heap[z].cfg.title, CloseMarkerTitleSuffix)
    requires forall r :: r in w.zones ==> w.heap[r].cfg.title != w.heap[z].cfg.title
    requires Wf(w') && w'.heap.Keys == w.heap.Keys && w'.zones == w.zones + [z]
    requires Swept(g, w, w', z)
    ensures Consistent(w')
  {
    assert forall r :: r in w'.zones ==> r in w.zones || r == z;
    SweptTitles(w, w', z);
    NoDupAppend(w.zones, z);
    SweptConsistent(g, w, w', z);
  }

  /** `setSelected` of any zone object keeps the invariant. */
  lemma SetSelectedConsistent(w: World, g: Sphere, z: ZoneRef)
    requires Consistent(w) && z in w.heap
    ensures Consistent(SetSelected(w, g, z))
  {
    var w' := SetSelected(w, g, z);
    SweptTitles(w, w', z);
    SweptConsistent(g, w, w', z);
  }
}
