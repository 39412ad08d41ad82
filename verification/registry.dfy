/** The zone registry: the process-wide ordered list of zones and the
    operations that add a zone, select one and remove one. `showOnMap` and
    `setSelected` both run a full sweep: every registered zone is
    deselected and loses its four primitives, the target is selected, and
    every registered zone is drawn again. */
module Registry {
  import opened Base
  import opened Geo
  import opened Surface
  import opened Zones

  // ---------------------------------------------------------------------
  // Ownership of primitive ids

  function Ids(ref: Option<PrimId>): set<PrimId> {
    if ref.Some? then {ref.value} else {}
  }

  /** The ids a zone holds references to, live or not. */
  function Owned(z: ZoneRec): set<PrimId> {
    Ids(z.marker) + Ids(z.circle) + Ids(z.markerResize) + Ids(z.markerClose)
  }

  /** The ids held by the zones listed in `rs`. */
  function OwnedAll(heap: map<ZoneRef, ZoneRec>, rs: seq<ZoneRef>): set<PrimId>
    requires forall r :: r in rs ==> r in heap
    decreases |rs|
  {
    if rs == [] then {}
    else Owned(heap[rs[0]]) + OwnedAll(heap, rs[1..])
  }

  /** `OwnedAll` is exactly the union of what the listed zones hold. */
  lemma {:induction false} OwnedAllMembers(heap: map<ZoneRef, ZoneRec>, rs: seq<ZoneRef>)
    requires forall r :: r in rs ==> r in heap
    ensures forall r :: r in rs ==> Owned(heap[r]) <= OwnedAll(heap, rs)
    ensures forall id :: id in OwnedAll(heap, rs) ==> exists r :: r in rs && id in Owned(heap[r])
    decreases |rs|
  {
    if rs != [] {
      OwnedAllMembers(heap, rs[1..]);
      assert forall r :: r in rs ==> r == rs[0] || r in rs[1..];
      assert forall r :: r in rs[1..] ==> r in rs;
    }
  }

  /** Only the reference fields of the listed zones matter to `OwnedAll`. */
  lemma {:induction false} OwnedAllFrame(h1: map<ZoneRef, ZoneRec>, h2: map<ZoneRef, ZoneRec>, rs: seq<ZoneRef>)
    requires forall r :: r in rs ==> r in h1 && r in h2 && Owned(h1[r]) == Owned(h2[r])
    ensures OwnedAll(h1, rs) == OwnedAll(h2, rs)
    decreases |rs|
  {
    if rs != [] {
      OwnedAllFrame(h1, h2, rs[1..]);
    }
  }

  // ---------------------------------------------------------------------
  // How the map changes

  /** `v'` only appended primitives to `v` (some may have been removed). */
  predicate Appended(v: MapView, v': MapView) {
    && v'.bearing == v.bearing
    && |v.prims| <= |v'.prims|
    && (forall i :: 0 <= i < |v.prims| ==> v'.prims[i] == v.prims[i])
  }

  /** `id` was added going from `v` to `v'`. */
  predicate Added(v: MapView, v': MapView, id: int) {
    |v.prims| <= id < |v'.prims|
  }

  /** Going from `v` to `v'` only added live primitives. */
  ghost predicate Grew(v: MapView, v': MapView) {
    && Appended(v, v')
    && (forall id :: id in v'.live <==> id in v.live || Added(v, v', id))
  }

  /** The live primitive `id` is exactly `p`. */
  predicate Shows(v: MapView, id: PrimId, p: Prim) {
    id in v.live && id < |v.prims| && v.prims[id] == p
  }

  /** Zone `r` in state `z` is fully drawn on `v` from its current fields:
      center marker and circle always, resize and close markers when
      selected. */
  predicate Rendered(g: Sphere, v: MapView, r: ZoneRef, z: ZoneRec) {
    && z.marker.Some? && Shows(v, z.marker.value, Prim(r, CenterRole, CenterShape(z)))
    && z.circle.Some? && Shows(v, z.circle.value, Prim(r, CircleRole, CircleShapeOf(z)))
    && (z.isSelected ==>
          && z.markerResize.Some? && Shows(v, z.markerResize.value, Prim(r, ResizeRole, ResizeShape(g, v.bearing, z)))
          && z.markerClose.Some? && Shows(v, z.markerClose.value, Prim(r, CloseRole, CloseShape(g, v.bearing, z))))
  }

  /** Drawing more primitives never hides a rendered zone. */
  lemma RenderedPersists(g: Sphere, v: MapView, v': MapView, r: ZoneRef, z: ZoneRec)
    requires Rendered(g, v, r, z)
    requires Appended(v, v') && v.live <= v'.live
    ensures Rendered(g, v', r, z)
  {
  }

  /** The non-primitive state of a zone is the same. */
  predicate SameState(a: ZoneRec, b: ZoneRec) {
    a.cfg == b.cfg && a.location == b.location && a.radius == b.radius
    && a.resizeHeading == b.resizeHeading && a.isSelected == b.isSelected
  }

  /** Drawing zone `before` on a map of `n` primitives gave it fresh
      center-marker and circle references, fresh handle references when it
      is selected, and left its handle references alone when it is not. */
  predicate FreshlyDrawn(n: nat, before: ZoneRec, after: ZoneRec) {
    && after.marker.Some? && after.marker.value >= n
    && after.circle.Some? && after.circle.value >= n
    && (before.isSelected ==>
          after.markerResize.Some? && after.markerResize.value >= n
          && after.markerClose.Some? && after.markerClose.value >= n)
    && (!before.isSelected ==>
          after.markerResize == before.markerResize && after.markerClose == before.markerClose)
  }

  /** Primitive `id` was created for zone `r` in the field for its role,
      and is a handle only if the zone is selected. */
  predicate DrawnFor(v: MapView, r: ZoneRef, z: ZoneRec, id: PrimId) {
    id < |v.prims| && v.prims[id].owner == r && ShapeFits(v.prims[id], z.cfg)
    && (v.prims[id].role == CenterRole || v.prims[id].role == CircleRole || z.isSelected)
  }

  // ---------------------------------------------------------------------
  // The two loops of the sweep

  /** First loop body of the sweep: deselect the zone and remove its four
      primitives. */
  function Clear(v: MapView, z: ZoneRec): (d: Drawing)
    ensures d.zone == z.(isSelected := false)
    ensures d.view.prims == v.prims && d.view.bearing == v.bearing
    ensures d.view.live == v.live - Owned(z)
  {
    var v1 := Undraw(v, z, CenterRole);
    var v2 := Undraw(v1, z, CircleRole);
    var v3 := Undraw(v2, z, ResizeRole);
    Drawing(Undraw(v3, z, CloseRole), z.(isSelected := false))
  }

  /** `zones.forEach { deselect and remove its primitives }` over `rs`. */
  function ClearPass(w: World, rs: seq<ZoneRef>): (w': World)
    requires Wf(w) && forall r :: r in rs ==> r in w.heap
    ensures Wf(w')
    ensures w'.zones == w.zones && w'.fired == w.fired
    ensures w'.view.prims == w.view.prims && w'.view.bearing == w.view.bearing
    ensures w'.heap.Keys == w.heap.Keys
    decreases |rs|
  {
    if rs == [] then w
    else
      assert forall r :: r in rs ==> r == rs[0] || r in rs[1..];
      ClearPass(Store(w, rs[0], Clear(w.view, w.heap[rs[0]])), rs[1..])
  }

  /** The clearing loop deselects exactly the listed zones and leaves their
      references as they were. */
  lemma ClearPassHeap(w: World, rs: seq<ZoneRef>)
    requires Wf(w) && forall r :: r in rs ==> r in w.heap
    ensures forall r :: r in rs ==> ClearPass(w, rs).heap[r] == w.heap[r].(isSelected := false)
    ensures forall r :: r in w.heap && r !in rs ==> ClearPass(w, rs).heap[r] == w.heap[r]
  {
    ClearPassListed(w, rs);
    ClearPassUnlisted(w, rs);
  }

  lemma {:induction false} ClearPassListed(w: World, rs: seq<ZoneRef>)
    requires Wf(w) && forall r :: r in rs ==> r in w.heap
    ensures forall r :: r in rs ==> ClearPass(w, rs).heap[r] == w.heap[r].(isSelected := false)
    decreases |rs|
  {
    if rs != [] {
      var w1 := Store(w, rs[0], Clear(w.view, w.heap[rs[0]]));
      ClearPassListed(w1, rs[1..]);
      ClearPassUnlisted(w1, rs[1..]);
      assert forall r :: r in rs ==> r == rs[0] || r in rs[1..];
    }
  }

  lemma {:induction false} ClearPassUnlisted(w: World, rs: seq<ZoneRef>)
    requires Wf(w) && forall r :: r in rs ==> r in w.heap
    ensures forall r :: r in w.heap && r !in rs ==> ClearPass(w, rs).heap[r] == w.heap[r]
    decreases |rs|
  {
    if rs != [] {
      var w1 := Store(w, rs[0], Clear(w.view, w.heap[rs[0]]));
      ClearPassUnlisted(w1, rs[1..]);
      assert forall r :: r in rs[1..] ==> r in rs;
    }
  }

  /** The clearing loop removes exactly the primitives the listed zones
      reference. */
  lemma {:induction false} ClearPassLive(w: World, rs: seq<ZoneRef>)
    requires Wf(w) && forall r :: r in rs ==> r in w.heap
    ensures ClearPass(w, rs).view.live == w.view.live - OwnedAll(w.heap, rs)
    decreases |rs|
  {
    if rs != [] {
      var w1 := Store(w, rs[0], Clear(w.view, w.heap[rs[0]]));
      assert forall r :: r in rs[1..] ==> r in rs;
      ClearPassLive(w1, rs[1..]);
      OwnedAllFrame(w1.heap, w.heap, rs[1..]);
      assert OwnedAll(w.heap, rs) == Owned(w.heap[rs[0]]) + OwnedAll(w.heap, rs[1..]);
    }
  }

  /** Second loop body of the sweep: draw the center marker and the circle,
      and the resize and close markers when the zone is selected. */
  function Redraw(v: MapView, g: Sphere, r: ZoneRef, z: ZoneRec): (d: Drawing)
    ensures Grew(v, d.view)
    ensures SameState(d.zone, z)
    ensures Rendered(g, d.view, r, d.zone)
    ensures FreshlyDrawn(|v.prims|, z, d.zone)
    ensures forall id :: Added(v, d.view, id) ==>
              DrawnFor(d.view, r, z, id) && d.zone.Field(d.view.prims[id].role) == Some(id)
  {
    var d1 := Draw(v, g, r, z, CenterRole);
    var d2 := Draw(d1.view, g, r, d1.zone, CircleRole);
    if z.isSelected then
      var d3 := Draw(d2.view, g, r, d2.zone, ResizeRole);
      Draw(d3.view, g, r, d3.zone, CloseRole)
    else
      d2
  }

  /** `zones.forEach { draw it }` over `rs`. A zone listed twice is drawn
      twice; the second drawing overwrites its references. */
  function RedrawPass(w: World, g: Sphere, rs: seq<ZoneRef>): (w': World)
    requires Wf(w) && forall r :: r in rs ==> r in w.heap
    ensures Wf(w')
    ensures w'.zones == w.zones && w'.fired == w.fired
    ensures Grew(w.view, w'.view)
    ensures w'.heap.Keys == w.heap.Keys
    ensures forall r :: r in w.heap && r !in rs ==> w'.heap[r] == w.heap[r]
    ensures forall r :: r in rs ==> SameState(w'.heap[r], w.heap[r])
    decreases |rs|
  {
    if rs == [] then w
    else
      var w1 := Store(w, rs[0], Redraw(w.view, g, rs[0], w.heap[rs[0]]));
      assert forall q :: q in rs ==> q == rs[0] || q in rs[1..];
      RedrawPass(w1, g, rs[1..])
  }

  /** After the drawing loop every listed zone is fully drawn from its own
      fields, with fresh references. */
  lemma RedrawPassRenders(w: World, g: Sphere, rs: seq<ZoneRef>)
    requires Wf(w) && forall r :: r in rs ==> r in w.heap
    ensures forall r :: r in rs ==>
              && Rendered(g, RedrawPass(w, g, rs).view, r, RedrawPass(w, g, rs).heap[r])
              && FreshlyDrawn(|w.view.prims|, w.heap[r], RedrawPass(w, g, rs).heap[r])
  {
    RedrawPassRendered(w, g, rs);
    RedrawPassFresh(w, g, rs);
  }

  lemma {:induction false} RedrawPassRendered(w: World, g: Sphere, rs: seq<ZoneRef>)
    requires Wf(w) && forall r :: r in rs ==> r in w.heap
    ensures forall r :: r in rs ==> Rendered(g, RedrawPass(w, g, rs).view, r, RedrawPass(w, g, rs).heap[r])
    decreases |rs|
  {
    if rs != [] {
      var r := rs[0];
      var w1 := Store(w, r, Redraw(w.view, g, r, w.heap[r]));
      var w' := RedrawPass(w1, g, rs[1..]);
      RedrawPassRendered(w1, g, rs[1..]);
      assert forall q :: q in rs ==> q == r || q in rs[1..];
      if r !in rs[1..] {
        RenderedPersists(g, w1.view, w'.view, r, w1.heap[r]);
      }
    }
  }

  lemma {:induction false} RedrawPassFresh(w: World, g: Sphere, rs: seq<ZoneRef>)
    requires Wf(w) && forall r :: r in rs ==> r in w.heap
    ensures forall r :: r in rs ==> FreshlyDrawn(|w.view.prims|, w.heap[r], RedrawPass(w, g, rs).heap[r])
    decreases |rs|
  {
    if rs != [] {
      var r := rs[0];
      var w1 := Store(w, r, Redraw(w.view, g, r, w.heap[r]));
      RedrawPassFresh(w1, g, rs[1..]);
      assert forall q :: q in rs ==> q == r || q in rs[1..];
    }
  }

  /** Every primitive the drawing loop adds belongs to a listed zone and is
      a handle only for a selected zone; when no zone is listed twice, each
      one is still referenced by its zone at the end. */
  lemma RedrawPassTags(w: World, g: Sphere, rs: seq<ZoneRef>)
    requires Wf(w) && forall r :: r in rs ==> r in w.heap
    ensures forall id :: Added(w.view, RedrawPass(w, g, rs).view, id) ==>
              var v' := RedrawPass(w, g, rs).view;
              v'.prims[id].owner in rs && DrawnFor(v', v'.prims[id].owner, w.heap[v'.prims[id].owner], id)
    ensures NoDup(rs) ==> forall id :: Added(w.view, RedrawPass(w, g, rs).view, id) ==>
              var w' := RedrawPass(w, g, rs);
              w'.heap[w'.view.prims[id].owner].Field(w'.view.prims[id].role) == Some(id)
  {
    RedrawPassOwners(w, g, rs);
    if NoDup(rs) {
      RedrawPassRefs(w, g, rs);
    }
  }

  lemma {:induction false} RedrawPassOwners(w: World, g: Sphere, rs: seq<ZoneRef>)
    requires Wf(w) && forall r :: r in rs ==> r in w.heap
    ensures forall id :: Added(w.view, RedrawPass(w, g, rs).view, id) ==>
              var v' := RedrawPass(w, g, rs).view;
              v'.prims[id].owner in rs && DrawnFor(v', v'.prims[id].owner, w.heap[v'.prims[id].owner], id)
    decreases |rs|
  {
    if rs != [] {
      var r := rs[0];
      var w1 := Store(w, r, Redraw(w.view, g, r, w.heap[r]));
      RedrawPassOwners(w1, g, rs[1..]);
      assert forall q :: q in rs[1..] ==> q in rs;
    }
  }

  lemma {:induction false} RedrawPassRefs(w: World, g: Sphere, rs: seq<ZoneRef>)
    requires Wf(w) && forall r :: r in rs ==> r in w.heap
    requires NoDup(rs)
    ensures forall id :: Added(w.view, RedrawPass(w, g, rs).view, id) ==>
              var w' := RedrawPass(w, g, rs);
              && w'.view.prims[id].owner in w'.heap
              && w'.heap[w'.view.prims[id].owner].Field(w'.view.prims[id].role) == Some(id)
    decreases |rs|
  {
    if rs != [] {
      var r := rs[0];
      var w1 := Store(w, r, Redraw(w.view, g, r, w.heap[r]));
      NoDupTail(rs);
      RedrawPassRefs(w1, g, rs[1..]);
      RedrawPassOwners(w1, g, rs[1..]);
      assert forall q :: q in rs[1..] ==> q in rs;
    }
  }

  // ---------------------------------------------------------------------
  // The registry operations

  /** Building a zone object: the allocator hands out a reference no object
      has; the zone has the default heading, is selected, has nothing
      drawn, and is not registered. */
  function Construct(w: World, r: ZoneRef, cfg: Config, location: LatLng, radius: real): (w': World)
    requires Wf(w) && r !in w.heap
    ensures Wf(w') && w'.heap.Keys == w.heap.Keys + {r} && r !in w'.zones
    ensures w'.heap[r].cfg == cfg && w'.heap[r].location == location && w'.heap[r].radius == radius
    ensures w'.heap[r].resizeHeading == DefaultResizeMarkerHeading && w'.heap[r].isSelected
    ensures forall role :: w'.heap[r].Field(role).None?
    ensures forall x :: x in w.heap ==> w'.heap[x] == w.heap[x]
    ensures w'.zones == w.zones && w'.view == w.view && w'.fired == w.fired
  {
    w.(heap := w.heap[r := NewZone(cfg, location, radius)])
  }

  /** The first half of the sweep: deselect every registered zone and
      remove its primitives, then select `z` and make `zs` the list. */
  function Cleared(w: World, z: ZoneRef, zs: seq<ZoneRef>): (w': World)
    requires Wf(w) && z in w.heap
    requires forall r :: r in zs ==> r in w.zones || r == z
    ensures Wf(w') && w'.zones == zs && w'.heap.Keys == w.heap.Keys && w'.fired == w.fired
  {
    var w1 := ClearPass(w, w.zones);
    w1.(heap := w1.heap[z := w1.heap[z].(isSelected := true)], zones := zs)
  }

  /** The sweep shared by `showOnMap` and `setSelected`: deselect and clear
      every registered zone, select `z`, make `zs` the registered list, and
      draw every zone of `zs`. */
  function Sweep(w: World, g: Sphere, z: ZoneRef, zs: seq<ZoneRef>): (w': World)
    requires Wf(w) && z in w.heap
    requires forall r :: r in zs ==> r in w.zones || r == z
    ensures Wf(w') && w'.zones == zs && w'.heap.Keys == w.heap.Keys && w'.fired == w.fired
    ensures Grew(Cleared(w, z, zs).view, w'.view)
  {
    RedrawPass(Cleared(w, z, zs), g, zs)
  }

  /** Among the listed zones exactly `z` is selected. */
  ghost predicate SweptSelection(w': World, z: ZoneRef)
    requires Wf(w')
  {
    forall r :: r in w'.zones ==> (w'.heap[r].isSelected <==> r == z)
  }

  /** Every listed zone is fully drawn from its own fields with a fresh
      center marker and circle; `z` also has fresh handles, and every other
      listed zone keeps its old (now removed) handle references, so only
      `z` has handles on the map. */
  ghost predicate SweptDrawn(g: Sphere, w: World, w': World, z: ZoneRef)
    requires Wf(w) && Wf(w') && w'.heap.Keys == w.heap.Keys
  {
    && (forall r :: r in w'.zones ==> Rendered(g, w'.view, r, w'.heap[r]))
    && (forall r :: r in w'.zones ==>
          && w'.heap[r].marker.Some? && w'.heap[r].marker.value >= |w.view.prims|
          && w'.heap[r].circle.Some? && w'.heap[r].circle.value >= |w.view.prims|)
    && (forall r :: r in w'.zones && r == z ==>
          && w'.heap[r].markerResize.Some? && w'.heap[r].markerResize.value >= |w.view.prims|
          && w'.heap[r].markerClose.Some? && w'.heap[r].markerClose.value >= |w.view.prims|)
    && (forall r :: r in w'.zones && r != z ==>
          w'.heap[r].markerResize == w.heap[r].markerResize && w'.heap[r].markerClose == w.heap[r].markerClose)
  }

  /** The map only grew, except that every primitive a previously
      registered zone referenced was removed. */
  ghost predicate SweptMap(w: World, w': World)
    requires Wf(w)
  {
    && Appended(w.view, w'.view)
    && (forall id :: id in w'.view.live <==>
          (id in w.view.live && id !in OwnedAll(w.heap, w.zones)) || Added(w.view, w'.view, id))
  }

  /** No zone's position, radius, heading or configuration changed; a zone
      not listed keeps its references, and is untouched unless it is `z`. */
  ghost predicate SweptFrame(w: World, w': World, z: ZoneRef)
    requires w'.heap.Keys == w.heap.Keys
  {
    && (forall r :: r in w.heap ==>
          && w'.heap[r].cfg == w.heap[r].cfg && w'.heap[r].location == w.heap[r].location
          && w'.heap[r].radius == w.heap[r].radius && w'.heap[r].resizeHeading == w.heap[r].resizeHeading)
    && (forall r :: r in w.heap && r !in w'.zones ==> w'.heap[r] == w.heap[r].(isSelected := w'.heap[r].isSelected))
    && (forall r :: r in w.heap && r !in w'.zones && r != z ==> w'.heap[r] == w.heap[r])
  }

  /** Every primitive the sweep added belongs to a listed zone, is what
      that zone's add call draws, is a handle only of a selected zone, and,
      when no zone is listed twice, is still referenced by its zone. */
  ghost predicate SweptTags(w: World, w': World)
    requires Wf(w')
  {
    forall id :: Added(w.view, w'.view, id) ==>
      && w'.view.prims[id].owner in w'.zones
      && ShapeFits(w'.view.prims[id], w'.heap[w'.view.prims[id].owner].cfg)
      && (w'.view.prims[id].role == CenterRole || w'.view.prims[id].role == CircleRole
          || w'.heap[w'.view.prims[id].owner].isSelected)
      && (NoDup(w'.zones) ==> w'.heap[w'.view.prims[id].owner].Field(w'.view.prims[id].role) == Some(id))
  }

  /** What the sweep of `showOnMap`/`setSelected` leaves behind, from `w`
      to `w'` with target `z`. */
  ghost predicate Swept(g: Sphere, w: World, w': World, z: ZoneRef)
    requires Wf(w) && Wf(w') && w'.heap.Keys == w.heap.Keys
  {
    SweptSelection(w', z) && SweptDrawn(g, w, w', z) && SweptMap(w, w') && SweptFrame(w, w', z)
    && SweptTags(w, w')
  }

  /** The state of each zone after the first half of the sweep. */
  lemma ClearedHeap(w: World, z: ZoneRef, zs: seq<ZoneRef>)
    requires Wf(w) && z in w.heap
    requires forall r :: r in zs ==> r in w.zones || r == z
    ensures forall r :: r in w.heap && r != z && r in w.zones ==> Cleared(w, z, zs).heap[r] == w.heap[r].(isSelected := false)
    ensures forall r :: r in w.heap && r != z && r !in w.zones ==> Cleared(w, z, zs).heap[r] == w.heap[r]
    ensures Cleared(w, z, zs).heap[z] == w.heap[z].(isSelected := true)
    ensures Cleared(w, z, zs).view.prims == w.view.prims && Cleared(w, z, zs).view.bearing == w.view.bearing
    ensures Cleared(w, z, zs).view.live == w.view.live - OwnedAll(w.heap, w.zones)
  {
    ClearPassHeap(w, w.zones);
    ClearPassLive(w, w.zones);
  }

  lemma SweepSelects(w: World, g: Sphere, z: ZoneRef, zs: seq<ZoneRef>)
    requires Wf(w) && z in w.heap
    requires forall r :: r in zs ==> r in w.zones || r == z
    ensures SweptSelection(Sweep(w, g, z, zs), z)
  {
    var w2 := Cleared(w, z, zs);
    var w' := Sweep(w, g, z, zs);
    ClearedHeap(w, z, zs);
    forall r | r in zs ensures w'.heap[r].isSelected <==> r == z {
      assert SameState(w'.heap[r], w2.heap[r]);
    }
  }

  lemma SweepFrames(w: World, g: Sphere, z: ZoneRef, zs: seq<ZoneRef>)
    requires Wf(w) && z in w.heap
    requires forall r :: r in zs ==> r in w.zones || r == z
    requires forall r :: r in w.zones ==> r in zs
    ensures SweptFrame(w, Sweep(w, g, z, zs), z)
  {
    var w2 := Cleared(w, z, zs);
    var w' := Sweep(w, g, z, zs);
    ClearedHeap(w, z, zs);
    forall r | r in w.heap
      ensures w'.heap[r].cfg == w.heap[r].cfg && w'.heap[r].location == w.heap[r].location
      ensures w'.heap[r].radius == w.heap[r].radius && w'.heap[r].resizeHeading == w.heap[r].resizeHeading
    {
      if r in zs {
        assert SameState(w'.heap[r], w2.heap[r]);
      }
    }
  }

  lemma SweepDraws(w: World, g: Sphere, z: ZoneRef, zs: seq<ZoneRef>)
    requires Wf(w) && z in w.heap
    requires forall r :: r in zs ==> r in w.zones || r == z
    ensures SweptDrawn(g, w, Sweep(w, g, z, zs), z)
  {
    ClearedHeap(w, z, zs);
    RedrawPassRenders(Cleared(w, z, zs), g, zs);
  }

  lemma SweepMaps(w: World, g: Sphere, z: ZoneRef, zs: seq<ZoneRef>)
    requires Wf(w) && z in w.heap
    requires forall r :: r in zs ==> r in w.zones || r == z
    ensures SweptMap(w, Sweep(w, g, z, zs))
  {
    ClearedHeap(w, z, zs);
  }

  lemma SweepTags(w: World, g: Sphere, z: ZoneRef, zs: seq<ZoneRef>)
    requires Wf(w) && z in w.heap
    requires forall r :: r in zs ==> r in w.zones || r == z
    ensures SweptTags(w, Sweep(w, g, z, zs))
  {
    var w2 := Cleared(w, z, zs);
    ClearedHeap(w, z, zs);
    RedrawPassTags(w2, g, zs);
  }

  /** `showOnMap`: deselect and clear every registered zone, select this one,
      append it at the end, and draw every registered zone again. */
  function ShowOnMap(w: World, g: Sphere, z: ZoneRef): (w': World)
    requires Wf(w) && z in w.heap
    ensures Wf(w') && w'.heap.Keys == w.heap.Keys
    ensures w'.zones == w.zones + [z]
    ensures w'.fired == w.fired
    ensures Swept(g, w, w', z)
  {
    var zs := w.zones + [z];
    SweepSelects(w, g, z, zs);
    SweepFrames(w, g, z, zs);
    SweepDraws(w, g, z, zs);
    SweepMaps(w, g, z, zs);
    SweepTags(w, g, z, zs);
    Sweep(w, g, z, zs)
  }

  /** `setSelected`: the same sweep for a zone, without changing the list.
      A zone that is not registered is marked selected but is not drawn. */
  function SetSelected(w: World, g: Sphere, z: ZoneRef): (w': World)
    requires Wf(w) && z in w.heap
    ensures Wf(w') && w'.heap.Keys == w.heap.Keys
    ensures w'.zones == w.zones
    ensures w'.heap[z].isSelected
    ensures w'.fired == w.fired
    ensures Swept(g, w, w', z)
  {
    SweepSelects(w, g, z, w.zones);
    SweepFrames(w, g, z, w.zones);
    SweepDraws(w, g, z, w.zones);
    SweepMaps(w, g, z, w.zones);
    SweepTags(w, g, z, w.zones);
    ClearedHeap(w, z, w.zones);
    Sweep(w, g, z, w.zones)
  }

  /** `remove(zone)`: remove the zone's four primitives and its first list
      entry. Nothing else changes; in particular no other zone is selected
      in its place. */
  function Remove(w: World, z: ZoneRef): (w': World)
    requires Wf(w) && z in w.heap
    ensures Wf(w')
    ensures w'.zones == RemoveFirst(w.zones, z)
    ensures w'.heap == w.heap
    ensures w'.view.live == w.view.live - Owned(w.heap[z])
    ensures w'.view.prims == w.view.prims && w'.view.bearing == w.view.bearing
    ensures w'.fired == w.fired
  {
    var z0 := w.heap[z];
    var v := Undraw(Undraw(Undraw(Undraw(w.view, z0, CenterRole), z0, CircleRole), z0, ResizeRole), z0, CloseRole);
    w.(view := v, zones := RemoveFirst(w.zones, z))
  }
}
