/** One zone: its configuration, its mutable state, the four primitives it
    keeps references to, and the `add*` procedures that draw them. Also the
    process-wide state (`World`) all zone operations act on, and the
    first-match lookups over the registered zones. */
module Zones {
  import opened Base
  import opened Geo
  import opened Surface

  /** The constants of the zone's companion object. */
  const DefaultResizeMarkerHeading: real := 135.0
  const OverlapBandStart: real := 0.0
  const OverlapBandEnd: real := 30.0
  const ResizeMarkerTitleSuffix: string := "_resize"
  const CloseMarkerTitleSuffix: string := "_close"
  const MinimumRadius: real := 5.0
  const CloseMarkerHeading: real := 45.0

  /** The immutable part of a zone, fixed when it is built. A listener is
      recorded only as present or absent: what it does is the caller's. */
  datatype Config = Config(
    title: string,
    borderColor: int,
    borderWidth: real,
    fillColor: int,
    borderColorInactive: int,
    fillColorInactive: int,
    hasOnClose: bool,
    hasOnResizeComplete: bool,
    hasOnDragComplete: bool)

  /** The builder's defaults. `0xAAFF0000.toInt()` wraps to a negative
      32-bit colour. */
  const DefaultTitle: string := "No title"
  const DefaultLocation: LatLng := LatLng(-33.865143, 151.209900)
  const DefaultRadius: real := 35.0
  const DefaultConfig: Config := Config(
    DefaultTitle, 0xAAFF0000 - 0x1_0000_0000, 4.0, 0x44FF0000, 0x00000000, 0x11FF0000,
    false, false, false)

  /** A zone object: configuration, mutable state, and its references to
      the center marker, the circle, the resize marker and the close marker. */
  datatype ZoneRec = ZoneRec(
    cfg: Config,
    location: LatLng,
    radius: real,
    resizeHeading: real,
    isSelected: bool,
    marker: Option<PrimId>,
    circle: Option<PrimId>,
    markerResize: Option<PrimId>,
    markerClose: Option<PrimId>)
  {
    /** The reference field for a role. */
    function Field(role: Role): Option<PrimId> {
      match role
      case CenterRole => marker
      case CircleRole => circle
      case ResizeRole => markerResize
      case CloseRole => markerClose
    }

    /** The zone with the reference field for `role` replaced. */
    function WithField(role: Role, ref: Option<PrimId>): (z: ZoneRec)
      ensures z.Field(role) == ref
      ensures forall other :: other != role ==> z.Field(other) == Field(other)
      ensures z.cfg == cfg && z.location == location && z.radius == radius
      ensures z.resizeHeading == resizeHeading && z.isSelected == isSelected
    {
      match role
      case CenterRole => this.(marker := ref)
      case CircleRole => this.(circle := ref)
      case ResizeRole => this.(markerResize := ref)
      case CloseRole => this.(markerClose := ref)
    }
  }

  /** A freshly constructed zone: resize heading 135 degrees, selected, and
      nothing drawn yet. */
  function NewZone(cfg: Config, location: LatLng, radius: real): ZoneRec {
    ZoneRec(cfg, location, radius, DefaultResizeMarkerHeading, true, None, None, None, None)
  }

  /** A user callback that was invoked, with the zone it was invoked on. */
  datatype Callback =
    | CloseFired(zone: ZoneRef)
    | ResizeCompleteFired(zone: ZoneRef)
    | DragCompleteFired(zone: ZoneRef)

  /** The whole state: the registered zones in order (`zones`), every zone
      object built so far (`heap`), the map, and the callbacks fired so far. */
  datatype World = World(
    zones: seq<ZoneRef>,
    heap: map<ZoneRef, ZoneRec>,
    view: MapView,
    fired: seq<Callback>)

  /** Every registered zone is a zone object. */
  predicate Wf(w: World) {
    forall r :: r in w.zones ==> r in w.heap
  }

  // ---------------------------------------------------------------------
  // Drawing one zone

  /** `addMarker`: the draggable center marker, titled with the zone title. */
  function CenterShape(z: ZoneRec): Shape {
    MarkerShape(z.location, z.cfg.title, true, true)
  }

  /** `addCircle`: active colours when selected, inactive colours otherwise. */
  function CircleShapeOf(z: ZoneRec): Shape {
    CircleShape(z.location, z.radius,
      if z.isSelected then z.cfg.borderColor else z.cfg.borderColorInactive,
      if z.isSelected then z.cfg.fillColor else z.cfg.fillColorInactive,
      z.cfg.borderWidth)
  }

  /** `addResizeMarker`: on the circle at the stored heading plus the camera
      bearing; draggable; visible only when selected. */
  function ResizeShape(g: Sphere, bearing: real, z: ZoneRec): Shape {
    MarkerShape(g.computeOffset(z.location, z.radius, z.resizeHeading + bearing),
      z.cfg.title + ResizeMarkerTitleSuffix, true, z.isSelected)
  }

  /** `addCloseMarker`: on the circle at 45 degrees plus the camera bearing;
      not draggable; visible only when selected. */
  function CloseShape(g: Sphere, bearing: real, z: ZoneRec): Shape {
    MarkerShape(g.computeOffset(z.location, z.radius, CloseMarkerHeading + bearing),
      z.cfg.title + CloseMarkerTitleSuffix, false, z.isSelected)
  }

  function ShapeFor(g: Sphere, bearing: real, z: ZoneRec, role: Role): Shape {
    match role
    case CenterRole => CenterShape(z)
    case CircleRole => CircleShapeOf(z)
    case ResizeRole => ResizeShape(g, bearing, z)
    case CloseRole => CloseShape(g, bearing, z)
  }

  /** Primitive `p` is what its role's add call draws for a zone with
      configuration `cfg`: a draggable center marker titled with the zone
      title, a circle, a draggable resize marker titled title + "_resize",
      or a non-draggable close marker titled title + "_close". */
  predicate ShapeFits(p: Prim, cfg: Config) {
    match p.role
    case CenterRole => p.shape.MarkerShape? && p.shape.title == cfg.title && p.shape.draggable
    case CircleRole => p.shape.CircleShape?
    case ResizeRole =>
      p.shape.MarkerShape? && p.shape.title == cfg.title + ResizeMarkerTitleSuffix && p.shape.draggable
    case CloseRole =>
      p.shape.MarkerShape? && p.shape.title == cfg.title + CloseMarkerTitleSuffix && !p.shape.draggable
  }

  /** A zone together with the map it is drawn on. */
  datatype Drawing = Drawing(view: MapView, zone: ZoneRec)

  /** One of `addMarker`, `addCircle`, `addResizeMarker`, `addCloseMarker`
      for zone `r` in state `z`: a new primitive drawn from the zone's
      current fields, stored in the field for `role`. */
  function Draw(v: MapView, g: Sphere, r: ZoneRef, z: ZoneRec, role: Role): (d: Drawing)
    ensures d.view.prims == v.prims + [Prim(r, role, ShapeFor(g, v.bearing, z, role))]
    ensures d.view.live == v.live + {|v.prims|} && d.view.bearing == v.bearing
    ensures ShapeFits(d.view.prims[|v.prims|], z.cfg)
    ensures d.zone.Field(role) == Some(|v.prims|)
    ensures forall other :: other != role ==> d.zone.Field(other) == z.Field(other)
    ensures d.zone.cfg == z.cfg && d.zone.location == z.location && d.zone.radius == z.radius
    ensures d.zone.resizeHeading == z.resizeHeading && d.zone.isSelected == z.isSelected
  {
    Drawing(Add(v, Prim(r, role, ShapeFor(g, v.bearing, z, role))), z.WithField(role, Some(|v.prims|)))
  }

  /** `field?.remove()` on zone `z`'s reference for `role`. */
  function Undraw(v: MapView, z: ZoneRec, role: Role): MapView {
    Erase(v, z.Field(role))
  }

  /** Stores a zone's new state and the map it was drawn on. */
  function Store(w: World, r: ZoneRef, d: Drawing): (w': World)
    requires Wf(w)
    ensures Wf(w')
  {
    w.(view := d.view, heap := w.heap[r := d.zone])
  }

  // ---------------------------------------------------------------------
  // First-match lookups (`zones.find { ... }`)

  /** The two conditions the source looks zones up by. */
  datatype Query = TitleIs(title: string) | Selected

  predicate Matches(z: ZoneRec, q: Query) {
    match q
    case TitleIs(t) => z.cfg.title == t
    case Selected => z.isSelected
  }

  /** Index of the first registered zone at or after `k` that satisfies `q`. */
  function FindFrom(zs: seq<ZoneRef>, heap: map<ZoneRef, ZoneRec>, q: Query, k: nat): (i: Option<nat>)
    requires forall r :: r in zs ==> r in heap
    requires k <= |zs|
    ensures i.Some? ==> k <= i.value < |zs| && Matches(heap[zs[i.value]], q)
    ensures i.Some? ==> forall j :: k <= j < i.value ==> !Matches(heap[zs[j]], q)
    ensures i.None? ==> forall j :: k <= j < |zs| ==> !Matches(heap[zs[j]], q)
    decreases |zs| - k
  {
    if k == |zs| then None
    else if Matches(heap[zs[k]], q) then Some(k)
    else FindFrom(zs, heap, q, k + 1)
  }

  /** `zones.find { q }`: the first registered zone satisfying `q`, by position. */
  function FindIndex(w: World, q: Query): (i: Option<nat>)
    requires Wf(w)
    ensures i.Some? ==> i.value < |w.zones| && Matches(w.heap[w.zones[i.value]], q)
    ensures i.Some? ==> forall j :: 0 <= j < i.value ==> !Matches(w.heap[w.zones[j]], q)
    ensures i.None? ==> forall j :: 0 <= j < |w.zones| ==> !Matches(w.heap[w.zones[j]], q)
  {
    FindFrom(w.zones, w.heap, q, 0)
  }

  /** `zones.find { q }` as the zone reference it returns. */
  function Find(w: World, q: Query): (r: Option<ZoneRef>)
    requires Wf(w)
    ensures r.Some? ==> r.value in w.zones && r.value in w.heap && Matches(w.heap[r.value], q)
    ensures r.Some? ==> forall j :: 0 <= j < IndexOf(w.zones, r.value) ==> !Matches(w.heap[w.zones[j]], q)
    ensures r.None? ==> forall x :: x in w.zones ==> !Matches(w.heap[x], q)
  {
    match FindIndex(w, q)
    case None => None
    case Some(i) =>
      FirstAtMost(w.zones, i);
      Some(w.zones[i])
  }

  /** The first occurrence of an element is no later than any occurrence. */
  lemma FirstAtMost<T>(s: seq<T>, i: nat)
    requires i < |s|
    ensures IndexOf(s, s[i]) <= i
  {
  }
}
