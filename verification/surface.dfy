/** The map as the zones see it: a camera bearing and the primitives
    (markers and circles) that have been added to it.

    Every `addMarker`/`addCircle` call appends a record to `prims`, and the
    primitive's id is its index there, so ids are never reused. `live` holds
    the ids still shown; `remove()` deletes an id from it, and removing an id
    that is already gone does nothing. The zones never clear their
    references after `remove()`, so a zone may keep the id of a primitive
    that is no longer live. */
module Surface {
  import opened Base
  import opened Geo

  type PrimId = nat

  /** Identity of a zone object (Kotlin reference identity). */
  type ZoneRef = nat

  /** Which of a zone's four primitive fields a primitive was created for. */
  datatype Role = CenterRole | CircleRole | ResizeRole | CloseRole

  /** What was handed to the map when the primitive was added. */
  datatype Shape =
    | MarkerShape(position: LatLng, title: string, draggable: bool, visible: bool)
    | CircleShape(center: LatLng, radius: real, strokeColor: int, fillColor: int, strokeWidth: real)

  /** A primitive, tagged with the zone whose add call created it and the
      field that call stored it in. The tag is bookkeeping of the model; the
      map itself only sees the shape. */
  datatype Prim = Prim(owner: ZoneRef, role: Role, shape: Shape)

  datatype MapView = MapView(bearing: real, prims: seq<Prim>, live: set<PrimId>)

  /** Only primitives that were added can be live. */
  predicate ValidView(v: MapView) {
    forall id :: id in v.live ==> id < |v.prims|
  }

  /** `map.addMarker`/`map.addCircle`: the new primitive gets the next id and
      is live. */
  function Add(v: MapView, p: Prim): MapView {
    v.(prims := v.prims + [p], live := v.live + {|v.prims|})
  }

  /** `ref?.remove()`: a null reference or an id that is already gone leaves
      the map as it is. */
  function Erase(v: MapView, ref: Option<PrimId>): MapView {
    match ref
    case None => v
    case Some(id) => v.(live := v.live - {id})
  }

  /** The map moves a marker while it is being dragged. */
  function MoveMarker(v: MapView, id: PrimId, pos: LatLng): MapView
    requires id < |v.prims| && v.prims[id].shape.MarkerShape?
  {
    v.(prims := v.prims[id := v.prims[id].(shape := v.prims[id].shape.(position := pos))])
  }

  /** The id denotes a marker that was added to the map. */
  predicate IsMarker(v: MapView, id: PrimId) {
    id < |v.prims| && v.prims[id].shape.MarkerShape?
  }
}
