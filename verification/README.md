# Zones on a map: a Dafny model of the `Zone` registry

`Zone.kt` draws editable circular zones on a Google map. Each zone is made
of four map primitives:

- a draggable center marker titled with the zone's title;
- a circle, in active or inactive colours;
- a draggable resize handle titled title + `"_resize"`;
- a close handle titled title + `"_close"`.

A process-wide list `zones` holds the registered zones. Exactly one of
them is meant to be selected, and only the selected one shows its handles.
The companion object reacts to four map events:

- camera move;
- marker click;
- marker drag start, drag and drag end.

Each listener finds the zone a marker belongs to from the marker's title.
It classifies the marker with `contains("_resize")` or `contains("_close")`,
strips the suffix with `removeSuffix`, and takes the first registered zone
with that title.

This project models that registry and its event state machine as pure
functions over an immutable `World`. It proves the invariant the code
relies on: that invariant survives every event.

## How the model is laid out

- `geometry.dfy` (`Geo`): coordinates. The spherical-geometry library
  (`computeOffset`, `computeDistanceBetween`, `computeHeading`) is a
  `Sphere` value of three arbitrary functions, passed to every operation.
- `surface.dfy` (`Surface`): the map.
  - Every added primitive gets the next id, and ids are never reused.
  - `live` holds the ids still shown.
  - `remove()` on a primitive that is already gone does nothing.
  - The zones never null their references, so stale ids are representable.
  - Each primitive is tagged with the zone and field whose add call drew it.
- `zone.dfy` (`Zones`): the zone record and the builder defaults.
  - The four `add*` calls are one `Draw` per role.
  - The `World` is the list `zones`, every zone object built so far
    (`heap`, so that reference identity and duplicate registration are
    representable), the map, and the log of user callbacks fired.
  - `zones.find { … }` is `Find`.
- `registry.dfy` (`Registry`): `showOnMap`, `setSelected(zone)` and
  `remove(zone)`.
  - The first two share the two-loop sweep: clear every zone, select the
    target, draw every zone again.
  - What the sweep leaves is stated component by component in `Swept`.
- `controller.dfy` (`Handlers`): the companion's listeners and helpers:
  - `updateMarkers` and `checkResizeMarkerHeadingOverlap`;
  - the two completion-listener dispatchers;
  - the per-zone redraws they perform (`Deactivate`, `RefreshHandles`,
    `ResizeTo`, `MoveTo`, `Snap`).
- `invariant.dfy` (`Invariant`): the invariant `Consistent`, and its
  preservation by building, `showOnMap`, `setSelected`, `remove` and camera
  moves. `Consistent` says:
  - the list holds each zone once;
  - at most one registered zone is selected;
  - every registered zone is drawn, with handles when selected;
  - every reference names a primitive its own add call drew for that field;
  - the live primitives are exactly those the registered zones reference,
    with handles only for the selected zone;
  - registered titles are distinct and free of the two handle suffixes.
- `session.dfy` (`Session`): the listeners under the invariant.
  - How a marker on the map resolves to its zone.
  - What a click on each kind of marker does.
  - The invariant across a whole drag gesture, and across any sequence of
    events (`RunConsistent`).
  - Lemmas that show what the title-based dispatch does outside the
    invariant.
- `placement.dfy` (`Placement`): where the primitives are. `Placed` says
  every live center marker, circle and close marker is exactly what its
  zone's add call draws from the zone's current fields at the current
  bearing. Every event keeps it (`RunPlaced`). The resize marker is left
  out of `Placed` on purpose: after a resize drag it stays where the user
  dropped it (`ResizeHandleStaysAtDrop`, `ClampedResizeLeavesHandleBehind`).

## Behaviours of `Zone.kt` worth knowing

- A click on a resize handle selects nothing (Zone.kt:199-211). Its title
  contains `_resize` but not `_close`, and the final lookup by the full
  title finds no zone.
- The anti-overlap band is the closed interval [0, 30] (Zone.kt:176, 313).
  The difference is a plain absolute value, not wrapped at 360 degrees
  (Zone.kt:312). The snapped heading is the close heading + 15
  (Zone.kt:314), which is still inside the band (`SnapStaysInBand`).
- A close click on a zone without a close listener removes the zone
  (Zone.kt:205-207). Control then falls through to the lookup by the full
  title (Zone.kt:210-211); with clean titles that lookup finds nothing.
- The marker kind is decided with `contains`, and the suffix is stripped
  with `removeSuffix` (Zone.kt:199-200, 271-273).
  - A title ending in `_close` is a close handle of the zone titled like
    its prefix, whichever zone drew it (`CloseSuffixClosesByTitle`).
  - A title containing `_close` elsewhere also counts as a close handle, of
    its own zone, so a click on such a center marker removes its zone
    (`CloseInsideTitleRemovesZone`).
  - A title containing `_resize` elsewhere makes a center drag resize the
    zone instead of moving it (`ResizeInsideTitleResizes`).
- `showOnMap` does not check whether the zone is already registered
  (Zone.kt:91, `ShowTwiceListsTwice`).
- Lookups take the first zone with the title (Zone.kt:236). With two zones
  sharing a title, a resize drag start on the second one's handle leaves
  both selected (`SharedTitleSelectsTwo`).
- A resize drag redraws the circle and the close marker but not the resize
  marker, which only gets a rotation (Zone.kt:284-288). So the resize
  marker stays where it was dropped, even when the radius was clamped to
  5 metres (`ClampedResizeLeavesHandleBehind`).

The theorem `RunConsistent` therefore assumes an environment that never
does any of the following (the predicate `Enabled`):

- shows a zone twice;
- shows a zone whose title contains a handle suffix or is already taken;
- delivers an event for a marker that is not on the map.

## Model

| member | source | states |
|---|---|---|
| `Base.RemoveFirst` | Zone/src/main/java/com/alexaat/zone/Zone.kt:266 | `zones.remove(zone)` drops exactly one occurrence, the first: the list is one shorter, its multiset loses one copy of the zone, the entries before the first occurrence keep their places and the later ones move up by one; a zone not in the list leaves it unchanged |
| `Geo.Abs` | Zone/src/main/java/com/alexaat/zone/Zone.kt:312 | `Math.abs` is non-negative and equals the argument or its negation |
| `Zones.Draw` | Zone/src/main/java/com/alexaat/zone/Zone.kt:109-163 | each add call appends exactly one live primitive, tagged with the zone and field and shaped from the zone at the current bearing (a draggable center marker with the zone title, a circle, a draggable `_resize` marker, a non-draggable `_close` marker), and points exactly that field at it; every other field and the zone state stay |
| `Zones.FindIndex` | Zone/src/main/java/com/alexaat/zone/Zone.kt:186 | `zones.find` returns the first registered zone satisfying the condition: it satisfies it, every earlier zone does not, and None means no zone does |
| `Zones.Find` | Zone/src/main/java/com/alexaat/zone/Zone.kt:186 | `zones.find` gives a registered zone that matches and no earlier listed zone matches; None means no registered zone matches |
| `Registry.Clear` | Zone/src/main/java/com/alexaat/zone/Zone.kt:84-88 | the first loop body deselects the zone and removes its four primitives from the live set, nothing else on the map changes |
| `Registry.ClearPassHeap` | Zone/src/main/java/com/alexaat/zone/Zone.kt:83-89 | the clearing loop deselects exactly the listed zones and keeps their references |
| `Registry.ClearPassLive` | Zone/src/main/java/com/alexaat/zone/Zone.kt:83-89 | the clearing loop removes exactly the primitives the listed zones reference, whether live or stale |
| `Registry.Redraw` | Zone/src/main/java/com/alexaat/zone/Zone.kt:92-99 | the drawing loop body draws a fresh center marker and circle, and fresh handles only when the zone is selected, all live and shaped from its current fields; nothing is removed |
| `Registry.RedrawPassRenders` | Zone/src/main/java/com/alexaat/zone/Zone.kt:92-99 | after the drawing loop every listed zone is fully drawn from its own fields with references fresher than the map before the loop |
| `Registry.RedrawPassTags` | Zone/src/main/java/com/alexaat/zone/Zone.kt:92-99 | every primitive the drawing loop adds belongs to a listed zone, is what its add call draws, is a handle only of a selected zone, and is still referenced when no zone is listed twice |
| `Registry.Construct` | Zone/src/main/java/com/alexaat/zone/Zone.kt:13-34 | a new zone object has the given configuration, location and radius, the default resize heading 135, is selected, references no primitive, and is not registered; every other zone object, the list, the map and the callbacks are unchanged |
| `Registry.SweepSelects` | Zone/src/main/java/com/alexaat/zone/Zone.kt:332-339 | after the sweep exactly the target is selected among the listed zones |
| `Registry.SweepDraws` | Zone/src/main/java/com/alexaat/zone/Zone.kt:340-347 | after the sweep every listed zone has a fresh center marker and circle in the colours its selection calls for; only the target gets fresh handles |
| `Registry.SweepMaps` | Zone/src/main/java/com/alexaat/zone/Zone.kt:332-347 | after the sweep the live set is the old one minus every primitive a previously registered zone referenced, plus the new ones |
| `Registry.SweepFrames` | Zone/src/main/java/com/alexaat/zone/Zone.kt:332-347 | the sweep changes no location, radius, heading or configuration, and leaves unlisted zones other than the target untouched |
| `Registry.ShowOnMap` | Zone/src/main/java/com/alexaat/zone/Zone.kt:82-100 | `showOnMap` appends the zone at the end of the list, keeping the order of the rest, and leaves the map as the sweep describes, with the zone the only one selected |
| `Registry.SetSelected` | Zone/src/main/java/com/alexaat/zone/Zone.kt:329-349 | `setSelected` keeps the list, selects the zone, and leaves the map as the sweep describes |
| `Registry.Remove` | Zone/src/main/java/com/alexaat/zone/Zone.kt:260-267 | `remove(zone)` removes exactly the zone's four primitives and its first list entry; no zone object changes and no other zone is selected in its place |
| `Handlers.Deactivate` | Zone/src/main/java/com/alexaat/zone/Zone.kt:223-229 | the drag-start deselection removes the circle and both handles and draws the circle again in the inactive colours, one primitive added |
| `Handlers.RefreshHandles` | Zone/src/main/java/com/alexaat/zone/Zone.kt:188-193 | the camera redraw removes both handles and adds them again at 45 degrees and at the stored heading, both plus the bearing, changing only the two handle references |
| `Handlers.ClampRadius` | Zone/src/main/java/com/alexaat/zone/Zone.kt:274-276 | the radius is the distance when at least 5 and 5 otherwise |
| `Handlers.ResizeTo` | Zone/src/main/java/com/alexaat/zone/Zone.kt:273-290 | a resize update sets radius = max(distance, 5) and heading = heading to the marker minus the bearing, keeps the location, and redraws only the circle and close marker |
| `Handlers.MoveTo` | Zone/src/main/java/com/alexaat/zone/Zone.kt:292-300 | a center drag update moves the zone to the marker position, keeps radius and heading, and redraws circle, resize and close markers there |
| `Handlers.Snap` | Zone/src/main/java/com/alexaat/zone/Zone.kt:310-321 | when the headings differ by a value in [0, 30] the resize heading becomes close heading + 15 minus the bearing and only the resize marker is redrawn; otherwise nothing changes |
| `Handlers.SnapStaysInBand` | Zone/src/main/java/com/alexaat/zone/Zone.kt:313-314 | the snapped heading is itself inside the overlap band |
| `Handlers.DragTarget` | Zone/src/main/java/com/alexaat/zone/Zone.kt:271 | the drag helpers act on the first registered zone whose title is the marker title with `_resize` stripped: no earlier zone has that title, and None means no registered zone has it |
| `Handlers.UpdateMarkers` | Zone/src/main/java/com/alexaat/zone/Zone.kt:269-304 | only the found zone changes. For a title containing `_resize` its radius becomes max(distance, 5), its heading the heading to the marker minus the bearing, and a fresh circle and close marker are drawn from those fields while the old ones are removed. Otherwise it moves to the marker and a fresh circle, resize and close marker replace the old ones. Nothing happens when no zone is found |
| `Handlers.CheckResizeMarkerHeadingOverlap` | Zone/src/main/java/com/alexaat/zone/Zone.kt:305-328 | for a resize marker whose zone is found, the anti-overlap rule applies to that zone alone; any other marker changes nothing |
| `Handlers.CloseMarkerPresentAtOverlapCheck` | Zone/src/main/java/com/alexaat/zone/Zone.kt:248-249 | at drag end the resize branch of `updateMarkers` has just drawn the close marker, so the close-marker position the overlap check reads exists |
| `Handlers.ExecuteOnResizeCompleteListener` | Zone/src/main/java/com/alexaat/zone/Zone.kt:350-357 | the resize-complete callback fires, once and for the found zone, exactly when the title contains `_resize` and the zone is found and has the listener |
| `Handlers.ExecuteOnDragCompleteListener` | Zone/src/main/java/com/alexaat/zone/Zone.kt:358-365 | the drag-complete callback fires, once and for the found zone, exactly when the title contains neither suffix and the zone is found and has the listener |
| `Handlers.OnCameraMove` | Zone/src/main/java/com/alexaat/zone/Zone.kt:185-195 | a camera move redraws the handles of the first selected zone only, at the new bearing; no other zone, no radius and no location changes |
| `Handlers.CloseTarget` | Zone/src/main/java/com/alexaat/zone/Zone.kt:199-200 | a click closes a zone only for a title containing `_close`: the first registered zone whose title is the marker title with `_close` stripped; None means the title has no `_close` or no registered zone has the stripped title |
| `Handlers.OnMarkerClick` | Zone/src/main/java/com/alexaat/zone/Zone.kt:197-216 | a close click on a zone with a close listener only fires it; otherwise the zone is removed, and then the zone titled like the marker, if any, is selected with the full redraw sweep of `setSelected` |
| `Handlers.DeselectForDrag` | Zone/src/main/java/com/alexaat/zone/Zone.kt:221-230 | unless the title contains `_resize`, the first selected zone is deactivated and nothing else changes |
| `Handlers.MarkDragged` | Zone/src/main/java/com/alexaat/zone/Zone.kt:236-237 | the marker's zone is marked selected and nothing else changes, nothing is drawn |
| `Handlers.OnMarkerDragStart` | Zone/src/main/java/com/alexaat/zone/Zone.kt:218-241 | drag start keeps the list, the callbacks and the marker's title |
| `Handlers.DragStartSelects` | Zone/src/main/java/com/alexaat/zone/Zone.kt:219-239 | drag start selects the marker's zone and, unless the title contains `_resize`, deselects the first selected zone; no other flag changes |
| `Handlers.OnMarkerDrag` | Zone/src/main/java/com/alexaat/zone/Zone.kt:243-245 | a drag puts the marker at the new position and the found zone follows it: a resize title keeps the location and sets radius and heading from the position, any other title moves the zone there; other zones and every selection flag stay; with no zone found no zone changes |
| `Handlers.OnMarkerDragEnd` | Zone/src/main/java/com/alexaat/zone/Zone.kt:247-252 | drag end keeps the list and every selection flag |
| `Handlers.DragEndFiresAtMostOne` | Zone/src/main/java/com/alexaat/zone/Zone.kt:247-252 | drag end appends at most one callback, never the close one: resize-complete only for a `_resize` title, drag-complete only for a title with neither suffix |
| `Invariant.DeactivateRedraws` | Zone/src/main/java/com/alexaat/zone/Zone.kt:224-228 | the deselection removes the circle and both handles and draws only a circle for its zone |
| `Invariant.RefreshHandlesRedraws` | Zone/src/main/java/com/alexaat/zone/Zone.kt:189-192 | the camera redraw replaces exactly the two handle references with primitives drawn for them |
| `Invariant.ResizeToRedraws` | Zone/src/main/java/com/alexaat/zone/Zone.kt:284-287 | the resize update replaces exactly the circle and close references |
| `Invariant.MoveToRedraws` | Zone/src/main/java/com/alexaat/zone/Zone.kt:293-299 | the center update replaces exactly the circle, resize and close references |
| `Invariant.SnapRedraws` | Zone/src/main/java/com/alexaat/zone/Zone.kt:316-318 | the snap replaces exactly the resize reference |
| `Invariant.ConstructConsistent` | Zone/src/main/java/com/alexaat/zone/Zone.kt:64-79 | building a zone object keeps the invariant |
| `Invariant.ShowOnMapConsistent` | Zone/src/main/java/com/alexaat/zone/Zone.kt:82-100 | showing an unregistered zone with a clean, untaken title keeps the invariant, in particular at most one selected zone |
| `Invariant.SetSelectedConsistent` | Zone/src/main/java/com/alexaat/zone/Zone.kt:329-349 | selecting any zone keeps the invariant |
| `Invariant.RemoveConsistent` | Zone/src/main/java/com/alexaat/zone/Zone.kt:260-267 | removing a zone keeps the invariant: nothing it drew stays on the map |
| `Invariant.CameraConsistent` | Zone/src/main/java/com/alexaat/zone/Zone.kt:185-195 | a camera move keeps the invariant |
| `Session.MarkerResolves` | Zone/src/main/java/com/alexaat/zone/Zone.kt:271-273 | under the invariant a marker on the map is classified by its title exactly as its field, and the title lookups find the zone that drew it |
| `Session.ClickDispatch` | Zone/src/main/java/com/alexaat/zone/Zone.kt:197-216 | under the invariant a center click is `setSelected` of its zone, a resize click does nothing, and a close click fires the close listener or removes the zone |
| `Session.ClickConsistent` | Zone/src/main/java/com/alexaat/zone/Zone.kt:197-216 | every click on a marker on the map keeps the invariant |
| `Session.DeselectConsistent` | Zone/src/main/java/com/alexaat/zone/Zone.kt:221-230 | the drag-start deselection keeps the invariant and leaves no zone selected |
| `Session.GrabConsistent` | Zone/src/main/java/com/alexaat/zone/Zone.kt:236-239 | once nothing is selected, marking the dragged zone selected and moving it gives a consistent state with that zone selected |
| `Session.DragStartConsistent` | Zone/src/main/java/com/alexaat/zone/Zone.kt:218-241 | drag start on a draggable marker keeps the invariant and leaves the marker's zone the selected one |
| `Session.FollowConsistent` | Zone/src/main/java/com/alexaat/zone/Zone.kt:269-304 | `updateMarkers` during a drag keeps the invariant and does not touch the dragged marker |
| `Session.DragConsistent` | Zone/src/main/java/com/alexaat/zone/Zone.kt:243-245 | a drag keeps the invariant and the drag |
| `Session.DragEndConsistent` | Zone/src/main/java/com/alexaat/zone/Zone.kt:247-252 | drag end keeps the invariant, with or without a snap |
| `Session.DragAlongConsistent` | Zone/src/main/java/com/alexaat/zone/Zone.kt:243-245 | any number of drags keeps the invariant and the drag |
| `Session.GestureConsistent` | Zone/src/main/java/com/alexaat/zone/Zone.kt:218-252 | a whole drag gesture keeps the invariant |
| `Session.Step` | Zone/src/main/java/com/alexaat/zone/Zone.kt:82-107 | showing appends the zone to the list, removing drops its first entry, building, selecting, camera moves and drags keep the list |
| `Session.StepConsistent` | Zone/src/main/java/com/alexaat/zone/Zone.kt:183-258 | every event keeps the invariant |
| `Session.RunConsistent` | Zone/src/main/java/com/alexaat/zone/Zone.kt:182 | every sequence of events from a consistent state, such as the empty one, keeps the invariant, so at most one zone is ever selected and no primitive is orphaned |
| `Session.CloseSuffixClosesByTitle` | Zone/src/main/java/com/alexaat/zone/Zone.kt:199-207 | a click on any marker titled t + `_close` closes the first zone titled t, removing it when it has no close listener, whichever zone drew the marker |
| `Session.ShowTwiceListsTwice` | Zone/src/main/java/com/alexaat/zone/Zone.kt:91 | showing a registered zone again lists it twice, which breaks the invariant |
| `Session.SharedTitleSelectsTwo` | Zone/src/main/java/com/alexaat/zone/Zone.kt:236-237 | with zones a and b sharing title t, a listed first and b selected, a drag start on a marker titled t + `_resize` leaves both selected |
| `Session.CloseInsideTitleRemovesZone` | Zone/src/main/java/com/alexaat/zone/Zone.kt:199-207 | a click on a marker whose title contains `_close` without ending in it removes the zone with that full title when it has no close listener |
| `Session.ResizeInsideTitleResizes` | Zone/src/main/java/com/alexaat/zone/Zone.kt:271-291 | a drag of a marker whose title contains `_resize` without ending in it resizes the zone with that full title: location kept, radius from the distance |
| `Session.InsideTitles` | Zone/src/main/java/com/alexaat/zone/Zone.kt:199 | titles such as `a_close_b` and `a_resize_b` contain a handle suffix without ending in it |
| `Placement.StorePlaced` | Zone/src/main/java/com/alexaat/zone/Zone.kt:109-163 | redrawing some of a zone's fields keeps every primitive in place when the new primitives are drawn from the zone's final fields and the kept ones still look the same |
| `Placement.SweptPlaced` | Zone/src/main/java/com/alexaat/zone/Zone.kt:82-100 | after the sweep of `showOnMap` or `setSelected` every live center marker, circle and close marker is drawn from its zone's current fields |
| `Placement.TurnedPlaced` | Zone/src/main/java/com/alexaat/zone/Zone.kt:185-186 | after the camera turns only the selected zone's close marker is out of place |
| `Placement.CameraPlaced` | Zone/src/main/java/com/alexaat/zone/Zone.kt:185-195 | a camera move leaves everything in place, since the close marker is drawn again at the new bearing |
| `Placement.ClickPlaced` | Zone/src/main/java/com/alexaat/zone/Zone.kt:197-216 | a click on a marker on the map leaves everything in place |
| `Placement.FollowIsStore` | Zone/src/main/java/com/alexaat/zone/Zone.kt:269-304 | `updateMarkers` during a drag is the resize or the move redraw of the marker's zone |
| `Placement.ResizePlaced` | Zone/src/main/java/com/alexaat/zone/Zone.kt:273-290 | the resize branch leaves everything but the dragged resize marker in place |
| `Placement.MovePlaced` | Zone/src/main/java/com/alexaat/zone/Zone.kt:292-300 | moving a zone to its grabbed center marker puts everything in place, the marker included |
| `Placement.FollowPlaced` | Zone/src/main/java/com/alexaat/zone/Zone.kt:269-304 | `updateMarkers` during a drag puts everything in place |
| `Placement.DragPlaced` | Zone/src/main/java/com/alexaat/zone/Zone.kt:243-245 | a drag event leaves everything in place |
| `Placement.DragStartPlaced` | Zone/src/main/java/com/alexaat/zone/Zone.kt:218-241 | drag start leaves everything in place |
| `Placement.GrabPlaced` | Zone/src/main/java/com/alexaat/zone/Zone.kt:236-239 | selecting and moving the grabbed zone puts the center marker back in place |
| `Placement.CheckPlaced` | Zone/src/main/java/com/alexaat/zone/Zone.kt:305-328 | the anti-overlap rule at drag end leaves everything in place |
| `Placement.DragEndPlaced` | Zone/src/main/java/com/alexaat/zone/Zone.kt:247-252 | drag end leaves everything in place |
| `Placement.StepPlaced` | Zone/src/main/java/com/alexaat/zone/Zone.kt:183-258 | every event leaves everything in place |
| `Placement.RunPlaced` | Zone/src/main/java/com/alexaat/zone/Zone.kt:182 | every sequence of events from a consistent state with everything in place keeps every live center marker, circle and close marker where its zone's fields put it |
| `Placement.ResizeHandleStaysAtDrop` | Zone/src/main/java/com/alexaat/zone/Zone.kt:284-288 | after a resize drag the resize marker stays live and referenced at the drop position |
| `Placement.ClampedResizeLeavesHandleBehind` | Zone/src/main/java/com/alexaat/zone/Zone.kt:274-288 | in a flat geometry a resize drop 1 metre out clamps the radius to 5 metres, so the fields place the resize marker 5 metres out while it stays 1 metre out |

## Left out

- The spherical geometry is not modelled. `computeOffset`, `computeDistanceBetween` and `computeHeading` are arbitrary functions passed in as a `Sphere`, so no property depends on great-circle arithmetic.
- `Double`/`Float` are modelled as mathematical reals. There is no rounding, and `borderWidth` is a real.
- The handle rotation (`heading - 135` as `Float`) is not modelled. It has no effect on any decision.
- Icons, anchors and the bitmap generation in `bitmapDescriptorFromVector` are not modelled: they are platform drawing.
- `showInfoWindow` is not modelled: it has no effect on the state.
- `Context`, `GoogleMap` and listener registration in `init`/`setListeners` are not modelled. The listeners are functions of the state, and the map is the `MapView`.
- The `Builder` is only its default values (`DefaultConfig`, `DefaultLocation`, `DefaultRadius`). Building is `Construct` with a fresh reference.
- User callbacks are not run. An invoked listener is recorded as a `Callback` entry naming its zone; a listener is only present or absent.
- Null markers delivered to a listener are not modelled. Every listener does nothing for them. A marker is an id the map hands over, and each drag event first moves that marker (`Moved`), as the map does.
- `Handlers.CheckResizeMarkerHeadingOverlap`: when the zone has no close marker at all, the source would fail on a null position. The model treats the case as no overlap. `Handlers.CloseMarkerPresentAtOverlapCheck` proves the case cannot arise on the path the drag-end listener takes.
- `Handlers.OnMarkerDragStart`: its own contract only frames the list, the callbacks and the marker. Its effect on selection is stated by `Handlers.DragStartSelects`, and on the invariant by `Session.DragStartConsistent`.
- `Handlers.OnMarkerDragEnd`: its own contract only frames the list and the selection flags. Its callbacks are stated by `Handlers.DragEndFiresAtMostOne`, and its invariant by `Session.DragEndConsistent`.
- `Session.RunConsistent`: it covers only enabled events. These exclude showing a zone twice, clashing or suffixed titles, and events for markers not on the map, which the source does not guard against. What happens then is shown by `Session.ShowTwiceListsTwice`, `Session.SharedTitleSelectsTwo`, `Session.CloseSuffixClosesByTitle`, `Session.CloseInsideTitleRemovesZone` and `Session.ResizeInsideTitleResizes`.
- `Session.RunConsistent`: a drag gesture (start, moves, end) is one atomic event. The model does not let a camera move, a click or an API call such as `setSelected` or `remove` run between the drag callbacks of one gesture, so it promises nothing about such interleavings.
- `Invariant.Consistent`: it says which primitives are live and which fields reference them, not where they are. Their shapes are covered separately by `Placement.Placed`, which leaves out the resize marker because a resize drag leaves it at the drop point.
- Concurrency is not modelled: the map delivers events one at a time on the main thread.
