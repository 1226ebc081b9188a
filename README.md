# Driving scenario export and two-point placement, in Dafny

This project models two parts of the Blender add-on "Driving Scenario Creator":

* **The export** (`export_openscenario` in `export.py`). It turns the objects of
  the 'OpenDRIVE' collection into an OpenDRIVE road network. There are three passes:
  * **Roads with their links.** Each road object becomes a road with a line or
    arc plan view, and with predecessor and successor links that carry an
    element type and a contact point.
  * **Road-to-road lane links.** Each road's lanes are linked with those of
    every road its links resolve to.
  * **Four-way junctions.** The four incoming roads are looked up slot by slot
    (right, up, left, down). Six connecting roads are numbered from
    `1000 + 6n` and linked pairwise.

  The export then builds an OpenSCENARIO scenario from the cars of the
  'OpenSCENARIO' collection. The scenario refers to the network file. The two
  lookups `get_element_type_by_id` and `get_road_by_id` are modelled with it.
* **The interactive placement operator** (`DSC_OT_two_point_base` in
  `addon/modal_two_point_base.py`). It is a state machine (INIT → SELECT_START
  → SELECT_END) driven by editor events. The user picks a start point and an
  end point, snapping to existing objects and to the grid. A stencil object
  follows the pointer. A left release creates the object and asks for links
  at the snapped ends. A right release steps back or exits, and ESC exits.

Module layout:

* Shared pieces:
  * `wrappers.dfy`: `Option` and `Result`.
  * `text.dfy`: substring containment, standing for Python's `in` on strings.
  * `seqs.dfy`: `Filter`.
* The export:
  * `export_model.dfy`: scene objects, roads and links, and the two lookups.
  * `export_network.dfy`: the road pass, the lane-link pass and the junction loop.
  * `export_scenario.dfy`: the OpenSCENARIO part.
  * `export_openscenario.dfy`: the whole export, the `break` on a non-four-way
    junction, and a worked two-road example.
  * `export_findings.dfy`: the code as written at two places where it reads a
    stale local (see Findings).
* The placement operator:
  * `placement.dfy`: the operator's session as a value, and one `modal` call as
    the function `Step`, with its properties.
  * `placement_operator.dfy`: the operator as a class. Its fields are updated
    in place, and a shared `Scene` holds the 3D cursor, the stencil object and
    a log of created objects and link requests. Each method is proved to
    leave the state that the matching function of `placement.dfy` describes.

The external libraries (`scenariogeneration`'s `xodr` and `xosc`, Blender's
`bpy`) are not modelled. The model records what is passed to them: the roads
and their links, the `create_lane_links` calls, the junctions, the scenario
entities and actions, the objects created and the links requested. The
operator's geometric callbacks are parameters. These are
`calculate_heading_end` and the subclass's `get_mesh_update_params`, bundled as
a `Geometry` value.

## Model

| member | source | states |
|---|---|---|
| ExportModel.ContactPointOf | export.py:224-229 | 'cp_start' maps to start and 'cp_end' to end; every other string maps to no contact point, so the mapping is total (iff in each direction) |
| ExportModel.ElementTypeByIdFirst | export.py:345-351 | the lookup is None exactly when no road or junction object has the id; otherwise it is the kind of the first object, in collection order, that has it |
| ExportModel.RoadNamesWin | export.py:346-349 | an object whose name contains 'road' is reported as a road even when it also contains 'junction' (the road test comes first) |
| ExportModel.FindRoadFirst | export.py:357-361 | `get_road_by_id` finds the first road in list order with the id, and finds nothing exactly when no road has it |
| ExportNetwork.BuildRoads | export.py:192-242 | succeeds exactly when no road object has an unknown geometry; then the roads are the road objects' roads, in collection order, with resolved links; otherwise it reports an object with unknown geometry |
| ExportNetwork.LinkCall | export.py:246-253 | one link yields at most one lane-link call |
| ExportNetwork.RoadCalls | export.py:246-253 | one road yields at most two lane-link calls |
| ExportNetwork.LaneLinkPass | export.py:245-253 | the loop produces exactly the calls `LaneLinkCalls` describes, road by road, predecessor before successor |
| ExportNetwork.RoadCallsBuilt | export.py:246-253 | every call of road i links road i with a built road |
| ExportNetwork.RoadCallsExactly | export.py:246-253 | road i is lane-linked with road b iff one of road i's links resolves to road b |
| ExportNetwork.LaneLinkCallsBuilt | export.py:245-253 | after n roads, every call links one of the first n roads with a built road |
| ExportNetwork.LaneLinkCallsExactly | export.py:245-253 | the whole pass links road i with road b iff one of road i's links resolves to b |
| ExportNetwork.LaneLinkCallsBound | export.py:245-253 | the pass makes at most two calls per road |
| ExportNetwork.NoLaneLinksToJunctions | export.py:222-253 | with unique ids, a link whose element type is junction never produces a lane-link call |
| ExportNetwork.LookupSlots | export.py:268-271 | a successful lookup yields one incoming road per slot name |
| ExportNetwork.LookupSlotsMeaning | export.py:268-271 | the lookup succeeds iff every slot is present and names a road; then incoming road s is the first road with the id in slot s |
| ExportNetwork.FirstMissing | export.py:268-271 | the slots before the returned position are keys of `incoming_roads`, and the one at it, if any, is not |
| ExportNetwork.ResolveSlotsMeaning | export.py:268-271 | with every key present, resolving succeeds iff every slot names a road, and then slot s gets the first road with its id |
| ExportNetwork.ResolveSlotsFailure | export.py:268-271 | with every key present, a failed resolution reports the first slot, in order, whose id names no road |
| ExportNetwork.LookupSlotsFailure | export.py:268-271 | all four subscripts run before any road found is used: when a key is missing, the first missing key is reported even if an earlier slot names no road; with every key present, the first slot whose id names no road is reported |
| ExportNetwork.MissingSlotReportedFirst | export.py:268-271 | `{'cp_right': 99, 'cp_up': 1, 'cp_left': 2, 'cp_other': 3}` with no road 99 reports the missing 'cp_down', not road 99 |
| ExportNetwork.ResolveSlotsInRange | export.py:268-271 | with every key present, every road found is a position in the road list |
| ExportNetwork.LookupSlotsInRange | export.py:268-271 | every incoming road found is a position in the road list |
| ExportNetwork.AttachPoint | export.py:280-291 | a road's contact point at the junction is end iff its successor is the junction (end wins), start iff only its predecessor is, and none iff neither is |
| ExportNetwork.PairsOfFour | export.py:276-277 | the pairs of four incoming roads come in the order (0,1), (0,2), (0,3), (1,2), (1,3), (2,3) |
| ExportNetwork.PairsComplete | export.py:276-277 | (a, b) is a pair of n incoming roads iff a < b < n |
| ExportNetwork.ConnectionsEach | export.py:293-298 | connecting road q joins the two incoming roads of pair q, each at its contact point |
| ExportNetwork.JunctionCallsEach | export.py:296-300 | connecting road q is lane-linked with its predecessor, then its successor, at calls 2q and 2q+1 |
| ExportNetwork.AlongIsConnections | export.py:275-301 | what the nested loops accumulate is exactly `Connections` and `JunctionCalls` |
| ExportNetwork.ConnectRow | export.py:277-301 | the inner loop appends, for row j, one connecting road and two calls for each pair (j, k), k > j, with i counting the connecting roads |
| ExportNetwork.ConnectJunction | export.py:275-301 | the nested loops connect every pair, in order, with i running 0..5 for four incoming roads |
| ExportNetwork.PairsOfFourWithin | export.py:276-277 | there are six pairs of four incoming roads, all in range |
| ExportNetwork.ArityCut | export.py:256-260 | the junction objects before the cut are four-way, and the one at the cut, if any, is not |
| ExportNetwork.JunctionOf | export.py:261-304 | a junction object yields a junction iff its four slots resolve; otherwise the slot lookup's error |
| ExportNetwork.JunctionIncoming | export.py:263-274 | the n-th junction has the object's id and numbering offset 1000+6n; incoming road s is the road in slot s (right, up, left, down) |
| ExportNetwork.JunctionConnecting | export.py:273-301 | the junction has six connecting roads, and road q joins the incoming roads of pair q |
| ExportNetwork.ScanStops | export.py:258-260 | once the loop has failed or hit the `break`, later objects change nothing |
| ExportNetwork.ScanMeaning | export.py:255-309 | the loop keeps the junctions built from the junction objects before the first non-four-way one; it reports the arity error iff there is such an object; the lane-link calls are those of the junctions in order; a failure is the lookup error of the first junction object, before the cut, whose slots do not resolve |
| ExportNetwork.JunctionNumbering | export.py:255-305 | junction n is numbered from 1000+6n and has six connecting roads, so the numbers of different junctions never collide |
| ExportNetwork.BuildJunction | export.py:261-309 | one pass of the loop body builds `JunctionOf`'s junction and its lane-link calls, or fails as it does |
| ExportNetwork.BuildJunctions | export.py:255-309 | the loop, with its `break` and its failures, computes `ScanJunctions` |
| ExportScenario.TemplateCut | export.py:319-322 | the objects before the cut are not model templates; the one at the cut, if any, is |
| ExportScenario.EntitiesPerCar | export.py:326 | one entity per car, in order, from the vehicle catalog |
| ExportScenario.ActionsPerCar | export.py:327-332 | three init actions per car (teleport, speed 30, lane change), in order |
| ExportScenario.CarsBeforeTemplates | export.py:319-323 | the cars taken are exactly the objects named 'car' before the first model template |
| ExportScenario.AssembleEntities | export.py:319-332 | the loop builds the entities and init actions of exactly those cars |
| ExportScenario.AssembleScenario | export.py:313-338 | the scenario is built from the cars (none when the collection is missing) and refers to the network file |
| ExportScenario.TwoCarsSelected | export.py:319-323 | two cars followed by a template: both cars, and only them, are taken |
| ExportScenario.TwoCarsOneTemplate | export.py:319-332 | the entities of that collection, spelled out |
| ExportOpenScenario.ExportOpenScenario | export.py:185-339 | on success the xodr and xosc paths, the roads, the lane-link calls, the junction loop's result and the scenario are as described; it fails only on the first unknown geometry or a failed junction loop |
| ExportOpenScenario.ArityBreak | export.py:256-260 | when junction object n is the first not four-way, the loop succeeds, reports the error, and keeps exactly the n junctions built before it, so the network is still written |
| ExportOpenScenario.TwoRoadsBuilt | export.py:192-242 | road 1 (successor: start of road 2) and road 2 (predecessor: end of road 1) become two roads linked as roads at those contact points |
| ExportOpenScenario.TwoRoadsLaneLinks | export.py:245-253 | their lanes are linked once from each side, road 1 then road 2 |
| ExportOpenScenario.TwoRoadsNoJunctions | export.py:255-309 | no junction objects: no junctions, no calls, no arity error |
| ExportFindings.StaleAttachPoint | export.py:280-291 | as written, a road linked to the junction gets its attach point; a road not linked to it keeps the previous value |
| ExportFindings.ConnectionsAsWritten | export.py:275-301 | as written, each successful pass yields one connecting road per pair |
| ExportFindings.AsWrittenAgreesWhenAttached | export.py:275-301 | when every incoming road is linked to the junction, the code as written builds exactly the corrected connecting roads |
| ExportFindings.AsWrittenAssignedSucceeds | export.py:280-291 | once both contact points have a value, the code as written never reads an unassigned one |
| ExportFindings.StaleContactPointExample | export.py:280-298 | junction 100 whose 'cp_down' road has no link to it: as written, connecting road 2 records contact point end for that road, left over from pair (0,2) |
| ExportFindings.StaleContactPointCorrected | export.py:280-298 | for the same junction, the corrected model records no contact point there |
| ExportFindings.Relink | export.py:222-239 | assuming `add_predecessor`/`add_successor` replace an existing link: the road keeps its id and plan view, and only the links the object has are replaced |
| ExportFindings.RoadLoopAsWritten | export.py:192-242 | as written, the road loop keeps track of how many trailing list entries are the one Python road object |
| ExportFindings.RoadLoopAgrees | export.py:192-242 | with only lines and arcs, the loop as written builds exactly the corrected roads |
| ExportFindings.StaleRoadExample | export.py:192-242 | a line road then a 'spiral' road: as written the first road is listed twice, while the corrected loop stops with an unknown-geometry error |
| ExportFindings.UnboundRoadExample | export.py:192-242 | a first road object with geometry 'spiral': as written, `road` is read before it is assigned |
| Placement.CreateStencil | addon/modal_two_point_base.py:40-62 | an existing stencil is reused with its mesh and pose and linked into the scene; otherwise a new one is made with the initial one-vertex mesh at the location |
| Placement.CreateStencilAsWritten | addon/modal_two_point_base.py:45-62 | as written, the call fails exactly when a stencil exists but this operator never assigned `self.stencil`; otherwise it agrees with the corrected version |
| Placement.LeftoverStencilRaises | addon/modal_two_point_base.py:45-62 | a stencil left over from an earlier session makes the new operator's first left release raise |
| Placement.UpdateStencil | addon/modal_two_point_base.py:72-85 | nothing changes when the end equals the start or the update is invalid; otherwise the stencil takes the new mesh and world matrix; nothing else changes |
| Placement.CleanUp | addon/modal_two_point_base.py:219-230 | the stencil is removed and the state is INIT |
| Placement.Invoke | addon/modal_two_point_base.py:211-217 | the state machine starts in INIT |
| Placement.Enter | addon/modal_two_point_base.py:104-111 | a call in INIT first resets start snapping and moves to SELECT_START; in any other state it changes nothing; afterwards the state is never INIT |
| Placement.MoveStart | addon/modal_two_point_base.py:115-130 | in SELECT_START the selected point (the grid point with CTRL and no hit) and heading become both start and end; the snap result is stored and the cursor moves to the selected point; mode, frozen snapping, stencil and log are kept |
| Placement.MoveEnd | addon/modal_two_point_base.py:115-141 | in SELECT_END the selected point is the new end; it is snapped iff an object was hit; the heading is the hit heading plus pi when snapped, else the callback's; the snap result is stored and the cursor moves to the selected point; the start is kept; the stencil takes the mesh and world matrix the callback gives for the moved sketch, unless the end equals the start or the callback reports no valid solution, when it is unchanged |
| Placement.ChooseStart | addon/modal_two_point_base.py:145-153 | the start takes the last snap result; the stencil is the one `create_stencil` gives at the cursor (reused or new), linked; the state is SELECT_END; every other field, the cursor and the log are unchanged, so nothing is created |
| Placement.LinksFor | addon/modal_two_point_base.py:159-166 | a start link is requested iff the start was snapped, and an end link iff the end is; there are exactly that many links, all of them links, with the start link first |
| Placement.ChooseEnd | addon/modal_two_point_base.py:154-170 | exactly one object is created from the sketch, followed by the links for the snapped ends; the end's snapping is the last hit; the stencil is removed and the state is INIT; every other field (points, headings, start snapping, cursor, last hit) is unchanged |
| Placement.StepKeepsInvariant | addon/modal_two_point_base.py:102-196 | every call keeps the invariant that SELECT_END has a linked stencil |
| Placement.EntryFirst | addon/modal_two_point_base.py:104-111 | in INIT the entry step happens before any event is handled |
| Placement.PassiveChangesNothing | addon/modal_two_point_base.py:112-113 | pass-through events return PASS_THROUGH and change nothing but the entry step |
| Placement.RightReleaseStepsBack | addon/modal_two_point_base.py:172-177 | a right release in SELECT_END removes the stencil and returns to INIT, still running |
| Placement.RightReleaseExits | addon/modal_two_point_base.py:178-181 | a right release in SELECT_START cleans up and finishes, creating nothing |
| Placement.EscapeExits | addon/modal_two_point_base.py:183-185 | ESC cleans up and finishes from any state, creating nothing |
| Placement.CreatesOnlyOnEndRelease | addon/modal_two_point_base.py:102-196 | only a left release in SELECT_END creates an object, and then exactly one; every other event leaves the log alone |
| PlacementOperator.TwoPointOperator.Invoke | addon/modal_two_point_base.py:211-217 | the operator's new state is `Placement.Invoke` of the old one, and it returns RUNNING_MODAL |
| PlacementOperator.TwoPointOperator.CreateStencil | addon/modal_two_point_base.py:40-62 | the scene's stencil becomes `Placement.CreateStencil` of the old one; cursor and log are kept |
| PlacementOperator.TwoPointOperator.RemoveStencil | addon/modal_two_point_base.py:64-70 | the stencil is gone; cursor and log are kept |
| PlacementOperator.TwoPointOperator.UpdateStencil | addon/modal_two_point_base.py:72-85 | the new state is `Placement.UpdateStencil` of the old one |
| PlacementOperator.TwoPointOperator.CleanUp | addon/modal_two_point_base.py:219-230 | the new state is `Placement.CleanUp` of the old one |
| PlacementOperator.TwoPointOperator.Enter | addon/modal_two_point_base.py:104-111 | the new state is `Placement.Enter` of the old one |
| PlacementOperator.TwoPointOperator.TrackPointer | addon/modal_two_point_base.py:117-123 | the snap result is stored, and the cursor and the returned point are the selected point |
| PlacementOperator.TwoPointOperator.TrackEnd | addon/modal_two_point_base.py:131-139 | the end point, end snapping and end heading are set as in `Placement.MoveEnd`, and nothing else changes |
| PlacementOperator.TwoPointOperator.MouseMoved | addon/modal_two_point_base.py:115-141 | the new state is `Placement.MoveStart` or `Placement.MoveEnd` of the old one, by state |
| PlacementOperator.TwoPointOperator.StartChosen | addon/modal_two_point_base.py:145-153 | the new state is `Placement.ChooseStart` of the old one |
| PlacementOperator.TwoPointOperator.RecordCreation | addon/modal_two_point_base.py:157-166 | the log gains the created object, then the links for the snapped ends; cursor and stencil are kept |
| PlacementOperator.TwoPointOperator.EndChosen | addon/modal_two_point_base.py:154-170 | the new state is `Placement.ChooseEnd` of the old one |
| PlacementOperator.TwoPointOperator.Modal | addon/modal_two_point_base.py:102-196 | one call keeps the invariant, leaves the state `Placement.Step` describes, and returns its outcome |

## Left out

- The OpenDRIVE and OpenSCENARIO libraries are not modelled: lane sections, road marks, `create_junction_roads_standalone`'s geometry, `create_lane_links`' lane matching, `adjust_startpoints` and the XML writers. The model records what is passed to them.
- Floating-point geometry is not modelled. Coordinates, headings, curvature and `pi` are `real`s that are copied, never computed with, except for the end heading `heading + pi`.
- File-system effects are not modelled: creating the `xodr`/`xosc` directories and writing files. The paths are computed as strings with `/` separators.
- The editor UI is not modelled: the status text, the crosshair cursor, deselecting on `invoke`, zoom and centring on the middle mouse button, the active object, and leaving edit mode in `clean_up`. These events are `Navigate` and change nothing.
- `raycast_mouse_to_object_else_xy` and `snap_cursor_to_grid` are given as inputs: the event carries the snap result and the grid point.
- `create_object` and `create_object_xodr_links` (subclass and helper code) are not modelled. They are recorded in the log as `Created(sketch)` and `Linked(end, id, cp_type)`.
- The operator's fields that Python sets only on first use start from the origin, with nothing snapped. What this loses: in the code, a left release before any mouse move reads the unset `self.hit` (and `id_xodr_hit`, `cp_type`, `heading_start`, addon/modal_two_point_base.py:146-151) and raises `AttributeError`; the model instead chooses the origin as an unsnapped start.
- With CTRL held and no object hit, `point_selected` is rebound to `cursor.location` (addon/modal_two_point_base.py:123), so `point_selected_end` (lines 129 and 133) aliases the cursor in either state. The model copies the point, so later cursor moves are not seen through that alias.
- The stencil's fake-user flags and the mesh replacement in `helpers.replace_mesh` are not modelled, beyond the mesh and world matrix they set.
- `remove_stencil` deletes 'dsc_stencil' (`bpy.data.objects.remove`), although its docstring says unlink; the model deletes it.
- The scenario's object loop stops (`break`) at the first model template; it does not skip it and go on.
- A link whose target id names no road or junction object is still added, with no element type.
- Scene objects are assumed to carry every custom property the exporter reads (`geometry`, `id_xodr`, the `geometry_*` values, `link_*_cp` next to `link_*`, `incoming_roads`, and `x`, `y`, `z`, `hdg`, `id_xosc` on cars). In the code a missing one raises `KeyError`, also inside `get_element_type_by_id`, which reads `id_xodr` of every road and junction object it passes.
- ExportFindings.Relink: assumes that `add_predecessor`/`add_successor` replace a link the road already has and that `odr.add_road` accepts a road it already holds. scenariogeneration is not part of this model; if either call raises instead, the as-written run of the second finding stops at export.py:230-241 rather than listing road 1 twice.
- An object with an unknown geometry stops the export with an error in the model. The code as written re-uses the previous road instead (see Findings).
- `get_road_by_id` is modelled as returning the position of the road found. The junction loop's `xodr.get_road_by_id` is assumed to behave the same way (first match or none). Where it finds none, the model stops the export; the code would later fail on `None`.
- ExportNetwork.NoLaneLinksToJunctions: requires unique ids across road and junction objects. With a road and a junction sharing an id, the road wins and a lane-link call can follow.
- Duplicate `create_lane_links` calls for two roads that link to each other are recorded twice, as the code makes them. What the library does with a repeated call is not modelled.

## Findings

| source | as written | input that shows it | evidently intended | confidence | as-written member | corrected member |
|---|---|---|---|---|---|---|
| export.py:280-298 | `cp_type_j`/`cp_type_k` are assigned only when the road links to the junction, so a road without such a link keeps the contact point of an earlier pair, or raises `UnboundLocalError` on the first pair | junction 100 with roads 1 (successor), 2 (predecessor), 3 (successor), 4 (no link): connecting road 2 records end for road 4 | a road not linked to the junction gets no contact point | not executed | ExportFindings.StaleContactPointExample | ExportFindings.StaleContactPointCorrected |
| export.py:192-242 | a road object whose geometry is neither 'line' nor 'arc' assigns no `road`, so the previous road is re-linked and appended again, or `road` is unbound for the first object | a 'line' road 1 followed by a 'spiral' road 2: the local `roads` list, which the lane-link pass walks, holds road 1 twice and no road 2 (assuming the library accepts the re-linked, re-added road; see ExportFindings.Relink under Left out) | an unknown geometry is rejected | not executed | ExportFindings.StaleRoadExample | ExportNetwork.BuildRoads |
| addon/modal_two_point_base.py:45-62 | when 'dsc_stencil' already exists, `self.stencil` is not assigned, yet it is passed to `select_activate_object` (and used by `update_stencil`) | a stencil saved in the file by an earlier session (it has a fake user): the new operator's first left release raises `AttributeError` | the existing stencil is reused and bound to the operator | not executed; low, it depends on how Blender keeps the operator instance | Placement.LeftoverStencilRaises | Placement.CreateStencil |
