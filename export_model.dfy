/**
 * The data the OpenDRIVE exporter reads and builds, and its two lookups:
 * `get_element_type_by_id` over the scene objects and `get_road_by_id` over
 * the roads built so far (export.py), plus the contact-point mapping used
 * for road-level links.
 */
module ExportModel {
  import opened Wrappers
  import opened Text

  /** `xodr.ContactPoint`. */
  datatype ContactPoint = Start | End

  /** `xodr.ElementType`. */
  datatype ElementType = RoadElement | JunctionElement

  /** A link as a scene object stores it: `link_predecessor` / `link_successor` and the matching `*_cp` string. */
  datatype RawLink = RawLink(target: int, cp: string)

  /**
   * An object of the 'OpenDRIVE' collection with the custom properties the
   * exporter reads. Road objects use the geometry fields and the links,
   * junction objects `incomingRoads` (keyed 'cp_right', 'cp_up', 'cp_left', 'cp_down').
   */
  datatype SceneObject = SceneObject(
    name: string,
    idXodr: int,
    geometry: string,
    x: real, y: real, hdgStart: real,
    length: real, curvature: real, angle: real,
    linkPredecessor: Option<RawLink>,
    linkSuccessor: Option<RawLink>,
    incomingRoads: map<string, int>)

  /** The single plan-view geometry of a road. */
  datatype Segment = Line(length: real) | Arc(curvature: real, angle: real)

  datatype PlanView = PlanView(x: real, y: real, heading: real, segment: Segment)

  /** A road-level link as `add_predecessor` / `add_successor` record it; both tags may be `None`. */
  datatype Link = Link(elementType: Option<ElementType>, elementId: int, contactPoint: Option<ContactPoint>)

  /**
   * An `xodr.Road` built from a road object. Its lane section is always the
   * standard one (one left and one right lane with solid marks), so it is not
   * represented.
   */
  datatype Road = Road(id: int, planView: PlanView, predecessor: Option<Link>, successor: Option<Link>)

  /** Ways the export stops with a Python exception (nothing is written then). */
  datatype ExportError =
    | UnknownGeometry(roadId: int)                 // a road object that is neither a line nor an arc
    | MissingSlot(junctionId: int, slot: string)   // KeyError on `incoming_roads[slot]`
    | UnknownIncomingRoad(junctionId: int, roadId: int) // `get_road_by_id` found nothing
    | UnboundRoad(roadId: int)                     // the code as written: `road` read before any assignment
    | UnboundContactPoint(junctionId: int)         // the code as written: `cp_type_j`/`cp_type_k` read unassigned

  predicate IsRoadObject(o: SceneObject) { Contains(o.name, "road") }

  predicate IsJunctionObject(o: SceneObject) { Contains(o.name, "junction") }

  /** The mapping of a `*_cp` string to a contact point: total, `None` for anything unrecognised. */
  function ContactPointOf(cp: string): (r: Option<ContactPoint>)
    ensures r == Some(Start) <==> cp == "cp_start"
    ensures r == Some(End) <==> cp == "cp_end"
    ensures r == None <==> cp != "cp_start" && cp != "cp_end"
  {
    if cp == "cp_start" then Some(Start)
    else if cp == "cp_end" then Some(End)
    else None
  }

  /** `o` is an object the scan of `get_element_type_by_id` stops at when looking for `id`. */
  predicate Classifies(o: SceneObject, id: int)
  {
    (IsRoadObject(o) || IsJunctionObject(o)) && o.idXodr == id
  }

  /** The type reported for a classifying object: the road test runs first. */
  function KindOf(o: SceneObject): ElementType
  {
    if IsRoadObject(o) then RoadElement else JunctionElement
  }

  /**
   * `get_element_type_by_id`: the type of the first object, in collection
   * order, that is a road or junction object with the given id; `None` if
   * there is none.
   */
  function ElementTypeById(objects: seq<SceneObject>, id: int): Option<ElementType>
  {
    if objects == [] then None
    else if IsRoadObject(objects[0]) then
      if objects[0].idXodr == id then Some(RoadElement) else ElementTypeById(objects[1..], id)
    else if IsJunctionObject(objects[0]) then
      if objects[0].idXodr == id then Some(JunctionElement) else ElementTypeById(objects[1..], id)
    else
      ElementTypeById(objects[1..], id)
  }

  /**
   * The lookup reports nothing exactly when no road or junction object has
   * the id, and otherwise the kind of the first one that does.
   */
  lemma {:induction false} ElementTypeByIdFirst(objects: seq<SceneObject>, id: int)
    ensures ElementTypeById(objects, id).None? <==> forall k :: 0 <= k < |objects| ==> !Classifies(objects[k], id)
    ensures ElementTypeById(objects, id).Some? ==>
              exists k :: 0 <= k < |objects| && Classifies(objects[k], id) &&
                          ElementTypeById(objects, id).value == KindOf(objects[k]) &&
                          forall m :: 0 <= m < k ==> !Classifies(objects[m], id)
  {
    if objects != [] {
      ElementTypeByIdFirst(objects[1..], id);
      if !Classifies(objects[0], id) {
        if ElementTypeById(objects, id).Some? {
          var k :| 0 <= k < |objects[1..]| && Classifies(objects[1..][k], id) &&
                   ElementTypeById(objects, id).value == KindOf(objects[1..][k]) &&
                   forall m :: 0 <= m < k ==> !Classifies(objects[1..][m], id);
          assert objects[k + 1] == objects[1..][k];
          assert forall m :: 1 <= m < k + 1 ==> objects[m] == objects[1..][m - 1];
        }
        assert forall k :: 1 <= k < |objects| ==> objects[k] == objects[1..][k - 1];
      }
    }
  }

  /** An object whose name contains 'road' is never reported as a junction, even if it also contains 'junction'. */
  lemma {:induction false} RoadNamesWin(objects: seq<SceneObject>, id: int, k: nat)
    requires k < |objects| && Classifies(objects[k], id) && IsRoadObject(objects[k])
    requires forall m :: 0 <= m < k ==> !Classifies(objects[m], id)
    ensures ElementTypeById(objects, id) == Some(RoadElement)
  {
    if k > 0 {
      assert !Classifies(objects[0], id);
      RoadNamesWin(objects[1..], id, k - 1);
    }
  }

  /**
   * `get_road_by_id`: the position of the first road, in list order, whose id
   * is `id`, or `None`. (The returned position stands for the road object.)
   */
  function FindRoad(roads: seq<Road>, id: int): Option<nat>
  {
    if roads == [] then None
    else if roads[0].id == id then Some(0)
    else match FindRoad(roads[1..], id)
      case None => None
      case Some(k) => Some(k + 1)
  }

  /** The lookup finds the first road with the id, and finds nothing exactly when no road has it. */
  lemma {:induction false} FindRoadFirst(roads: seq<Road>, id: int)
    ensures FindRoad(roads, id).Some? ==>
              var b := FindRoad(roads, id).value;
              b < |roads| && roads[b].id == id && forall k :: 0 <= k < b ==> roads[k].id != id
    ensures FindRoad(roads, id).None? <==> forall k :: 0 <= k < |roads| ==> roads[k].id != id
  {
    if roads != [] && roads[0].id != id {
      FindRoadFirst(roads[1..], id);
      assert forall k :: 1 <= k < |roads| ==> roads[k] == roads[1..][k - 1];
    }
  }
}
