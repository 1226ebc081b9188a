/**
 * The OpenDRIVE half of `export_openscenario` (export.py): roads built from
 * the road objects, the lane-link pass over road-to-road neighbours, and the
 * 4-way junctions with their six connecting roads. Library calls
 * (`create_lane_links`, `create_junction_roads_standalone`, `create_junction`)
 * are recorded, not executed.
 */
module ExportNetwork {
  import opened Wrappers
  import opened Seqs
  import opened ExportModel

  // ---------------------------------------------------------------------------
  // Roads
  // ---------------------------------------------------------------------------

  /** The plan view of a road object: one line or one arc from its start pose; `None` for any other geometry. */
  function PlanViewOf(o: SceneObject): Option<PlanView>
  {
    if o.geometry == "line" then Some(PlanView(o.x, o.y, o.hdgStart, Line(o.length)))
    else if o.geometry == "arc" then Some(PlanView(o.x, o.y, o.hdgStart, Arc(o.curvature, o.angle)))
    else None
  }

  /** A stored link turned into a road-level link: target type looked up, contact point mapped. */
  function ResolveLink(objects: seq<SceneObject>, raw: Option<RawLink>): Option<Link>
  {
    match raw
    case None => None
    case Some(l) => Some(Link(ElementTypeById(objects, l.target), l.target, ContactPointOf(l.cp)))
  }

  /** The road built from road object `o`, `None` when its geometry is unknown. */
  function BuildRoad(objects: seq<SceneObject>, o: SceneObject): Option<Road>
  {
    match PlanViewOf(o)
    case None => None
    case Some(pv) => Some(Road(o.idXodr, pv, ResolveLink(objects, o.linkPredecessor), ResolveLink(objects, o.linkSuccessor)))
  }

  /** `roads` holds, in order, the road built from each road object of `scanned`. */
  ghost predicate RoadsBuilt(objects: seq<SceneObject>, scanned: seq<SceneObject>, roads: seq<Road>)
  {
    var ro := Filter(scanned, IsRoadObject);
    |roads| == |ro| && forall i :: 0 <= i < |roads| ==> BuildRoad(objects, ro[i]) == Some(roads[i])
  }

  ghost predicate RoadsBuiltFrom(objects: seq<SceneObject>, roads: seq<Road>)
  {
    RoadsBuilt(objects, objects, roads)
  }

  /** Scanning object `t` appends its road when it is a road object, and nothing otherwise. */
  lemma RoadsBuiltSnoc(objects: seq<SceneObject>, t: nat, roads: seq<Road>)
    requires t < |objects| && RoadsBuilt(objects, objects[..t], roads)
    ensures !IsRoadObject(objects[t]) ==> RoadsBuilt(objects, objects[..t + 1], roads)
    ensures IsRoadObject(objects[t]) && BuildRoad(objects, objects[t]).Some? ==>
              RoadsBuilt(objects, objects[..t + 1], roads + [BuildRoad(objects, objects[t]).value])
  {
    FilterSnoc(objects, t, IsRoadObject);
  }

  /** Road object `k` has a geometry the exporter does not know. */
  predicate BadGeometry(objects: seq<SceneObject>, k: int)
  {
    0 <= k < |objects| && IsRoadObject(objects[k]) && PlanViewOf(objects[k]).None?
  }

  /**
   * The first loop of `export_openscenario`: one road per road object, in
   * collection order, with its predecessor and successor links resolved. An
   * object whose geometry is neither 'line' nor 'arc' stops the export.
   */
  method BuildRoads(objects: seq<SceneObject>) returns (r: Result<seq<Road>, ExportError>)
    ensures r.Success? <==> forall k :: 0 <= k < |objects| ==> !BadGeometry(objects, k)
    ensures r.Success? ==> RoadsBuiltFrom(objects, r.value)
    ensures r.Failure? ==> exists k :: BadGeometry(objects, k) && r.error == UnknownGeometry(objects[k].idXodr)
                                      && forall m :: 0 <= m < k ==> !BadGeometry(objects, m)
  {
    var roads: seq<Road> := [];
    var t := 0;
    while t < |objects|
      invariant 0 <= t <= |objects|
      invariant forall k :: 0 <= k < t ==> !BadGeometry(objects, k)
      invariant RoadsBuilt(objects, objects[..t], roads)
    {
      var obj := objects[t];
      RoadsBuiltSnoc(objects, t, roads);
      if IsRoadObject(obj) {
        var road := BuildRoad(objects, obj);
        if road.None? {
          assert BadGeometry(objects, t);
          return Failure(UnknownGeometry(obj.idXodr));
        }
        roads := roads + [road.value];
      }
      t := t + 1;
    }
    assert objects[..t] == objects;
    return Success(roads);
  }

  // ---------------------------------------------------------------------------
  // Lane-link pass
  // ---------------------------------------------------------------------------

  /** A road handed to `create_lane_links`: a road of the first loop by position, or connecting road `index` of a junction. */
  datatype RoadRef = Built(index: nat) | Connecting(startnum: int, index: nat)

  /** One recorded call `create_lane_links(road, other)`. */
  datatype LaneLinkCall = LaneLinks(road: RoadRef, other: RoadRef)

  /** The road a link's id names, if any (`get_road_by_id` on the link's `element_id`). */
  function LinkTarget(roads: seq<Road>, link: Option<Link>): Option<nat>
  {
    if link.None? then None else FindRoad(roads, link.value.elementId)
  }

  /** The call, if any, the pass makes for one link of road `i`: only when the link's id names a road. */
  function LinkCall(roads: seq<Road>, i: nat, link: Option<Link>): (r: seq<LaneLinkCall>)
    ensures |r| <= 1
  {
    match LinkTarget(roads, link)
    case None => []
    case Some(b) => [LaneLinks(Built(i), Built(b))]
  }

  /** The calls the pass makes for road `i`: predecessor first, then successor. */
  function RoadCalls(roads: seq<Road>, i: nat): (r: seq<LaneLinkCall>)
    requires i < |roads|
    ensures |r| <= 2
  {
    LinkCall(roads, i, roads[i].predecessor) + LinkCall(roads, i, roads[i].successor)
  }

  /** The calls the pass makes for the first `n` roads, in order. */
  function LaneLinkCalls(roads: seq<Road>, n: nat): seq<LaneLinkCall>
    requires n <= |roads|
  {
    if n == 0 then [] else LaneLinkCalls(roads, n - 1) + RoadCalls(roads, n - 1)
  }

  /** The second loop of `export_openscenario`. */
  method LaneLinkPass(roads: seq<Road>) returns (calls: seq<LaneLinkCall>)
    ensures calls == LaneLinkCalls(roads, |roads|)
  {
    calls := [];
    for i := 0 to |roads|
      invariant calls == LaneLinkCalls(roads, i)
    {
      var road := roads[i];
      ghost var before := calls;
      if road.predecessor.Some? {
        var pre := FindRoad(roads, road.predecessor.value.elementId);
        if pre.Some? {
          calls := calls + [LaneLinks(Built(i), Built(pre.value))];
        }
      }
      assert calls == before + LinkCall(roads, i, road.predecessor);
      ghost var middle := calls;
      if road.successor.Some? {
        var suc := FindRoad(roads, road.successor.value.elementId);
        if suc.Some? {
          calls := calls + [LaneLinks(Built(i), Built(suc.value))];
        }
      }
      assert calls == middle + LinkCall(roads, i, road.successor);
    }
  }

  /** Road `b` is the first road carrying the id of road `i`'s predecessor or successor link. */
  ghost predicate LinkResolvesTo(roads: seq<Road>, i: int, b: int)
  {
    0 <= i < |roads| &&
    (LinkTarget(roads, roads[i].predecessor) == Some(b) || LinkTarget(roads, roads[i].successor) == Some(b))
  }

  /** The calls for road `i` all start at road `i` and link it to a road of the first loop. */
  lemma RoadCallsBuilt(roads: seq<Road>, i: nat)
    requires i < |roads|
    ensures forall c :: c in RoadCalls(roads, i) ==> c.road == Built(i) && c.other.Built?
  {
  }

  /** The calls for road `i` link it to road `b` exactly when one of its links resolves to `b`. */
  lemma RoadCallsExactly(roads: seq<Road>, i: nat, b: nat)
    requires i < |roads|
    ensures LinkResolvesTo(roads, i, b) <==> LaneLinks(Built(i), Built(b)) in RoadCalls(roads, i)
  {
  }

  /** Calls between roads of the first loop, each starting at a road before `n`. */
  predicate BuiltBelow(c: LaneLinkCall, n: nat)
  {
    c.road.Built? && c.other.Built? && c.road.index < n
  }

  lemma BuiltBelowAppend(a: seq<LaneLinkCall>, b: seq<LaneLinkCall>, n: nat)
    requires forall c :: c in a ==> BuiltBelow(c, n)
    requires forall c :: c in b ==> c.road == Built(n) && c.other.Built?
    ensures forall c :: c in a + b ==> BuiltBelow(c, n + 1)
  {
  }

  /** Every call of the pass is between two roads of the first loop, the first one of the roads scanned. */
  lemma {:induction false} LaneLinkCallsBuilt(roads: seq<Road>, n: nat)
    requires n <= |roads|
    ensures forall c :: c in LaneLinkCalls(roads, n) ==> BuiltBelow(c, n)
  {
    if n > 0 {
      LaneLinkCallsBuilt(roads, n - 1);
      RoadCallsBuilt(roads, n - 1);
      BuiltBelowAppend(LaneLinkCalls(roads, n - 1), RoadCalls(roads, n - 1), n - 1);
    }
  }

  /** The pass calls `create_lane_links(road i, road b)` exactly when one of road i's links resolves to road b. */
  lemma {:induction false} LaneLinkCallsExactly(roads: seq<Road>, n: nat, i: nat, b: nat)
    requires i < n <= |roads|
    ensures LinkResolvesTo(roads, i, b) <==> LaneLinks(Built(i), Built(b)) in LaneLinkCalls(roads, n)
  {
    if i == n - 1 {
      CallsOfLastRoad(roads, n, b);
      RoadCallsExactly(roads, i, b);
    } else {
      CallsOfEarlierRoad(roads, n, i, b);
      LaneLinkCallsExactly(roads, n - 1, i, b);
    }
  }

  /** Calls from the last road scanned come only from its own links. */
  lemma CallsOfLastRoad(roads: seq<Road>, n: nat, b: nat)
    requires 0 < n <= |roads|
    ensures LaneLinks(Built(n - 1), Built(b)) in LaneLinkCalls(roads, n) <==>
            LaneLinks(Built(n - 1), Built(b)) in RoadCalls(roads, n - 1)
  {
    LaneLinkCallsBuilt(roads, n - 1);
    assert !BuiltBelow(LaneLinks(Built(n - 1), Built(b)), n - 1);
  }

  /** Calls from an earlier road are not affected by the last road scanned. */
  lemma CallsOfEarlierRoad(roads: seq<Road>, n: nat, i: nat, b: nat)
    requires i < n - 1 && n <= |roads|
    ensures LaneLinks(Built(i), Built(b)) in LaneLinkCalls(roads, n) <==>
            LaneLinks(Built(i), Built(b)) in LaneLinkCalls(roads, n - 1)
  {
    RoadCallsBuilt(roads, n - 1);
    assert LaneLinks(Built(i), Built(b)) !in RoadCalls(roads, n - 1);
  }

  /** At most two calls per road: one for the predecessor, one for the successor. */
  lemma {:induction false} LaneLinkCallsBound(roads: seq<Road>, n: nat)
    requires n <= |roads|
    ensures |LaneLinkCalls(roads, n)| <= 2 * n
  {
    if n > 0 {
      LaneLinkCallsBound(roads, n - 1);
    }
  }

  /** Road and junction objects never share an id. */
  ghost predicate UniqueIds(objects: seq<SceneObject>)
  {
    forall a, b :: 0 <= a < b < |objects| && Classifies(objects[a], objects[a].idXodr) && Classifies(objects[b], objects[b].idXodr)
      ==> objects[a].idXodr != objects[b].idXodr
  }

  /**
   * With ids unique across roads and junctions, a link whose target was
   * typed as a junction produces no lane-link call.
   */
  lemma NoLaneLinksToJunctions(objects: seq<SceneObject>, roads: seq<Road>, i: nat, link: Option<Link>)
    requires RoadsBuiltFrom(objects, roads) && UniqueIds(objects)
    requires i < |roads| && (link == roads[i].predecessor || link == roads[i].successor)
    requires link.Some? && link.value.elementType == Some(JunctionElement)
    ensures LinkCall(roads, i, link) == []
  {
    var id := link.value.elementId;
    ElementTypeByIdFirst(objects, id);
    var k :| 0 <= k < |objects| && Classifies(objects[k], id) && KindOf(objects[k]) == JunctionElement;
    forall b | 0 <= b < |roads|
      ensures roads[b].id != id
    {
      var k' := RoadObjectOf(objects, roads, b);
      assert Classifies(objects[k'], objects[k'].idXodr);
    }
    FindRoadFirst(roads, id);
  }

  /** Road `b` was built from a road object of the collection, and carries its id. */
  lemma RoadObjectOf(objects: seq<SceneObject>, roads: seq<Road>, b: nat) returns (k: nat)
    requires RoadsBuiltFrom(objects, roads) && b < |roads|
    ensures k < |objects| && IsRoadObject(objects[k]) && objects[k].idXodr == roads[b].id
  {
    var ro := Filter(objects, IsRoadObject);
    assert BuildRoad(objects, ro[b]) == Some(roads[b]);
    FilterSound(objects, IsRoadObject);
    assert ro[b] in ro;
    k :| 0 <= k < |objects| && objects[k] == ro[b];
  }

  // ---------------------------------------------------------------------------
  // Junctions
  // ---------------------------------------------------------------------------

  /** The slot keys of `incoming_roads`, in the order right, up, left, down (angle slots 0..3). */
  const Slots: seq<string> := ["cp_right", "cp_up", "cp_left", "cp_down"]

  /** The position of the first slot name that is not a key of `slots`; the length when all are. */
  function FirstMissing(slots: map<string, int>, names: seq<string>): (r: nat)
    ensures r <= |names|
    ensures forall t :: 0 <= t < r ==> names[t] in slots
    ensures r < |names| ==> names[r] !in slots
  {
    if names == [] || names[0] !in slots then 0 else 1 + FirstMissing(slots, names[1..])
  }

  /** The roads named by the slots, in order, stopping at the first id that names no road. */
  function ResolveSlots(roads: seq<Road>, jid: int, slots: map<string, int>, names: seq<string>): (r: Result<seq<nat>, ExportError>)
    requires forall t :: 0 <= t < |names| ==> names[t] in slots
    ensures r.Success? ==> |r.value| == |names|
  {
    if names == [] then Success([])
    else match FindRoad(roads, slots[names[0]])
      case None => Failure(UnknownIncomingRoad(jid, slots[names[0]]))
      case Some(b) =>
        match ResolveSlots(roads, jid, slots, names[1..])
        case Failure(e) => Failure(e)
        case Success(rest) => Success([b] + rest)
  }

  /**
   * The incoming roads of a junction object. The four
   * `obj['incoming_roads'][...]` subscripts all run before any road found is
   * used, so a missing key is reported first; then an id that names no road
   * (the `None` that `get_road_by_id` returns, dereferenced by the pairing
   * loop) stops the export.
   */
  function LookupSlots(roads: seq<Road>, jid: int, slots: map<string, int>, names: seq<string>): (r: Result<seq<nat>, ExportError>)
    ensures r.Success? ==> |r.value| == |names|
  {
    var cut := FirstMissing(slots, names);
    if cut < |names| then Failure(MissingSlot(jid, names[cut]))
    else ResolveSlots(roads, jid, slots, names)
  }

  /** With every key present, resolving succeeds iff every slot names a road, each the first road with its id. */
  lemma {:induction false} ResolveSlotsMeaning(roads: seq<Road>, jid: int, slots: map<string, int>, names: seq<string>)
    requires forall t :: 0 <= t < |names| ==> names[t] in slots
    ensures var r := ResolveSlots(roads, jid, slots, names);
            (r.Success? <==> forall s :: 0 <= s < |names| ==> FindRoad(roads, slots[names[s]]).Some?) &&
            (r.Success? ==> forall s :: 0 <= s < |names| ==> FindRoad(roads, slots[names[s]]) == Some(r.value[s]))
  {
    if names != [] {
      ResolveSlotsMeaning(roads, jid, slots, names[1..]);
      assert forall s :: 1 <= s < |names| ==> names[s] == names[1..][s - 1];
    }
  }

  /**
   * The lookup succeeds exactly when every slot is present and names a road;
   * then incoming road `s` is the first road with the id in slot `s`.
   */
  lemma LookupSlotsMeaning(roads: seq<Road>, jid: int, slots: map<string, int>, names: seq<string>)
    ensures var r := LookupSlots(roads, jid, slots, names);
            (r.Success? <==> forall s :: 0 <= s < |names| ==> names[s] in slots && FindRoad(roads, slots[names[s]]).Some?) &&
            (r.Success? ==> forall s :: 0 <= s < |names| ==> names[s] in slots && FindRoad(roads, slots[names[s]]) == Some(r.value[s]))
  {
    if FirstMissing(slots, names) == |names| {
      ResolveSlotsMeaning(roads, jid, slots, names);
    }
  }

  /** With every key present, a failed resolution reports the first slot whose id names no road. */
  lemma {:induction false} ResolveSlotsFailure(roads: seq<Road>, jid: int, slots: map<string, int>, names: seq<string>)
    requires forall t :: 0 <= t < |names| ==> names[t] in slots
    ensures var r := ResolveSlots(roads, jid, slots, names);
            r.Failure? ==> exists s :: 0 <= s < |names| && FindRoad(roads, slots[names[s]]).None? &&
                                       r.error == UnknownIncomingRoad(jid, slots[names[s]]) &&
                                       forall t :: 0 <= t < s ==> FindRoad(roads, slots[names[t]]).Some?
  {
    if names != [] {
      ResolveSlotsFailure(roads, jid, slots, names[1..]);
      var r := ResolveSlots(roads, jid, slots, names);
      if r.Failure? && FindRoad(roads, slots[names[0]]).Some? {
        var s :| 0 <= s < |names[1..]| && FindRoad(roads, slots[names[1..][s]]).None? &&
                 r.error == UnknownIncomingRoad(jid, slots[names[1..][s]]) &&
                 forall t :: 0 <= t < s ==> FindRoad(roads, slots[names[1..][t]]).Some?;
        assert names[s + 1] == names[1..][s];
        assert forall t :: 1 <= t < s + 1 ==> names[t] == names[1..][t - 1];
      }
    }
  }

  /**
   * Otherwise, when some slot is missing the lookup reports the first missing
   * one, even if an earlier slot names no road; when none is missing it
   * reports the first slot whose id names no road.
   */
  lemma LookupSlotsFailure(roads: seq<Road>, jid: int, slots: map<string, int>, names: seq<string>)
    ensures var r := LookupSlots(roads, jid, slots, names);
            (exists t :: 0 <= t < |names| && names[t] !in slots) ==>
              exists s :: 0 <= s < |names| && names[s] !in slots && r == Failure(MissingSlot(jid, names[s])) &&
                          forall t :: 0 <= t < s ==> names[t] in slots
    ensures var r := LookupSlots(roads, jid, slots, names);
            (forall t :: 0 <= t < |names| ==> names[t] in slots) && r.Failure? ==>
              exists s :: 0 <= s < |names| && FindRoad(roads, slots[names[s]]).None? &&
                          r.error == UnknownIncomingRoad(jid, slots[names[s]]) &&
                          forall t :: 0 <= t < s ==> FindRoad(roads, slots[names[t]]).Some?
  {
    var cut := FirstMissing(slots, names);
    if cut == |names| {
      ResolveSlotsFailure(roads, jid, slots, names);
    }
  }

  /**
   * A junction object whose 'cp_right' names no road and which has a
   * 'cp_other' key instead of 'cp_down': the missing 'cp_down' is reported,
   * whatever the roads.
   */
  lemma MissingSlotReportedFirst(roads: seq<Road>)
    ensures FindRoad(roads, 99).None? ==>
            LookupSlots(roads, 7, map["cp_right" := 99, "cp_up" := 1, "cp_left" := 2, "cp_other" := 3], Slots) ==
            Failure(MissingSlot(7, "cp_down"))
  {
    var slots := map["cp_right" := 99, "cp_up" := 1, "cp_left" := 2, "cp_other" := 3];
    assert "cp_down" !in slots;
    assert Slots[1..][1..][1..] == ["cp_down"];
    assert FirstMissing(slots, Slots[1..][1..][1..]) == 0;
  }

  /** With every key present, every road found is a position in `roads`. */
  lemma {:induction false} ResolveSlotsInRange(roads: seq<Road>, jid: int, slots: map<string, int>, names: seq<string>)
    requires forall t :: 0 <= t < |names| ==> names[t] in slots
    requires ResolveSlots(roads, jid, slots, names).Success?
    ensures IndicesIn(ResolveSlots(roads, jid, slots, names).value, roads)
  {
    if names != [] {
      ResolveSlotsInRange(roads, jid, slots, names[1..]);
      FindRoadFirst(roads, slots[names[0]]);
    }
  }

  /** Every incoming road found is a position in `roads`. */
  lemma LookupSlotsInRange(roads: seq<Road>, jid: int, slots: map<string, int>, names: seq<string>)
    requires LookupSlots(roads, jid, slots, names).Success?
    ensures IndicesIn(LookupSlots(roads, jid, slots, names).value, roads)
  {
    ResolveSlotsInRange(roads, jid, slots, names);
  }

  /** `link` points at element `jid`. */
  predicate LinksTo(link: Option<Link>, jid: int)
  {
    link.Some? && link.value.elementId == jid
  }

  /**
   * Which end of an incoming road meets junction `jid`: the end if its
   * successor is the junction (checked last, so it wins), else the start if
   * its predecessor is, else none.
   */
  function AttachPoint(road: Road, jid: int): (r: Option<ContactPoint>)
    ensures r == Some(End) <==> LinksTo(road.successor, jid)
    ensures r == Some(Start) <==> LinksTo(road.predecessor, jid) && !LinksTo(road.successor, jid)
    ensures r.None? <==> !LinksTo(road.predecessor, jid) && !LinksTo(road.successor, jid)
  {
    if LinksTo(road.successor, jid) then Some(End)
    else if LinksTo(road.predecessor, jid) then Some(Start)
    else None
  }

  /** Pairs (j, j+1) .. (j, k-1). */
  function RowUpTo(j: nat, k: nat): seq<(nat, nat)>
    decreases k
  {
    if k <= j + 1 then [] else RowUpTo(j, k - 1) + [(j, k - 1)]
  }

  /** The pairs the two nested loops visit before row `j`: all (a, b) with a < j and a < b < n, row by row. */
  function PairsBefore(j: nat, n: nat): seq<(nat, nat)>
  {
    if j == 0 then [] else PairsBefore(j - 1, n) + RowUpTo(j - 1, n)
  }

  /** The pairs `for j in range(n - 1): for k in range(j + 1, n)` visits, in that order. */
  function Pairs(n: nat): seq<(nat, nat)>
  {
    PairsBefore(if n == 0 then 0 else n - 1, n)
  }

  /** For the four incoming roads: the six unordered pairs in lexicographic order. */
  lemma PairsOfFour()
    ensures Pairs(4) == [(0, 1), (0, 2), (0, 3), (1, 2), (1, 3), (2, 3)]
  {
    assert RowUpTo(0, 4) == [(0, 1), (0, 2), (0, 3)] by {
      assert RowUpTo(0, 1) == [];
      assert RowUpTo(0, 2) == [(0, 1)];
      assert RowUpTo(0, 3) == [(0, 1), (0, 2)];
    }
    assert RowUpTo(1, 4) == [(1, 2), (1, 3)] by {
      assert RowUpTo(1, 2) == [];
      assert RowUpTo(1, 3) == [(1, 2)];
    }
    assert RowUpTo(2, 4) == [(2, 3)] by {
      assert RowUpTo(2, 3) == [];
    }
    assert PairsBefore(1, 4) == [(0, 1), (0, 2), (0, 3)];
    assert PairsBefore(2, 4) == [(0, 1), (0, 2), (0, 3), (1, 2), (1, 3)];
    assert PairsBefore(3, 4) == [(0, 1), (0, 2), (0, 3), (1, 2), (1, 3), (2, 3)];
  }

  lemma {:induction false} RowUpToMembers(j: nat, k: nat, a: nat, b: nat)
    ensures (a, b) in RowUpTo(j, k) <==> a == j && j < b < k
    decreases k
  {
    if k > j + 1 {
      RowUpToMembers(j, k - 1, a, b);
    }
  }

  lemma {:induction false} PairsBeforeMembers(j: nat, n: nat, a: nat, b: nat)
    ensures (a, b) in PairsBefore(j, n) <==> a < j && a < b < n
  {
    if j > 0 {
      RowUpToMembers(j - 1, n, a, b);
      PairsBeforeMembers(j - 1, n, a, b);
    }
  }

  /** Every unordered pair of incoming roads gets a connecting road, and nothing else does. */
  lemma PairsComplete(n: nat, a: nat, b: nat)
    ensures (a, b) in Pairs(n) <==> a < b < n
  {
    PairsBeforeMembers(if n == 0 then 0 else n - 1, n, a, b);
  }

  /** The connecting road for `pair`: predecessor is incoming road `pair.0`, successor incoming road `pair.1`. */
  function Connection(roads: seq<Road>, jid: int, incoming: seq<nat>, pair: (nat, nat)): ConnectingRoad
    requires pair.0 < |incoming| && pair.1 < |incoming|
    requires incoming[pair.0] < |roads| && incoming[pair.1] < |roads|
  {
    Join(jid, roads[incoming[pair.0]], roads[incoming[pair.1]])
  }

  /** The links a connecting road of junction `jid` gets to incoming roads `a` and `b`, each at the end that meets the junction. */
  function Join(jid: int, a: Road, b: Road): ConnectingRoad
  {
    ConnectingRoad(Link(Some(RoadElement), a.id, AttachPoint(a, jid)), Link(Some(RoadElement), b.id, AttachPoint(b, jid)))
  }

  /** A connecting road (from `create_junction_roads_standalone`) with the two links this code adds. */
  datatype ConnectingRoad = ConnectingRoad(predecessor: Link, successor: Link)

  /** The lane-link calls for the connecting roads of `pairs`: road i with its predecessor, then with its successor. */
  function JunctionCalls(startnum: int, incoming: seq<nat>, pairs: seq<(nat, nat)>): seq<LaneLinkCall>
    requires Within(pairs, |incoming|)
  {
    if pairs == [] then []
    else
      var i := |pairs| - 1;
      JunctionCalls(startnum, incoming, pairs[..i]) + PairCalls(startnum, incoming, i, pairs[i])
  }

  /** The two lane-link calls of connecting road `i`, which joins the incoming roads of `pair`. */
  function PairCalls(startnum: int, incoming: seq<nat>, i: nat, pair: (nat, nat)): seq<LaneLinkCall>
    requires pair.0 < |incoming| && pair.1 < |incoming|
  {
    [LaneLinks(Connecting(startnum, i), Built(incoming[pair.0])), LaneLinks(Connecting(startnum, i), Built(incoming[pair.1]))]
  }

  /** Both members of every pair are below `n`. */
  predicate Within(pairs: seq<(nat, nat)>, n: nat)
  {
    forall q :: 0 <= q < |pairs| ==> pairs[q].0 < n && pairs[q].1 < n
  }

  ghost predicate IndicesIn(incoming: seq<nat>, roads: seq<Road>)
  {
    forall t :: 0 <= t < |incoming| ==> incoming[t] < |roads|
  }

  /** The connecting roads for `pairs`, in order. */
  function Connections(roads: seq<Road>, jid: int, incoming: seq<nat>, pairs: seq<(nat, nat)>): (r: seq<ConnectingRoad>)
    requires IndicesIn(incoming, roads)
    requires Within(pairs, |incoming|)
    ensures |r| == |pairs|
  {
    if pairs == [] then []
    else
      var i := |pairs| - 1;
      Connections(roads, jid, incoming, pairs[..i]) + [Connection(roads, jid, incoming, pairs[i])]
  }

  /** Connecting road `q` of `pairs` joins the incoming roads of `pairs[q]`. */
  lemma {:induction false} ConnectionsAt(roads: seq<Road>, jid: int, incoming: seq<nat>, pairs: seq<(nat, nat)>, q: nat)
    requires IndicesIn(incoming, roads)
    requires Within(pairs, |incoming|)
    requires q < |pairs|
    ensures Connections(roads, jid, incoming, pairs)[q] == Connection(roads, jid, incoming, pairs[q])
  {
    var i := |pairs| - 1;
    if q < i {
      ConnectionsAt(roads, jid, incoming, pairs[..i], q);
    }
  }

  /** Every connecting road of `pairs` joins the incoming roads of its pair. */
  lemma ConnectionsEach(roads: seq<Road>, jid: int, incoming: seq<nat>, pairs: seq<(nat, nat)>)
    requires IndicesIn(incoming, roads)
    requires Within(pairs, |incoming|)
    ensures forall q :: 0 <= q < |pairs| ==> Connections(roads, jid, incoming, pairs)[q] == Connection(roads, jid, incoming, pairs[q])
  {
    forall q | 0 <= q < |pairs|
      ensures Connections(roads, jid, incoming, pairs)[q] == Connection(roads, jid, incoming, pairs[q])
    {
      ConnectionsAt(roads, jid, incoming, pairs, q);
    }
  }

  /** Connecting road `q` is lane-linked with its predecessor, then its successor, at calls `2q` and `2q + 1`. */
  lemma {:induction false} JunctionCallsEach(startnum: int, incoming: seq<nat>, pairs: seq<(nat, nat)>)
    requires Within(pairs, |incoming|)
    ensures |JunctionCalls(startnum, incoming, pairs)| == 2 * |pairs|
    ensures forall q :: 0 <= q < |pairs| ==>
              JunctionCalls(startnum, incoming, pairs)[2 * q..2 * q + 2] == PairCalls(startnum, incoming, q, pairs[q])
  {
    if pairs != [] {
      var i := |pairs| - 1;
      JunctionCallsEach(startnum, incoming, pairs[..i]);
      var calls := JunctionCalls(startnum, incoming, pairs);
      forall q | 0 <= q < |pairs|
        ensures calls[2 * q..2 * q + 2] == PairCalls(startnum, incoming, q, pairs[q])
      {
        if q < i {
          assert calls[2 * q..2 * q + 2] == JunctionCalls(startnum, incoming, pairs[..i])[2 * q..2 * q + 2];
        }
      }
    }
  }

  /** `conn` and `calls` are what the nested loops produce for `pairs`: one connecting road and two calls per pair, in order. */
  ghost predicate ConnectedAlong(roads: seq<Road>, jid: int, incoming: seq<nat>, startnum: int,
                                 pairs: seq<(nat, nat)>, conn: seq<ConnectingRoad>, calls: seq<LaneLinkCall>)
    requires IndicesIn(incoming, roads)
    requires Within(pairs, |incoming|)
  {
    |conn| == |pairs| && |calls| == 2 * |pairs| &&
    forall q :: 0 <= q < |pairs| ==>
      conn[q] == Connection(roads, jid, incoming, pairs[q]) && calls[2 * q..2 * q + 2] == PairCalls(startnum, incoming, q, pairs[q])
  }

  /** What the loops produce is what `Connections` and `JunctionCalls` describe. */
  lemma AlongIsConnections(roads: seq<Road>, jid: int, incoming: seq<nat>, startnum: int,
                           pairs: seq<(nat, nat)>, conn: seq<ConnectingRoad>, calls: seq<LaneLinkCall>)
    requires IndicesIn(incoming, roads) && Within(pairs, |incoming|)
    requires ConnectedAlong(roads, jid, incoming, startnum, pairs, conn, calls)
    ensures conn == Connections(roads, jid, incoming, pairs)
    ensures calls == JunctionCalls(startnum, incoming, pairs)
  {
    ConnectionsEach(roads, jid, incoming, pairs);
    JunctionCallsEach(startnum, incoming, pairs);
    var jc := JunctionCalls(startnum, incoming, pairs);
    forall t | 0 <= t < |calls|
      ensures calls[t] == jc[t]
    {
      var q := t / 2;
      assert 2 * q <= t < 2 * q + 2 && q < |pairs|;
      assert calls[2 * q..2 * q + 2] == PairCalls(startnum, incoming, q, pairs[q]) == jc[2 * q..2 * q + 2];
      assert calls[t] == calls[2 * q..2 * q + 2][t - 2 * q];
      assert jc[t] == jc[2 * q..2 * q + 2][t - 2 * q];
    }
  }

  /** The pairs (j, j + 1) .. (j, k - 1) of row j, element by element. */
  lemma {:induction false} RowUpToEach(j: nat, k: nat)
    ensures |RowUpTo(j, k)| == if k <= j + 1 then 0 else k - j - 1
    ensures forall q :: 0 <= q < |RowUpTo(j, k)| ==> RowUpTo(j, k)[q] == (j, j + 1 + q)
    decreases k
  {
    if k > j + 1 {
      RowUpToEach(j, k - 1);
    }
  }

  /**
   * The inner loop over k for one j: connecting road `i` gets incoming road
   * j as predecessor and incoming road k as successor, each with the contact
   * point of the end that meets the junction, and a lane-link call with each.
   */
  method ConnectRow(roads: seq<Road>, jid: int, incoming: seq<nat>, startnum: int, j: nat,
                    ghost before: seq<(nat, nat)>, conn0: seq<ConnectingRoad>, calls0: seq<LaneLinkCall>, i0: nat)
    returns (conn: seq<ConnectingRoad>, calls: seq<LaneLinkCall>, i: nat)
    requires IndicesIn(incoming, roads) && j < |incoming| && Within(before, |incoming|)
    requires i0 == |conn0| && ConnectedAlong(roads, jid, incoming, startnum, before, conn0, calls0)
    ensures i == |conn| && Within(before + RowUpTo(j, |incoming|), |incoming|)
    ensures ConnectedAlong(roads, jid, incoming, startnum, before + RowUpTo(j, |incoming|), conn, calls)
  {
    var n := |incoming|;
    conn, calls, i := conn0, calls0, i0;
    ghost var done := before;
    var k: nat := j + 1;
    while k < n
      invariant j + 1 <= k <= n
      invariant |done| == |before| + (k - j - 1) && done[..|before|] == before
      invariant forall q :: |before| <= q < |done| ==> done[q] == (j, j + 1 + q - |before|)
      invariant Within(done, n)
      invariant i == |conn| && ConnectedAlong(roads, jid, incoming, startnum, done, conn, calls)
    {
      var roadJ := roads[incoming[j]];
      var roadK := roads[incoming[k]];
      var cpJ := AttachPoint(roadJ, jid);
      var cpK := AttachPoint(roadK, jid);
      conn := conn + [ConnectingRoad(Link(Some(RoadElement), roadJ.id, cpJ), Link(Some(RoadElement), roadK.id, cpK))];
      calls := calls + [LaneLinks(Connecting(startnum, i), Built(incoming[j])),
                        LaneLinks(Connecting(startnum, i), Built(incoming[k]))];
      AlongSnoc(roads, jid, incoming, startnum, done, conn, calls, (j, k));
      done := done + [(j, k)];
      i := i + 1;
      k := k + 1;
    }
    RowUpToEach(j, n);
    assert done == before + RowUpTo(j, n);
  }

  /** One more pair: `conn` and `calls` grew by its connecting road and its two calls. */
  lemma AlongSnoc(roads: seq<Road>, jid: int, incoming: seq<nat>, startnum: int,
                  pairs: seq<(nat, nat)>, conn: seq<ConnectingRoad>, calls: seq<LaneLinkCall>, p: (nat, nat))
    requires IndicesIn(incoming, roads) && Within(pairs, |incoming|) && p.0 < |incoming| && p.1 < |incoming|
    requires |conn| == |pairs| + 1 && |calls| == 2 * |pairs| + 2
    requires ConnectedAlong(roads, jid, incoming, startnum, pairs, conn[..|pairs|], calls[..2 * |pairs|])
    requires conn[|pairs|] == Connection(roads, jid, incoming, p)
    requires calls[2 * |pairs|..] == PairCalls(startnum, incoming, |pairs|, p)
    ensures Within(pairs + [p], |incoming|)
    ensures ConnectedAlong(roads, jid, incoming, startnum, pairs + [p], conn, calls)
  {
    var ps := pairs + [p];
    forall q | 0 <= q < |ps|
      ensures conn[q] == Connection(roads, jid, incoming, ps[q])
      ensures calls[2 * q..2 * q + 2] == PairCalls(startnum, incoming, q, ps[q])
    {
      if q < |pairs| {
        assert ps[q] == pairs[q];
        assert conn[q] == conn[..|pairs|][q];
        assert calls[2 * q..2 * q + 2] == calls[..2 * |pairs|][2 * q..2 * q + 2];
      }
    }
  }

  /**
   * The nested loops over incoming-road pairs `(j, k)`, j < k, in
   * lexicographic order: connecting road `i` joins incoming road j to
   * incoming road k.
   */
  method ConnectJunction(roads: seq<Road>, jid: int, incoming: seq<nat>, startnum: int)
    returns (conn: seq<ConnectingRoad>, calls: seq<LaneLinkCall>)
    requires IndicesIn(incoming, roads)
    ensures Within(Pairs(|incoming|), |incoming|)
    ensures ConnectedAlong(roads, jid, incoming, startnum, Pairs(|incoming|), conn, calls)
  {
    var n := |incoming|;
    conn, calls := [], [];
    var i := 0;
    var j := 0;
    while j < n - 1
      invariant 0 <= j <= if n == 0 then 0 else n - 1
      invariant i == |conn|
      invariant Within(PairsBefore(j, n), n)
      invariant ConnectedAlong(roads, jid, incoming, startnum, PairsBefore(j, n), conn, calls)
    {
      conn, calls, i := ConnectRow(roads, jid, incoming, startnum, j, PairsBefore(j, n), conn, calls, i);
      j := j + 1;
    }
  }

  /** Six pairs for a 4-way junction, all within range. */
  lemma PairsOfFourWithin()
    ensures Within(Pairs(4), 4) && |Pairs(4)| == 6
  {
    PairsOfFour();
  }

  /** A junction as `create_junction` receives it: its id, numbering offset, incoming roads (positions) and connecting roads. */
  datatype Junction = Junction(id: int, startnum: int, incoming: seq<nat>, connecting: seq<ConnectingRoad>)

  /** The numbering offset of the `n`-th junction built. */
  function Startnum(n: nat): int { 1000 + 6 * n }

  /** The junction objects, in collection order. */
  function JunctionObjects(objects: seq<SceneObject>): seq<SceneObject>
  {
    Filter(objects, IsJunctionObject)
  }

  /** The number of leading junction objects with exactly four incoming roads: where the `break` happens. */
  function ArityCut(jo: seq<SceneObject>): (r: nat)
    ensures r <= |jo|
    ensures forall n :: 0 <= n < r ==> |jo[n].incomingRoads| == 4
    ensures r < |jo| ==> |jo[r].incomingRoads| != 4
  {
    if jo == [] || |jo[0].incomingRoads| != 4 then 0 else 1 + ArityCut(jo[1..])
  }

  /** One more junction object moves the cut only if every earlier one was four-way. */
  lemma {:induction false} ArityCutSnoc(jo: seq<SceneObject>, o: SceneObject)
    ensures ArityCut(jo + [o]) ==
            if ArityCut(jo) < |jo| then ArityCut(jo)
            else if |o.incomingRoads| == 4 then |jo| + 1 else |jo|
  {
    if jo != [] {
      assert (jo + [o])[1..] == jo[1..] + [o];
      ArityCutSnoc(jo[1..], o);
    }
  }

  /**
   * The junction built for junction object `o` as the `n`-th junction: its
   * four incoming roads looked up slot by slot, numbering offset
   * `1000 + 6n`, and one connecting road per pair of incoming roads.
   */
  function JunctionOf(roads: seq<Road>, o: SceneObject, n: nat): (r: Result<Junction, ExportError>)
    ensures r.Success? <==> SlotsResolve(roads, o)
    ensures r.Success? ==> |r.value.incoming| == 4
    ensures r.Failure? ==> Failure(r.error) == LookupSlots(roads, o.idXodr, o.incomingRoads, Slots)
  {
    match LookupSlots(roads, o.idXodr, o.incomingRoads, Slots)
    case Failure(e) => Failure(e)
    case Success(incoming) =>
      LookupSlotsInRange(roads, o.idXodr, o.incomingRoads, Slots);
      PairsOfFourWithin();
      Success(Junction(o.idXodr, Startnum(n), incoming, Connections(roads, o.idXodr, incoming, Pairs(4))))
  }

  /**
   * A junction built from junction object `o` as the `n`-th has the
   * object's id and numbering offset `1000 + 6n`, and its incoming road `s`
   * is the first road with the id in slot `s` (right, up, left, down).
   */
  lemma JunctionIncoming(roads: seq<Road>, o: SceneObject, n: nat)
    requires JunctionOf(roads, o, n).Success?
    ensures var jn := JunctionOf(roads, o, n).value;
            jn.id == o.idXodr && jn.startnum == 1000 + 6 * n && |jn.incoming| == 4 &&
            forall s :: 0 <= s < 4 ==> Slots[s] in o.incomingRoads && FindRoad(roads, o.incomingRoads[Slots[s]]) == Some(jn.incoming[s])
  {
    LookupSlotsMeaning(roads, o.idXodr, o.incomingRoads, Slots);
  }

  /** Its connecting road `q` joins the incoming roads of the `q`-th pair, six in all. */
  lemma JunctionConnecting(roads: seq<Road>, o: SceneObject, n: nat)
    requires JunctionOf(roads, o, n).Success?
    ensures var jn := JunctionOf(roads, o, n).value;
            |jn.incoming| == 4 && IndicesIn(jn.incoming, roads) &&
            Within(Pairs(4), 4) && |Pairs(4)| == 6 && |jn.connecting| == 6 &&
            forall q :: 0 <= q < 6 ==> jn.connecting[q] == Connection(roads, jn.id, jn.incoming, Pairs(4)[q])
  {
    LookupSlotsInRange(roads, o.idXodr, o.incomingRoads, Slots);
    PairsOfFourWithin();
    var jn := JunctionOf(roads, o, n).value;
    ConnectionsEach(roads, jn.id, jn.incoming, Pairs(4));
  }

  /** Junction object `o` has all four slots and each names a road. */
  predicate SlotsResolve(roads: seq<Road>, o: SceneObject)
  {
    LookupSlots(roads, o.idXodr, o.incomingRoads, Slots).Success?
  }

  /** The lane-link calls of junction `jn`'s connecting roads. */
  function JunctionLaneLinks(jn: Junction): seq<LaneLinkCall>
    requires |jn.incoming| == 4
  {
    PairsOfFourWithin();
    JunctionCalls(jn.startnum, jn.incoming, Pairs(4))
  }

  /** Every junction of `js` has four incoming roads. */
  predicate FourWay(js: seq<Junction>)
  {
    js == [] || (FourWay(js[..|js| - 1]) && |js[|js| - 1].incoming| == 4)
  }

  /** The lane-link calls of all junctions, junction by junction. */
  function AllJunctionLaneLinks(js: seq<Junction>): seq<LaneLinkCall>
    requires FourWay(js)
  {
    if js == [] then [] else AllJunctionLaneLinks(js[..|js| - 1]) + JunctionLaneLinks(js[|js| - 1])
  }

  lemma FourWaySnoc(js: seq<Junction>, jn: Junction)
    requires FourWay(js) && |jn.incoming| == 4
    ensures FourWay(js + [jn])
    ensures AllJunctionLaneLinks(js + [jn]) == AllJunctionLaneLinks(js) + JunctionLaneLinks(jn)
  {
    assert (js + [jn])[..|js|] == js;
  }

  /** The outcome of the junction loop: junctions built, lane-link calls made, and whether the arity error was reported. */
  datatype JunctionPass = JunctionPass(junctions: seq<Junction>, laneLinks: seq<LaneLinkCall>, arityError: bool)

  /**
   * What the junction loop has produced after scanning `objects`: objects
   * that are not junctions are skipped; after the arity error nothing more
   * happens (`break`); a failed slot lookup stops the export.
   */
  function ScanJunctions(roads: seq<Road>, objects: seq<SceneObject>): Result<JunctionPass, ExportError>
  {
    if objects == [] then Success(JunctionPass([], [], false))
    else ScanOne(roads, ScanJunctions(roads, objects[..|objects| - 1]), objects[|objects| - 1])
  }

  /** One object more for the junction loop, after the scan so far produced `r`. */
  function ScanOne(roads: seq<Road>, r: Result<JunctionPass, ExportError>, o: SceneObject): Result<JunctionPass, ExportError>
  {
    match r
    case Failure(e) => Failure(e)
    case Success(p) =>
      if p.arityError || !IsJunctionObject(o) then Success(p)
      else if |o.incomingRoads| != 4 then Success(p.(arityError := true))
      else match JunctionOf(roads, o, |p.junctions|)
        case Failure(e) => Failure(e)
        case Success(jn) => Success(JunctionPass(p.junctions + [jn], p.laneLinks + JunctionLaneLinks(jn), false))
  }

  lemma ScanStep(roads: seq<Road>, objects: seq<SceneObject>, t: nat)
    requires t < |objects|
    ensures ScanJunctions(roads, objects[..t + 1]) == ScanOne(roads, ScanJunctions(roads, objects[..t]), objects[t])
  {
    assert objects[..t + 1][..t] == objects[..t];
  }

  /** Once the loop has stopped (error or `break`), further objects change nothing. */
  lemma {:induction false} ScanStops(roads: seq<Road>, objects: seq<SceneObject>, t: nat)
    requires t <= |objects|
    requires ScanJunctions(roads, objects[..t]).Failure? || ScanJunctions(roads, objects[..t]).value.arityError
    ensures ScanJunctions(roads, objects) == ScanJunctions(roads, objects[..t])
  {
    if t == |objects| {
      assert objects[..t] == objects;
    } else {
      var pre := objects[..|objects| - 1];
      assert pre[..t] == objects[..t];
      ScanStops(roads, pre, t);
    }
  }

  /**
   * What a scan result means for the junction objects `jo` seen so far, in
   * terms of the cut at the first one that is not four-way: the scan succeeds
   * exactly when every junction object before the cut has resolvable slots;
   * then junction `n` is the one built from the `n`-th junction object, the
   * arity error is reported exactly when some junction object is not
   * four-way, and the lane-link calls are those of the junctions in order;
   * a failure reports the slot lookup of the first junction object whose
   * slots do not resolve.
   */
  ghost predicate ScanMeans(roads: seq<Road>, jo: seq<SceneObject>, r: Result<JunctionPass, ExportError>)
  {
    (r.Success? <==> ResolveBelow(roads, jo, ArityCut(jo))) &&
    (r.Success? ==> |r.value.junctions| == ArityCut(jo) &&
                    r.value.arityError == (ArityCut(jo) < |jo|) &&
                    BuiltFrom(roads, jo, r.value.junctions, ArityCut(jo)) &&
                    FourWay(r.value.junctions) && r.value.laneLinks == AllJunctionLaneLinks(r.value.junctions)) &&
    (r.Failure? ==> exists n :: 0 <= n < ArityCut(jo) && FailsAt(roads, jo, r.error, n))
  }

  /** Junction object `n` is the first whose slots do not resolve, and its lookup reports `e`. */
  ghost predicate FailsAt(roads: seq<Road>, jo: seq<SceneObject>, e: ExportError, n: nat)
  {
    n < |jo| && ResolveBelow(roads, jo, n) &&
    Failure(e) == LookupSlots(roads, jo[n].idXodr, jo[n].incomingRoads, Slots)
  }

  lemma FailsAtSnoc(roads: seq<Road>, jo: seq<SceneObject>, o: SceneObject, e: ExportError, n: nat)
    requires FailsAt(roads, jo, e, n)
    ensures FailsAt(roads, jo + [o], e, n)
  {
    ResolveBelowSnoc(roads, jo, o, n);
    assert (jo + [o])[n] == jo[n];
  }

  lemma BuiltFromExtend(roads: seq<Road>, jo: seq<SceneObject>, o: SceneObject, js: seq<Junction>, cut: nat)
    requires cut <= |jo| && cut <= |js| && BuiltFrom(roads, jo, js, cut)
    ensures BuiltFrom(roads, jo + [o], js, cut)
  {
    assert forall n :: 0 <= n < |jo| ==> (jo + [o])[n] == jo[n];
  }

  /** A scan that has stopped keeps its meaning when one more junction object follows. */
  lemma MeansStopped(roads: seq<Road>, jo: seq<SceneObject>, o: SceneObject, r: Result<JunctionPass, ExportError>)
    requires ScanMeans(roads, jo, r) && (r.Failure? || r.value.arityError)
    ensures ScanMeans(roads, jo + [o], r)
  {
    ArityCutSnoc(jo, o);
    var cut := ArityCut(jo);
    ResolveBelowSnoc(roads, jo, o, cut);
    if r.Failure? {
      var n :| 0 <= n < cut && FailsAt(roads, jo, r.error, n);
      FailsAtSnoc(roads, jo, o, r.error, n);
    } else {
      BuiltFromExtend(roads, jo, o, r.value.junctions, cut);
    }
  }

  /** A junction object that is not four-way after an unbroken scan: the arity error is reported. */
  lemma MeansArity(roads: seq<Road>, jo: seq<SceneObject>, o: SceneObject, p: JunctionPass)
    requires ScanMeans(roads, jo, Success(p)) && !p.arityError && |o.incomingRoads| != 4
    ensures ScanMeans(roads, jo + [o], Success(p.(arityError := true)))
  {
    ArityCutSnoc(jo, o);
    ResolveBelowSnoc(roads, jo, o, |jo|);
    BuiltFromExtend(roads, jo, o, p.junctions, |jo|);
  }

  /** A four-way junction object whose slots do not resolve after an unbroken scan: the export fails. */
  lemma MeansFail(roads: seq<Road>, jo: seq<SceneObject>, o: SceneObject, p: JunctionPass, e: ExportError)
    requires ScanMeans(roads, jo, Success(p)) && !p.arityError && |o.incomingRoads| == 4
    requires JunctionOf(roads, o, |p.junctions|) == Failure(e)
    ensures ScanMeans(roads, jo + [o], Failure(e))
  {
    ArityCutSnoc(jo, o);
    ResolveBelowSnoc(roads, jo, o, |jo|);
    assert (jo + [o])[|jo|] == o;
    assert FailsAt(roads, jo + [o], e, |jo|);
  }

  /** Junction `n` is built from junction object `n`, for every `n` below `cut`. */
  ghost predicate BuiltFrom(roads: seq<Road>, jo: seq<SceneObject>, js: seq<Junction>, cut: nat)
    requires cut <= |jo| && cut <= |js|
  {
    forall n :: 0 <= n < cut ==> JunctionOf(roads, jo[n], n) == Success(js[n])
  }

  lemma BuiltFromSnoc(roads: seq<Road>, jo: seq<SceneObject>, o: SceneObject, js: seq<Junction>, jn: Junction)
    requires |js| == |jo| && BuiltFrom(roads, jo, js, |jo|)
    requires JunctionOf(roads, o, |jo|) == Success(jn)
    ensures BuiltFrom(roads, jo + [o], js + [jn], |jo| + 1)
  {
    forall n | 0 <= n < |jo| + 1
      ensures JunctionOf(roads, (jo + [o])[n], n) == Success((js + [jn])[n])
    {
      if n < |jo| {
        assert (jo + [o])[n] == jo[n] && (js + [jn])[n] == js[n];
      }
    }
  }

  /** Every junction object below `cut` has resolvable slots. */
  ghost predicate ResolveBelow(roads: seq<Road>, jo: seq<SceneObject>, cut: nat)
    requires cut <= |jo|
  {
    forall n :: 0 <= n < cut ==> SlotsResolve(roads, jo[n])
  }

  lemma ResolveBelowSnoc(roads: seq<Road>, jo: seq<SceneObject>, o: SceneObject, cut: nat)
    requires cut <= |jo|
    ensures ResolveBelow(roads, jo + [o], cut) == ResolveBelow(roads, jo, cut)
  {
    assert forall n :: 0 <= n < |jo| ==> (jo + [o])[n] == jo[n];
  }

  /** A four-way junction object whose slots resolve after an unbroken scan: its junction is appended. */
  lemma MeansBuilt(roads: seq<Road>, jo: seq<SceneObject>, o: SceneObject, p: JunctionPass, jn: Junction)
    requires ScanMeans(roads, jo, Success(p)) && !p.arityError && |o.incomingRoads| == 4
    requires JunctionOf(roads, o, |p.junctions|) == Success(jn)
    ensures ScanMeans(roads, jo + [o], Success(JunctionPass(p.junctions + [jn], p.laneLinks + JunctionLaneLinks(jn), false)))
  {
    ArityCutSnoc(jo, o);
    FourWaySnoc(p.junctions, jn);
    assert BuiltFrom(roads, jo, p.junctions, |jo|);
    BuiltFromSnoc(roads, jo, o, p.junctions, jn);
    assert ResolveBelow(roads, jo, |jo|);
    ResolveBelowSnoc(roads, jo, o, |jo|);
    assert (jo + [o])[|jo|] == o;
  }

  /** The scan of the whole collection means what `ScanMeans` says of its junction objects. */
  lemma {:induction false} ScanMeaning(roads: seq<Road>, objects: seq<SceneObject>)
    ensures ScanMeans(roads, JunctionObjects(objects), ScanJunctions(roads, objects))
  {
    if objects != [] {
      var pre := objects[..|objects| - 1];
      var o := objects[|objects| - 1];
      var jp := JunctionObjects(pre);
      var r := ScanJunctions(roads, pre);
      ScanMeaning(roads, pre);
      if IsJunctionObject(o) {
        assert JunctionObjects(objects) == jp + [o];
        if r.Failure? || r.value.arityError {
          MeansStopped(roads, jp, o, r);
        } else if |o.incomingRoads| != 4 {
          MeansArity(roads, jp, o, r.value);
        } else {
          match JunctionOf(roads, o, |r.value.junctions|)
          case Failure(e) => MeansFail(roads, jp, o, r.value, e);
          case Success(jn) => MeansBuilt(roads, jp, o, r.value, jn);
        }
      } else {
        assert JunctionObjects(objects) == jp;
      }
    }
  }

  /**
   * Junction `n` of a successful scan is numbered from `1000 + 6n` and has
   * six connecting roads; each offset lies at least six above the one
   * before, so the numbers `startnum .. startnum + 5` of different junctions
   * never collide.
   */
  lemma JunctionNumbering(roads: seq<Road>, objects: seq<SceneObject>)
    ensures ScanJunctions(roads, objects).Success? ==>
            var js := ScanJunctions(roads, objects).value.junctions;
            (forall n :: 0 <= n < |js| ==> js[n].startnum == 1000 + 6 * n && |js[n].connecting| == 6) &&
            forall n, m :: 0 <= n < m < |js| ==> js[n].startnum + 6 <= js[m].startnum
  {
    if ScanJunctions(roads, objects).Failure? {
      return;
    }
    ScanMeaning(roads, objects);
    var jo := JunctionObjects(objects);
    var js := ScanJunctions(roads, objects).value.junctions;
    forall n | 0 <= n < |js|
      ensures js[n].startnum == 1000 + 6 * n && |js[n].connecting| == 6
    {
      assert JunctionOf(roads, jo[n], n) == Success(js[n]);
      JunctionConnecting(roads, jo[n], n);
    }
  }

  /**
   * One pass of the junction loop body for a junction object with four
   * incoming roads, the `n`-th junction built: the incoming roads are looked
   * up slot by slot, the connecting roads are numbered from `1000 + 6n` and
   * linked, and the junction is assembled.
   */
  method BuildJunction(roads: seq<Road>, obj: SceneObject, n: nat) returns (r: Result<(Junction, seq<LaneLinkCall>), ExportError>)
    ensures r.Success? <==> JunctionOf(roads, obj, n).Success?
    ensures r.Success? ==> (Success(r.value.0) == JunctionOf(roads, obj, n) &&
                            |r.value.0.incoming| == 4 && r.value.1 == JunctionLaneLinks(r.value.0))
    ensures r.Failure? ==> Failure(r.error) == JunctionOf(roads, obj, n)
  {
    var incoming := LookupSlots(roads, obj.idXodr, obj.incomingRoads, Slots);
    if incoming.Failure? {
      return Failure(incoming.error);
    }
    LookupSlotsInRange(roads, obj.idXodr, obj.incomingRoads, Slots);
    var connecting, calls := ConnectJunction(roads, obj.idXodr, incoming.value, Startnum(n));
    PairsOfFourWithin();
    AlongIsConnections(roads, obj.idXodr, incoming.value, Startnum(n), Pairs(4), connecting, calls);
    return Success((Junction(obj.idXodr, Startnum(n), incoming.value, connecting), calls));
  }

  /**
   * The junction loop of `export_openscenario`. Junction objects are taken in
   * collection order; the first one without exactly four incoming roads
   * reports an error and ends the loop (`break`), keeping what was built. A
   * missing slot or an id that names no road stops the export.
   */
  method BuildJunctions(objects: seq<SceneObject>, roads: seq<Road>) returns (r: Result<JunctionPass, ExportError>)
    ensures r == ScanJunctions(roads, objects)
  {
    var junctions: seq<Junction> := [];
    var laneLinks: seq<LaneLinkCall> := [];
    var numJunctions := 0;
    var t := 0;
    while t < |objects|
      invariant 0 <= t <= |objects|
      invariant numJunctions == |junctions|
      invariant ScanJunctions(roads, objects[..t]) == Success(JunctionPass(junctions, laneLinks, false))
    {
      var obj := objects[t];
      ScanStep(roads, objects, t);
      if IsJunctionObject(obj) {
        if |obj.incomingRoads| != 4 {
          // reported as 'Junction must have 4 connected roads.'
          ScanStops(roads, objects, t + 1);
          return Success(JunctionPass(junctions, laneLinks, true));
        }
        var built := BuildJunction(roads, obj, numJunctions);
        if built.Failure? {
          ScanStops(roads, objects, t + 1);
          return Failure(built.error);
        }
        junctions := junctions + [built.value.0];
        laneLinks := laneLinks + built.value.1;
        numJunctions := numJunctions + 1;
      }
      t := t + 1;
    }
    assert objects[..t] == objects;
    return Success(JunctionPass(junctions, laneLinks, false));
  }
}
