/**
 * Two places where `export_openscenario` (export.py) reads a local variable
 * that the current iteration may not have assigned. Each is modelled as
 * written, next to a concrete input on which it differs from the corrected
 * behaviour that the rest of the model uses, and a lemma saying when the two
 * agree.
 *
 * Python locals live for the whole function, so a variable assigned in an
 * earlier iteration keeps its value; one never assigned raises a NameError
 * (`UnboundLocalError`). Below, `None` stands for "never assigned".
 */
module ExportFindings {
  import opened Wrappers
  import opened Seqs
  import opened ExportModel
  import opened ExportNetwork

  // ---------------------------------------------------------------------------
  // The contact point of an incoming road (export.py:280-291)
  // ---------------------------------------------------------------------------

  /**
   * `cp_type_j` / `cp_type_k` after the two `if` blocks for one incoming
   * road, given their value `prev` before them: set to start by a matching
   * predecessor, then to end by a matching successor, and otherwise left as
   * they were.
   */
  function StaleAttachPoint(prev: Option<ContactPoint>, road: Road, jid: int): (r: Option<ContactPoint>)
    ensures LinksTo(road.predecessor, jid) || LinksTo(road.successor, jid) ==> r == AttachPoint(road, jid)
    ensures !LinksTo(road.predecessor, jid) && !LinksTo(road.successor, jid) ==> r == prev
  {
    var afterPredecessor := if LinksTo(road.predecessor, jid) then Some(Start) else prev;
    if LinksTo(road.successor, jid) then Some(End) else afterPredecessor
  }

  /** The incoming roads `(incoming_roads[j], incoming_roads[k])` of each pair, in order. */
  function Ends(roads: seq<Road>, incoming: seq<nat>, pairs: seq<(nat, nat)>): (r: seq<(Road, Road)>)
    requires IndicesIn(incoming, roads) && Within(pairs, |incoming|)
    ensures |r| == |pairs|
  {
    if pairs == [] then []
    else
      assert Within(pairs[1..], |incoming|) by {
        forall q | 0 <= q < |pairs[1..]| ensures pairs[1..][q] == pairs[q + 1] { }
      }
      [(roads[incoming[pairs[0].0]], roads[incoming[pairs[0].1]])] + Ends(roads, incoming, pairs[1..])
  }

  lemma {:induction false} EndsEach(roads: seq<Road>, incoming: seq<nat>, pairs: seq<(nat, nat)>)
    requires IndicesIn(incoming, roads) && Within(pairs, |incoming|)
    ensures forall q :: 0 <= q < |pairs| ==>
              Ends(roads, incoming, pairs)[q] == (roads[incoming[pairs[q].0]], roads[incoming[pairs[q].1]])
  {
    if pairs != [] {
      EndsEach(roads, incoming, pairs[1..]);
      forall q | 0 <= q < |pairs|
        ensures Ends(roads, incoming, pairs)[q] == (roads[incoming[pairs[q].0]], roads[incoming[pairs[q].1]])
      {
        if q > 0 {
          assert pairs[q] == pairs[1..][q - 1];
        }
      }
    }
  }

  /**
   * The connecting roads of the nested pair loops as written, over the
   * incoming roads of each pair: the contact points carry over from the
   * previous pair (and, for the first pair, from the previous junction:
   * `cpJ` and `cpK`); reading one that was never assigned stops the export.
   */
  function ConnectionsAsWritten(jid: int, ends: seq<(Road, Road)>, cpJ: Option<ContactPoint>, cpK: Option<ContactPoint>)
    : (r: Result<seq<ConnectingRoad>, ExportError>)
    ensures r.Success? ==> |r.value| == |ends|
  {
    if ends == [] then Success([])
    else
      var (a, b) := ends[0];
      var cj := StaleAttachPoint(cpJ, a, jid);
      var ck := StaleAttachPoint(cpK, b, jid);
      if cj.None? || ck.None? then Failure(UnboundContactPoint(jid))
      else
        match ConnectionsAsWritten(jid, ends[1..], cj, ck)
        case Failure(e) => Failure(e)
        case Success(rest) =>
          Success([ConnectingRoad(Link(Some(RoadElement), a.id, cj), Link(Some(RoadElement), b.id, ck))] + rest)
  }

  /** Both incoming roads of every pair have a link to the junction. */
  predicate AllAttached(jid: int, ends: seq<(Road, Road)>)
  {
    forall q :: 0 <= q < |ends| ==> AttachPoint(ends[q].0, jid).Some? && AttachPoint(ends[q].1, jid).Some?
  }

  /** When every incoming road links to the junction, the code as written joins each pair as the corrected model does. */
  lemma {:induction false} AsWrittenAttachedAt(jid: int, ends: seq<(Road, Road)>, cpJ: Option<ContactPoint>, cpK: Option<ContactPoint>)
    requires AllAttached(jid, ends)
    ensures var r := ConnectionsAsWritten(jid, ends, cpJ, cpK);
            r.Success? && forall q :: 0 <= q < |ends| ==> r.value[q] == Join(jid, ends[q].0, ends[q].1)
  {
    if ends != [] {
      var (a, b) := ends[0];
      var cj := StaleAttachPoint(cpJ, a, jid);
      var ck := StaleAttachPoint(cpK, b, jid);
      assert AllAttached(jid, ends[1..]) by {
        assert forall q :: 0 <= q < |ends[1..]| ==> ends[1..][q] == ends[q + 1];
      }
      AsWrittenAttachedAt(jid, ends[1..], cj, ck);
      var r := ConnectionsAsWritten(jid, ends, cpJ, cpK);
      forall q | 0 <= q < |ends|
        ensures r.value[q] == Join(jid, ends[q].0, ends[q].1)
      {
        if q > 0 {
          assert ends[q] == ends[1..][q - 1];
        }
      }
    }
  }

  /** Hence, for a junction whose incoming roads all link to it, as written and corrected agree on every pair list. */
  lemma AsWrittenAgreesWhenAttached(roads: seq<Road>, jid: int, incoming: seq<nat>, pairs: seq<(nat, nat)>,
                                    cpJ: Option<ContactPoint>, cpK: Option<ContactPoint>)
    requires IndicesIn(incoming, roads) && Within(pairs, |incoming|)
    requires forall t :: 0 <= t < |incoming| ==> AttachPoint(roads[incoming[t]], jid).Some?
    ensures ConnectionsAsWritten(jid, Ends(roads, incoming, pairs), cpJ, cpK) == Success(Connections(roads, jid, incoming, pairs))
  {
    var ends := Ends(roads, incoming, pairs);
    EndsEach(roads, incoming, pairs);
    assert AllAttached(jid, ends) by {
      forall q | 0 <= q < |ends|
        ensures AttachPoint(ends[q].0, jid).Some? && AttachPoint(ends[q].1, jid).Some?
      {
        assert ends[q] == (roads[incoming[pairs[q].0]], roads[incoming[pairs[q].1]]);
      }
    }
    AsWrittenAttachedAt(jid, ends, cpJ, cpK);
    ConnectionsEach(roads, jid, incoming, pairs);
    var r := ConnectionsAsWritten(jid, ends, cpJ, cpK).value;
    assert r == Connections(roads, jid, incoming, pairs);
  }

  /** Once both contact points have been assigned, the loops as written never fail. */
  lemma {:induction false} AsWrittenAssignedSucceeds(jid: int, ends: seq<(Road, Road)>, cpJ: Option<ContactPoint>, cpK: Option<ContactPoint>)
    requires cpJ.Some? && cpK.Some?
    ensures ConnectionsAsWritten(jid, ends, cpJ, cpK).Success?
  {
    if ends != [] {
      var (a, b) := ends[0];
      AsWrittenAssignedSucceeds(jid, ends[1..], StaleAttachPoint(cpJ, a, jid), StaleAttachPoint(cpK, b, jid));
    }
  }

  /** A road that meets junction 100 at its end, at its start, or not at all. */
  function ExampleRoad(id: int, atStart: bool, atEnd: bool): Road
  {
    var toJunction := Some(Link(Some(JunctionElement), 100, None));
    Road(id, PlanView(0.0, 0.0, 0.0, Line(10.0)), if atStart then toJunction else None, if atEnd then toJunction else None)
  }

  /** Four roads around junction 100; the last one (slot 'cp_down') has no link to it. */
  const Right := ExampleRoad(1, false, true)
  const Up := ExampleRoad(2, true, false)
  const Left := ExampleRoad(3, false, true)
  const Down := ExampleRoad(4, false, false)
  const ExampleRoads: seq<Road> := [Right, Up, Left, Down]

  /** The incoming roads of the first three pairs of that junction: (0, 1), (0, 2) and (0, 3). */
  lemma ExampleEnds()
    ensures Within(Pairs(4), 4)
    ensures var e := Ends(ExampleRoads, [0, 1, 2, 3], Pairs(4));
            e[0] == (Right, Up) && e[1] == (Right, Left) && e[2] == (Right, Down)
  {
    PairsOfFour();
    var roads, incoming, pairs := ExampleRoads, [0, 1, 2, 3], Pairs(4);
    var e2 := Ends(roads, incoming, pairs[2..]);
    assert e2[0] == (Right, Down);
    var e1 := Ends(roads, incoming, pairs[1..]);
    assert pairs[1..][1..] == pairs[2..];
    assert e1[0] == (Right, Left) && e1[1..] == e2;
    var e0 := Ends(roads, incoming, pairs);
    assert e0[0] == (Right, Up) && e0[1..] == e1;
  }

  /** From pair (0, 3) on, after pair (0, 2) left both contact points at end: road 4 gets end. */
  lemma {:induction false} StaleFromRightDown(ends: seq<(Road, Road)>)
    requires |ends| > 0 && ends[0] == (Right, Down)
    ensures var w := ConnectionsAsWritten(100, ends, Some(End), Some(End));
            w.Success? && w.value[0].successor.contactPoint == Some(End)
  {
    AsWrittenAssignedSucceeds(100, ends[1..], Some(End), Some(End));
  }

  /** From pair (0, 2) on, after pair (0, 1) set end and start: road 4 in the next pair gets end. */
  lemma {:induction false} StaleFromRightLeft(ends: seq<(Road, Road)>)
    requires |ends| > 1 && ends[0] == (Right, Left) && ends[1] == (Right, Down)
    ensures var w := ConnectionsAsWritten(100, ends, Some(End), Some(Start));
            w.Success? && w.value[1].successor.contactPoint == Some(End)
  {
    StaleFromRightDown(ends[1..]);
  }

  /**
   * Junction 100 whose fourth incoming road has no link to it, as written:
   * connecting road 2 (pair (0, 3)) gets contact point end for that road,
   * left over from pair (0, 2).
   */
  lemma StaleContactPointExample()
    ensures Within(Pairs(4), 4)
    ensures var w := ConnectionsAsWritten(100, Ends(ExampleRoads, [0, 1, 2, 3], Pairs(4)), None, None);
            w.Success? && w.value[2].successor.contactPoint == Some(End)
  {
    ExampleEnds();
    var e := Ends(ExampleRoads, [0, 1, 2, 3], Pairs(4));
    StaleFromRightLeft(e[1..]);
  }

  /** The same junction, corrected: connecting road 2 records no contact point for road 4. */
  lemma StaleContactPointCorrected()
    ensures Within(Pairs(4), 4)
    ensures Connections(ExampleRoads, 100, [0, 1, 2, 3], Pairs(4))[2].successor.contactPoint == None
  {
    PairsOfFour();
    PairsOfFourWithin();
    ConnectionsAt(ExampleRoads, 100, [0, 1, 2, 3], Pairs(4), 2);
  }

  // ---------------------------------------------------------------------------
  // The road of an object with unknown geometry (export.py:192-242)
  // ---------------------------------------------------------------------------

  /**
   * The state of the road loop as written: the roads appended so far, the
   * local `road` (`None` before its first assignment), and how many trailing
   * entries of the list are that same Python object.
   */
  datatype RoadLoop = RoadLoop(roads: seq<Road>, road: Option<Road>, copies: nat)

  /** `road.add_predecessor` / `road.add_successor` for the links the object has, each replacing the road's link. */
  function Relink(objects: seq<SceneObject>, road: Road, o: SceneObject): (r: Road)
    ensures r.id == road.id && r.planView == road.planView
    ensures r.predecessor == if o.linkPredecessor.Some? then ResolveLink(objects, o.linkPredecessor) else road.predecessor
    ensures r.successor == if o.linkSuccessor.Some? then ResolveLink(objects, o.linkSuccessor) else road.successor
  {
    var withPredecessor := if o.linkPredecessor.Some? then road.(predecessor := ResolveLink(objects, o.linkPredecessor)) else road;
    if o.linkSuccessor.Some? then withPredecessor.(successor := ResolveLink(objects, o.linkSuccessor)) else withPredecessor
  }

  /**
   * The road loop as written over the first `t` objects. A road object with
   * a geometry other than 'line' and 'arc' assigns no new `road`: the
   * previous road is re-linked with this object's links and appended once
   * more (every list entry that is that object sees the new links); if
   * there is no previous road, reading `road` raises.
   */
  function RoadLoopAsWritten(objects: seq<SceneObject>, t: nat): (r: Result<RoadLoop, ExportError>)
    requires t <= |objects|
    ensures r.Success? ==> r.value.copies <= |r.value.roads| && (r.value.road.Some? <==> r.value.copies > 0)
  {
    if t == 0 then Success(RoadLoop([], None, 0))
    else
      match RoadLoopAsWritten(objects, t - 1)
      case Failure(e) => Failure(e)
      case Success(st) =>
        var o := objects[t - 1];
        if !IsRoadObject(o) then Success(st)
        else match BuildRoad(objects, o)
          case Some(built) => Success(RoadLoop(st.roads + [built], Some(built), 1))
          case None =>
            if st.road.None? then Failure(UnboundRoad(o.idXodr))
            else
              var relinked := Relink(objects, st.road.value, o);
              var kept := st.roads[..|st.roads| - st.copies];
              Success(RoadLoop(kept + seq(st.copies + 1, _ => relinked), Some(relinked), st.copies + 1))
  }

  /** With only lines and arcs, the loop as written builds exactly the roads the corrected loop builds. */
  lemma {:induction false} RoadLoopAgrees(objects: seq<SceneObject>, t: nat)
    requires t <= |objects|
    requires forall k :: 0 <= k < t ==> !BadGeometry(objects, k)
    ensures RoadLoopAsWritten(objects, t).Success?
    ensures RoadsBuilt(objects, objects[..t], RoadLoopAsWritten(objects, t).value.roads)
  {
    if t > 0 {
      RoadLoopAgrees(objects, t - 1);
      RoadsBuiltSnoc(objects, t - 1, RoadLoopAsWritten(objects, t - 1).value.roads);
      assert !BadGeometry(objects, t - 1);
    } else {
      assert objects[..0] == [];
    }
  }

  /** A road object named 'road_<id>' with a straight geometry and no links. */
  function ExampleObject(id: int, geometry: string): SceneObject
  {
    SceneObject(if id == 1 then "road_1" else "road_2", id, geometry, 0.0, 0.0, 0.0, 10.0, 0.0, 0.0, None, None, map[])
  }

  /**
   * A line road followed by a road object with geometry 'spiral': as written
   * the first road is listed twice and the second object yields no road; the
   * corrected loop stops the export.
   */
  lemma StaleRoadExample()
    ensures var objects := [ExampleObject(1, "line"), ExampleObject(2, "spiral")];
            var road1 := Road(1, PlanView(0.0, 0.0, 0.0, Line(10.0)), None, None);
            RoadLoopAsWritten(objects, 2) == Success(RoadLoop([road1, road1], Some(road1), 2)) &&
            BadGeometry(objects, 1) && !BadGeometry(objects, 0)
  {
    var objects := [ExampleObject(1, "line"), ExampleObject(2, "spiral")];
    assert IsRoadObject(objects[0]) by { assert objects[0].name[..4] == "road"; }
    assert IsRoadObject(objects[1]) by { assert objects[1].name[..4] == "road"; }
    var road1 := Road(1, PlanView(0.0, 0.0, 0.0, Line(10.0)), None, None);
    assert RoadLoopAsWritten(objects, 0) == Success(RoadLoop([], None, 0));
    assert BuildRoad(objects, objects[0]) == Some(road1);
    assert BuildRoad(objects, objects[1]) == None;
    assert objects[1 - 1] == objects[0];
    assert [] + [road1] == [road1];
    assert RoadLoopAsWritten(objects, 1) == Success(RoadLoop([road1], Some(road1), 1));
    assert [road1][..1 - 1] + seq(2, _ => road1) == [road1, road1];
  }

  /** A first road object with geometry 'spiral': as written, `road` is read before any assignment. */
  lemma UnboundRoadExample()
    ensures RoadLoopAsWritten([ExampleObject(2, "spiral")], 1) == Failure(UnboundRoad(2))
  {
    var objects := [ExampleObject(2, "spiral")];
    assert IsRoadObject(objects[0]) by { assert objects[0].name[..4] == "road"; }
  }
}
