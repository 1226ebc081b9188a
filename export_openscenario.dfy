/**
 * `export_openscenario` (export.py): the OpenDRIVE network built from the
 * 'OpenDRIVE' collection and written to `<directory>/xodr/<filename>.xodr`,
 * then the scenario built from the 'OpenSCENARIO' collection and written to
 * `<directory>/xosc/<filename>.xosc`, which refers to the network file.
 */
module ExportOpenScenario {
  import opened Wrappers
  import opened Seqs
  import opened ExportModel
  import opened ExportNetwork
  import opened ExportScenario

  /**
   * The OpenDRIVE document as written: the roads of the road objects, the
   * lane-link calls of the road-to-road pass, and what the junction loop
   * produced (its junctions, their lane-link calls, and whether it stopped
   * at a junction without four incoming roads).
   */
  datatype Network = Network(roads: seq<Road>, laneLinks: seq<LaneLinkCall>, junctions: JunctionPass)

  /** What the export writes, and where. */
  datatype Export = Export(xodrPath: string, network: Network, xoscPath: string, scenario: Scenario)

  /** `pathlib.Path(directory) / 'xodr' / (filename + '.xodr')`. */
  function XodrPath(directory: string, filename: string): string
  {
    directory + "/xodr/" + filename + ".xodr"
  }

  /** `pathlib.Path(directory) / 'xosc' / (filename + '.xosc')`. */
  function XoscPath(directory: string, filename: string): string
  {
    directory + "/xosc/" + filename + ".xosc"
  }

  /** No road object has a geometry other than 'line' or 'arc'. */
  predicate GeometriesKnown(odr: seq<SceneObject>)
  {
    forall k :: 0 <= k < |odr| ==> !BadGeometry(odr, k)
  }

  /**
   * The export. It stops, writing nothing, at the first road object whose
   * geometry is unknown, or when the junction loop fails; otherwise the
   * network holds the roads built from the road objects in order, the
   * lane-link calls of the second pass, and the junction loop's result
   * (including the case where it broke off at a junction without four
   * incoming roads: the network is written all the same), and the scenario
   * refers to the network file just written.
   */
  method ExportOpenScenario(directory: string, filename: string, meshFileType: string,
                            odr: seq<SceneObject>, osc: Option<seq<ScenarioObject>>)
    returns (r: Result<Export, ExportError>)
    ensures r.Success? ==>
              GeometriesKnown(odr) &&
              r.value.xodrPath == XodrPath(directory, filename) &&
              r.value.xoscPath == XoscPath(directory, filename) &&
              RoadsBuiltFrom(odr, r.value.network.roads) &&
              r.value.network.laneLinks == LaneLinkCalls(r.value.network.roads, |r.value.network.roads|) &&
              ScanJunctions(r.value.network.roads, odr) == Success(r.value.network.junctions) &&
              r.value.scenario == ScenarioOf(XodrPath(directory, filename), meshFileType, osc)
    ensures r.Failure? ==>
              (exists k :: BadGeometry(odr, k) && r.error == UnknownGeometry(odr[k].idXodr) &&
                           forall m :: 0 <= m < k ==> !BadGeometry(odr, m)) ||
              (GeometriesKnown(odr) &&
               exists roads :: RoadsBuiltFrom(odr, roads) && ScanJunctions(roads, odr) == Failure(r.error))
  {
    var xodrPath := XodrPath(directory, filename);
    var roads := BuildRoads(odr);
    if roads.Failure? {
      return Failure(roads.error);
    }
    var laneLinks := LaneLinkPass(roads.value);
    var junctions := BuildJunctions(odr, roads.value);
    if junctions.Failure? {
      return Failure(junctions.error);
    }
    // Here the library adjusts the roads' start points and writes the network file; neither is modelled.
    var scenario := AssembleScenario(xodrPath, meshFileType, osc);
    // Here the scenario file is written; that is not modelled.
    return Success(Export(xodrPath, Network(roads.value, laneLinks, junctions.value), XoscPath(directory, filename), scenario));
  }

  /**
   * The `break` on a junction without four incoming roads: when junction
   * object `n` is the first that is not four-way and the ones before it
   * resolve, the loop succeeds, reports the error, and keeps exactly the
   * `n` junctions built from the earlier objects; so, with known
   * geometries, the export still writes the network.
   */
  lemma ArityBreak(roads: seq<Road>, objects: seq<SceneObject>, n: nat)
    requires var jo := JunctionObjects(objects);
             n < |jo| && |jo[n].incomingRoads| != 4 &&
             forall m :: 0 <= m < n ==> |jo[m].incomingRoads| == 4 && SlotsResolve(roads, jo[m])
    ensures var jo := JunctionObjects(objects);
            var r := ScanJunctions(roads, objects);
            r.Success? && r.value.arityError && |r.value.junctions| == n &&
            forall m :: 0 <= m < n ==> JunctionOf(roads, jo[m], m) == Success(r.value.junctions[m])
  {
    var jo := JunctionObjects(objects);
    var cut := ArityCut(jo);
    assert cut == n;
    ScanMeaning(roads, objects);
  }

  // ---------------------------------------------------------------------------
  // Two line roads joined end to start
  // ---------------------------------------------------------------------------

  /** Road 1, whose successor is the start of road 2. */
  const RoadOne := SceneObject("road_1", 1, "line", 0.0, 0.0, 0.0, 10.0, 0.0, 0.0, None, Some(RawLink(2, "cp_start")), map[])

  /** Road 2, whose predecessor is the end of road 1. */
  const RoadTwo := SceneObject("road_2", 2, "line", 10.0, 0.0, 0.0, 10.0, 0.0, 0.0, Some(RawLink(1, "cp_end")), None, map[])

  /** The roads the two objects become: each links to the other as a road, at the end named. */
  lemma TwoRoadsBuilt(roads: seq<Road>)
    requires RoadsBuiltFrom([RoadOne, RoadTwo], roads)
    ensures |roads| == 2
    ensures roads[0].id == 1 && roads[0].predecessor == None &&
            roads[0].successor == Some(Link(Some(RoadElement), 2, Some(Start)))
    ensures roads[1].id == 2 && roads[1].successor == None &&
            roads[1].predecessor == Some(Link(Some(RoadElement), 1, Some(End)))
  {
    var objects := [RoadOne, RoadTwo];
    assert IsRoadObject(RoadOne) && IsRoadObject(RoadTwo) by {
      assert "road_1"[..4] == "road" && "road_2"[..4] == "road";
    }
    assert objects[..1] == [RoadOne] && [RoadOne][..0] == [];
    assert Filter(objects, IsRoadObject) == [RoadOne, RoadTwo];
    assert ElementTypeById(objects, 2) == Some(RoadElement) by {
      assert objects[1..] == [RoadTwo];
    }
    assert ElementTypeById(objects, 1) == Some(RoadElement);
  }

  /**
   * Two line roads, 1 and 2, joined end to start: the road-to-road pass
   * links their lanes once from each side (road 1 with road 2, then road 2
   * with road 1).
   */
  lemma TwoRoadsLaneLinks(roads: seq<Road>)
    requires RoadsBuiltFrom([RoadOne, RoadTwo], roads)
    ensures LaneLinkCalls(roads, |roads|) == [LaneLinks(Built(0), Built(1)), LaneLinks(Built(1), Built(0))]
  {
    TwoRoadsBuilt(roads);
    assert FindRoad(roads, 2) == Some(1) by {
      assert roads[1..][0] == roads[1];
    }
    assert FindRoad(roads, 1) == Some(0);
    var first := RoadCalls(roads, 0);
    assert first == [LaneLinks(Built(0), Built(1))];
    var second := RoadCalls(roads, 1);
    assert second == [LaneLinks(Built(1), Built(0))];
    assert LaneLinkCalls(roads, 1) == first;
  }

  /** Neither object is a junction object, so no junction is built. */
  lemma TwoRoadsNoJunctions(roads: seq<Road>)
    ensures ScanJunctions(roads, [RoadOne, RoadTwo]) == Success(JunctionPass([], [], false))
  {
    var none := Success(JunctionPass([], [], false));
    assert !IsJunctionObject(RoadOne) && !IsJunctionObject(RoadTwo);
    assert [RoadOne, RoadTwo][..1] == [RoadOne] && [RoadOne][..0] == [];
    assert ScanJunctions(roads, [RoadOne]) == ScanOne(roads, none, RoadOne) == none;
    assert ScanJunctions(roads, [RoadOne, RoadTwo]) == ScanOne(roads, none, RoadTwo);
  }
}
