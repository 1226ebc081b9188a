/**
 * The OpenSCENARIO half of `export_openscenario` (export.py): the entity
 * loop over the 'OpenSCENARIO' collection and the scenario it assembles.
 */
module ExportScenario {
  import opened Wrappers
  import opened Text
  import opened Seqs

  /**
   * An object of the 'OpenSCENARIO' collection: its name, the name of the
   * first collection it belongs to (`users_collection[0].name`), and the
   * custom properties the exporter reads.
   */
  datatype ScenarioObject = ScenarioObject(name: string, collection: string, idXosc: int,
                                           x: real, y: real, z: real, hdg: real)

  /** `entities.add_scenario_object(name, CatalogReference(catalog, entry))`. */
  datatype Entity = ScenarioEntity(name: string, catalog: string, entry: string)

  /** The initial actions added per car. */
  datatype InitAction =
    | Teleport(entity: string, x: real, y: real, z: real, h: real)   // TeleportAction to a WorldPosition
    | AbsoluteSpeed(entity: string, speed: real)                     // AbsoluteSpeedAction, step over time 1
    | RelativeLaneChange(entity: string, lanes: int, reference: string) // RelativeLaneChangeAction, step over rate 1

  /** What `scenario.write_xml` receives, apart from the fixed storyboard and parameter declarations. */
  datatype Scenario = Scenario(entities: seq<Entity>, init: seq<InitAction>,
                               roadNetwork: string, sceneGraph: string, vehicleCatalog: string)

  /** A model template: an object whose first collection is 'Models'. */
  predicate IsTemplate(o: ScenarioObject) { o.collection == "Models" }

  predicate IsCar(o: ScenarioObject) { Contains(o.name, "car") }

  /** The position of the first template, where the entity loop `break`s; the length when there is none. */
  function TemplateCut(objects: seq<ScenarioObject>): (r: nat)
    ensures r <= |objects|
    ensures forall k :: 0 <= k < r ==> !IsTemplate(objects[k])
    ensures r < |objects| ==> IsTemplate(objects[r])
  {
    if objects == [] || IsTemplate(objects[0]) then 0 else 1 + TemplateCut(objects[1..])
  }

  /** The cars the entity loop registers: those before the first template, in order. */
  function CarsOf(objects: seq<ScenarioObject>): seq<ScenarioObject>
  {
    Filter(objects[..TemplateCut(objects)], IsCar)
  }

  function EntityOf(car: ScenarioObject): Entity
  {
    ScenarioEntity(car.name, "VehicleCatalog", "car")
  }

  /** The three initial actions of one car: its pose, speed 30, and keeping its lane. */
  function InitActionsOf(car: ScenarioObject): seq<InitAction>
  {
    [Teleport(car.name, car.x, car.y, car.z, car.hdg), AbsoluteSpeed(car.name, 30.0), RelativeLaneChange(car.name, 0, car.name)]
  }

  function Entities(cars: seq<ScenarioObject>): seq<Entity>
  {
    if cars == [] then [] else Entities(cars[..|cars| - 1]) + [EntityOf(cars[|cars| - 1])]
  }

  function InitActions(cars: seq<ScenarioObject>): seq<InitAction>
  {
    if cars == [] then [] else InitActions(cars[..|cars| - 1]) + InitActionsOf(cars[|cars| - 1])
  }

  /** One entity per car, in order. */
  lemma {:induction false} EntitiesPerCar(cars: seq<ScenarioObject>)
    ensures |Entities(cars)| == |cars|
    ensures forall k :: 0 <= k < |cars| ==> Entities(cars)[k] == EntityOf(cars[k])
  {
    if cars != [] {
      EntitiesPerCar(cars[..|cars| - 1]);
    }
  }

  /** Three initial actions per car, in the order of the cars. */
  lemma {:induction false} ActionsPerCar(cars: seq<ScenarioObject>)
    ensures |InitActions(cars)| == 3 * |cars|
    ensures forall k :: 0 <= k < |cars| ==> InitActions(cars)[3 * k..3 * k + 3] == InitActionsOf(cars[k])
  {
    if cars != [] {
      var pre := cars[..|cars| - 1];
      ActionsPerCar(pre);
      forall k | 0 <= k < |cars|
        ensures InitActions(cars)[3 * k..3 * k + 3] == InitActionsOf(cars[k])
      {
        if k < |pre| {
          assert InitActions(cars)[3 * k..3 * k + 3] == InitActions(pre)[3 * k..3 * k + 3];
          assert cars[k] == pre[k];
        }
      }
    }
  }

  /**
   * The cars registered are exactly the objects before the first template
   * whose name contains 'car': no template and nothing after it is ever
   * registered.
   */
  lemma CarsBeforeTemplates(objects: seq<ScenarioObject>)
    ensures forall o :: o in CarsOf(objects) ==> IsCar(o) && o in objects[..TemplateCut(objects)] && !IsTemplate(o)
    ensures forall k :: 0 <= k < TemplateCut(objects) && IsCar(objects[k]) ==> objects[k] in CarsOf(objects)
  {
    var cut := TemplateCut(objects);
    FilterSound(objects[..cut], IsCar);
    forall k | 0 <= k < cut && IsCar(objects[k])
      ensures objects[k] in CarsOf(objects)
    {
      assert objects[..cut][k] == objects[k];
      FilterKeeps(objects[..cut], k, IsCar);
    }
  }

  /** The scenario written: the cars of the collection when it exists, and the fixed references. */
  function ScenarioOf(xodrPath: string, meshFileType: string, collection: Option<seq<ScenarioObject>>): Scenario
  {
    var cars := if collection.None? then [] else CarsOf(collection.value);
    Scenario(Entities(cars), InitActions(cars), xodrPath, "./scenegraph/export." + meshFileType, "../catalogs/vehicles")
  }

  /** One more car adds its entity and its three actions at the end. */
  lemma CarsSnoc(cars: seq<ScenarioObject>, car: ScenarioObject)
    ensures Entities(cars + [car]) == Entities(cars) + [EntityOf(car)]
    ensures InitActions(cars + [car]) == InitActions(cars) + InitActionsOf(car)
  {
    assert (cars + [car])[..|cars|] == cars;
  }

  /**
   * The entity loop: objects in collection order; the first template ends
   * the loop (`break`); each car before it is registered with its three
   * initial actions.
   */
  method AssembleEntities(objects: seq<ScenarioObject>) returns (entities: seq<Entity>, init: seq<InitAction>)
    ensures entities == Entities(CarsOf(objects)) && init == InitActions(CarsOf(objects))
  {
    entities, init := [], [];
    var t := 0;
    while t < |objects|
      invariant 0 <= t <= |objects|
      invariant forall k :: 0 <= k < t ==> !IsTemplate(objects[k])
      invariant entities == Entities(Filter(objects[..t], IsCar)) && init == InitActions(Filter(objects[..t], IsCar))
    {
      var obj := objects[t];
      if IsTemplate(obj) {
        break;
      }
      ScanCar(objects, t);
      if IsCar(obj) {
        entities := entities + [EntityOf(obj)];
        init := init + InitActionsOf(obj);
      }
      t := t + 1;
    }
    TemplateCutAt(objects, t);
  }

  /** Scanning object `t` adds its entity and actions when it is a car, and nothing otherwise. */
  lemma ScanCar(objects: seq<ScenarioObject>, t: nat)
    requires t < |objects|
    ensures IsCar(objects[t]) ==>
              Entities(Filter(objects[..t + 1], IsCar)) == Entities(Filter(objects[..t], IsCar)) + [EntityOf(objects[t])] &&
              InitActions(Filter(objects[..t + 1], IsCar)) == InitActions(Filter(objects[..t], IsCar)) + InitActionsOf(objects[t])
    ensures !IsCar(objects[t]) ==> Filter(objects[..t + 1], IsCar) == Filter(objects[..t], IsCar)
  {
    FilterSnoc(objects, t, IsCar);
    if IsCar(objects[t]) {
      CarsSnoc(Filter(objects[..t], IsCar), objects[t]);
    }
  }

  /** The loop stops at `t` exactly when `t` is the first template (or the end). */
  lemma TemplateCutAt(objects: seq<ScenarioObject>, t: nat)
    requires t <= |objects| && (t == |objects| || IsTemplate(objects[t]))
    requires forall k :: 0 <= k < t ==> !IsTemplate(objects[k])
    ensures TemplateCut(objects) == t
  {
  }

  /** The OpenSCENARIO part of the export: the entities and initial actions, when the collection exists, and the references. */
  method AssembleScenario(xodrPath: string, meshFileType: string, collection: Option<seq<ScenarioObject>>) returns (s: Scenario)
    ensures s == ScenarioOf(xodrPath, meshFileType, collection)
  {
    var entities: seq<Entity> := [];
    var init: seq<InitAction> := [];
    if collection.Some? {
      entities, init := AssembleEntities(collection.value);
    }
    s := Scenario(entities, init, xodrPath, "./scenegraph/export." + meshFileType, "../catalogs/vehicles");
  }

  const Car1 := ScenarioObject("car_1", "OpenSCENARIO", 1, 0.0, 0.0, 0.0, 0.0)
  const Car2 := ScenarioObject("car_2", "OpenSCENARIO", 2, 5.0, 0.0, 0.0, 0.0)
  const CarModel := ScenarioObject("car_model", "Models", 0, 0.0, 0.0, 0.0, 0.0)

  /** With the model template last, the two cars before it are selected. */
  lemma TwoCarsSelected()
    ensures CarsOf([Car1, Car2, CarModel]) == [Car1, Car2]
  {
    var objects := [Car1, Car2, CarModel];
    assert objects[1..][1..] == [CarModel];
    assert IsTemplate(CarModel) && !IsTemplate(Car1) && !IsTemplate(Car2);
    assert TemplateCut(objects[1..][1..]) == 0;
    assert TemplateCut(objects[1..]) == 1;
    assert objects[..TemplateCut(objects)] == [Car1, Car2];
    assert "car_1"[..3] == "car" && "car_2"[..3] == "car";
    assert IsCar(Car1) && IsCar(Car2);
    assert [Car1, Car2][..1] == [Car1] && [Car1][..0] == [];
    assert Filter([Car1], IsCar) == [Car1];
  }

  /** Two cars and, after them, a car model template: exactly the two cars become entities. */
  lemma TwoCarsOneTemplate()
    ensures Entities(CarsOf([Car1, Car2, CarModel])) == [ScenarioEntity("car_1", "VehicleCatalog", "car"),
                                                         ScenarioEntity("car_2", "VehicleCatalog", "car")]
  {
    TwoCarsSelected();
    CarsSnoc([Car1], Car2);
    CarsSnoc([], Car1);
    assert [Car1] + [Car2] == [Car1, Car2] && [] + [Car1] == [Car1];
  }
}
