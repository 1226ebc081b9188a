/**
 * `DSC_OT_two_point_base` (addon/modal_two_point_base.py) as an object:
 * the operator's fields are updated in place one event at a time, and the
 * scene it shares with other sessions holds the 3D cursor, the
 * 'dsc_stencil' object and what has been created. Every method is proved to
 * do what the matching function of Placement says.
 */
module PlacementOperator {
  import opened Wrappers
  import opened Placement

  /** The part of the editor's data the operator touches. */
  class Scene {
    /** `context.scene.cursor.location`. */
    var cursor: Point
    /** `bpy.data.objects.get('dsc_stencil')`, and whether `context.scene.objects` holds it. */
    var stencil: Option<Stencil>
    /** The objects created and the links requested, in order. */
    var log: seq<Effect>

    constructor(cursor: Point, stencil: Option<Stencil>)
      ensures this.cursor == cursor && this.stencil == stencil && log == []
    {
      this.cursor := cursor;
      this.stencil := stencil;
      log := [];
    }
  }

  class TwoPointOperator {
    var mode: Mode
    var pointStart: Point
    var headingStart: real
    var pointSelectedEnd: Point
    var headingEnd: real
    var snappedStart: bool
    var snappedEnd: bool
    var idXodrStart: Option<int>
    var cpTypeStart: Option<string>
    /** The last answer of the snap resolver: `hit`, `id_xodr_hit`, `cp_type`. */
    var hit: bool
    var idXodrHit: Option<int>
    var cpType: Option<string>

    const scene: Scene
    /** `calculate_heading_end` and the subclass's `get_mesh_update_params`. */
    const geometry: Geometry

    /** The operator and its scene as one value. */
    function Snapshot(): Session
      reads this, scene
    {
      Session(mode, pointStart, headingStart, pointSelectedEnd, headingEnd, snappedStart, snappedEnd,
              idXodrStart, cpTypeStart, hit, idXodrHit, cpType, scene.cursor, scene.stencil, scene.log)
    }

    ghost predicate Valid()
      reads this, scene
    {
      Invariant(Snapshot())
    }

    /**
     * A new operator on `scene`. The fields the Python operator sets on
     * first use start from the origin, with nothing snapped.
     */
    constructor(scene: Scene, geometry: Geometry)
      ensures this.scene == scene && this.geometry == geometry
      ensures mode == Init && !snappedStart && !snappedEnd && !hit
      ensures Valid()
    {
      var origin := Point(0.0, 0.0, 0.0);
      mode := Init;
      pointStart, headingStart := origin, 0.0;
      pointSelectedEnd, headingEnd := origin, 0.0;
      snappedStart, snappedEnd := false, false;
      idXodrStart, cpTypeStart := None, None;
      hit, idXodrHit, cpType := false, None, None;
      this.scene := scene;
      this.geometry := geometry;
    }

    /** `invoke`: start in 'INIT'. */
    method Invoke() returns (outcome: Outcome)
      modifies this
      ensures outcome == RunningModal
      ensures Snapshot() == Placement.Invoke(old(Snapshot()))
      ensures Valid()
    {
      mode := Init;
      return RunningModal;
    }

    /** `create_stencil`: reuse 'dsc_stencil', linking it into the scene, or make it at `location`. */
    method CreateStencil(location: Point)
      modifies scene
      ensures scene.stencil == Some(Placement.CreateStencil(old(scene.stencil), location))
      ensures scene.cursor == old(scene.cursor) && scene.log == old(scene.log)
    {
      if scene.stencil.Some? {
        if !scene.stencil.value.linked {
          scene.stencil := Some(scene.stencil.value.(linked := true));
        }
      } else {
        scene.stencil := Some(Stencil(InitialMesh, Location(location), true));
      }
    }

    /** `remove_stencil`: 'dsc_stencil', if there is one, is deleted. */
    method RemoveStencil()
      modifies scene
      ensures scene.stencil.None?
      ensures scene.cursor == old(scene.cursor) && scene.log == old(scene.log)
    {
      if scene.stencil.Some? {
        scene.stencil := None;
      }
    }

    /** `update_stencil`. */
    method UpdateStencil()
      requires scene.stencil.Some?
      modifies scene
      ensures Snapshot() == Placement.UpdateStencil(old(Snapshot()), geometry)
    {
      if pointSelectedEnd == pointStart {
        return;
      }
      var update := geometry.meshUpdate(SketchOf(Snapshot()));
      if update.Some? {
        scene.stencil := Some(scene.stencil.value.(mesh := update.value.mesh, pose := MatrixWorld(update.value.matrixWorld)));
      }
    }

    /** `clean_up`. */
    method CleanUp()
      modifies this, scene
      ensures Snapshot() == Placement.CleanUp(old(Snapshot()))
    {
      RemoveStencil();
      mode := Init;
    }

    /** The entry step `modal` takes in 'INIT'. */
    method Enter()
      modifies this
      ensures Snapshot() == Placement.Enter(old(Snapshot()))
    {
      if mode == Init {
        snappedStart := false;
        mode := SelectStart;
      }
    }

    /** The part of a mouse move common to both states: remember the snap result and move the 3D cursor. */
    method TrackPointer(snap: Snap, ctrl: bool, grid: Point) returns (pointSelected: Point)
      modifies this, scene
      ensures pointSelected == SelectedPoint(snap, ctrl, grid)
      ensures Snapshot() == Track(old(Snapshot()), snap, ctrl, grid)
    {
      hit, idXodrHit, cpType := snap.hit, snap.idXodr, snap.cpType;
      pointSelected := snap.point;
      scene.cursor := pointSelected;
      if ctrl && !hit {
        pointSelected := grid;
        scene.cursor := grid;
      }
    }

    /** A mouse move in 'SELECT_END', after the pointer is tracked: the new end and its heading. */
    method TrackEnd(snap: Snap, pointSelected: Point)
      modifies this
      ensures Snapshot() == old(Snapshot()).(pointSelectedEnd := pointSelected, snappedEnd := snap.hit,
                                             headingEnd := EndHeading(old(Snapshot()), snap, pointSelected, geometry))
    {
      pointSelectedEnd := pointSelected;
      snappedEnd := snap.hit;
      if snappedEnd {
        headingEnd := snap.heading + Pi;
      } else {
        headingEnd := geometry.headingEnd(pointStart, headingStart, pointSelectedEnd);
      }
    }

    /** A mouse move, after the entry step. */
    method MouseMoved(snap: Snap, ctrl: bool, grid: Point)
      requires mode != Init && Valid()
      modifies this, scene
      ensures Snapshot() == if old(mode) == SelectEnd then MoveEnd(old(Snapshot()), snap, ctrl, grid, geometry)
                            else MoveStart(old(Snapshot()), snap, ctrl, grid)
    {
      var pointSelected := TrackPointer(snap, ctrl, grid);
      if mode == SelectStart {
        pointStart := pointSelected;
        headingStart := snap.heading;
        pointSelectedEnd := pointSelected;
        headingEnd := snap.heading;
      } else {
        TrackEnd(snap, pointSelected);
        UpdateStencil();
      }
    }

    /** A left release in 'SELECT_START'. */
    method StartChosen()
      requires mode == SelectStart
      modifies this, scene
      ensures Snapshot() == ChooseStart(old(Snapshot()))
    {
      ghost var before := Snapshot();
      snappedStart := hit;
      idXodrStart := idXodrHit;
      cpTypeStart := cpType;
      CreateStencil(scene.cursor);
      mode := SelectEnd;
      assert Snapshot() == before.(snappedStart := before.hit, idXodrStart := before.idXodrHit, cpTypeStart := before.cpType,
                                   stencil := scene.stencil, mode := SelectEnd);
    }

    /** The records of a left release in 'SELECT_END': the new object, then the links its snapped ends ask for. */
    method RecordCreation()
      modifies scene
      ensures scene.log == old(scene.log) + [Created(SketchOf(old(Snapshot())))] + LinksFor(old(Snapshot()))
      ensures scene.cursor == old(scene.cursor) && scene.stencil == old(scene.stencil)
    {
      var links := [];
      if snappedStart {
        links := [Linked(StartEnd, idXodrStart, cpTypeStart)];
      }
      if snappedEnd {
        links := links + [Linked(EndEnd, idXodrHit, cpType)];
      }
      scene.log := scene.log + [Created(SketchOf(Snapshot()))] + links;
    }

    /** A left release in 'SELECT_END'. */
    method EndChosen()
      requires mode == SelectEnd
      modifies this, scene
      ensures Snapshot() == ChooseEnd(old(Snapshot()))
    {
      snappedEnd := hit;
      ghost var ended := Snapshot();
      RecordCreation();
      RemoveStencil();
      mode := Init;
      assert Snapshot() == ended.(log := scene.log, stencil := None, mode := Init);
    }

    /** `modal`: one event. */
    method Modal(e: Event) returns (outcome: Outcome)
      requires Valid()
      modifies this, scene
      ensures Valid()
      ensures Snapshot() == Step(old(Snapshot()), e, geometry).0
      ensures outcome == Step(old(Snapshot()), e, geometry).1
    {
      Enter();
      match e {
        case Passive =>
          return PassThrough;
        case MouseMove(snap, ctrl, grid) =>
          MouseMoved(snap, ctrl, grid);
          return RunningModal;
        case LeftMouse(release) =>
          if release {
            if mode == SelectStart {
              StartChosen();
              return RunningModal;
            }
            EndChosen();
            return RunningModal;
          }
          return RunningModal;
        case RightMouse(release) =>
          if release {
            if mode == SelectEnd {
              RemoveStencil();
              mode := Init;
              return RunningModal;
            }
            CleanUp();
            return Finished;
          }
          return RunningModal;
        case Esc =>
          CleanUp();
          return Finished;
        case Navigate =>
          return RunningModal;
      }
    }
  }
}
