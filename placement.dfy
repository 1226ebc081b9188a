/**
 * The two-point placement operator (`DSC_OT_two_point_base`,
 * addon/modal_two_point_base.py) as a specification: the operator's fields
 * and the part of the scene it touches are one `Session` value, and `Step`
 * is what one call of `modal` does to it. The operator class in
 * PlacementOperator is proved to follow it.
 */
module Placement {
  import opened Wrappers

  /** A location in the scene (a `mathutils.Vector`), compared by value as `==` does. */
  datatype Point = Point(x: real, y: real, z: real)

  /** `self.state`: 'INIT', 'SELECT_START' or 'SELECT_END'. */
  datatype Mode = Init | SelectStart | SelectEnd

  /**
   * What `helpers.raycast_mouse_to_object_else_xy` answers for the pointer
   * position: whether an object was hit, its `id_xodr` and contact point
   * type, and the point and heading to use.
   */
  datatype Snap = Snap(hit: bool, idXodr: Option<int>, cpType: Option<string>, point: Point, heading: real)

  /** The events `modal` receives. */
  datatype Event =
    | Passive                                   // 'NONE', 'TIMER', 'TIMER_REPORT', 'EVT_TWEAK_L', 'WINDOW_DEACTIVATE'
    | MouseMove(snap: Snap, ctrl: bool, grid: Point) // `grid`: the cursor after `snap_cursor_to_grid`
    | LeftMouse(release: bool)
    | RightMouse(release: bool)
    | Esc
    | Navigate                                  // zoom, pan and every other event

  /** The set `modal` returns. */
  datatype Outcome = PassThrough | RunningModal | Finished

  /** A mesh as `from_pydata` takes it. */
  datatype Mesh = Mesh(vertices: seq<Point>, edges: seq<(nat, nat)>, faces: seq<seq<nat>>)

  /** `get_initial_vertices_edges_faces`: a single vertex at the origin. */
  const InitialMesh := Mesh([Point(0.0, 0.0, 0.0)], [], [])

  /** A 4x4 world matrix, row by row. */
  type Matrix = seq<seq<real>>

  /** Where the stencil object sits: its `location`, or a `matrix_world` set by an update. */
  datatype Pose = Location(point: Point) | MatrixWorld(matrix: Matrix)

  /** The 'dsc_stencil' object in the file's data, and whether it is linked into the scene. */
  datatype Stencil = Stencil(mesh: Mesh, pose: Pose, linked: bool)

  /** The operator fields the object-specific callbacks read. */
  datatype Sketch = Sketch(pointStart: Point, headingStart: real, pointSelectedEnd: Point, headingEnd: real,
                           snappedStart: bool, snappedEnd: bool)

  /** A new stencil mesh and transform, as a valid answer of `get_mesh_update_params`. */
  datatype MeshUpdate = MeshUpdate(mesh: Mesh, matrixWorld: Matrix)

  /**
   * The callbacks the operator relies on and whose arithmetic is not part
   * of the model: `calculate_heading_end` and the subclass's
   * `get_mesh_update_params` (`None` when it reports an invalid solution).
   */
  datatype Geometry = Geometry(headingEnd: (Point, real, Point) -> real, meshUpdate: Sketch -> Option<MeshUpdate>)

  /** Which end of the new object a link is requested for (`link_type`). */
  datatype LinkEnd = StartEnd | EndEnd

  /** A recorded effect on the scene: `create_object`, or `create_object_xodr_links` for the object just created. */
  datatype Effect =
    | Created(sketch: Sketch)
    | Linked(end: LinkEnd, idXodr: Option<int>, cpType: Option<string>)

  /** `math.pi` as a double. */
  const Pi: real := 3.141592653589793

  /**
   * The operator's fields, plus the scene state it reads and writes: the 3D
   * cursor, the stencil, and the log of created objects and links.
   */
  datatype Session = Session(
    mode: Mode,
    pointStart: Point, headingStart: real,
    pointSelectedEnd: Point, headingEnd: real,
    snappedStart: bool, snappedEnd: bool,
    idXodrStart: Option<int>, cpTypeStart: Option<string>,
    hit: bool, idXodrHit: Option<int>, cpType: Option<string>,
    cursor: Point,
    stencil: Option<Stencil>,
    log: seq<Effect>)

  /** While the end point is being chosen, the stencil exists and is in the scene. */
  predicate Invariant(s: Session)
  {
    s.mode == SelectEnd ==> s.stencil.Some? && s.stencil.value.linked
  }

  function SketchOf(s: Session): Sketch
  {
    Sketch(s.pointStart, s.headingStart, s.pointSelectedEnd, s.headingEnd, s.snappedStart, s.snappedEnd)
  }

  /** Everything but the stencil is as in `s`. */
  predicate SameButStencil(r: Session, s: Session)
  {
    r == s.(stencil := r.stencil)
  }

  // ---------------------------------------------------------------------------
  // The stencil
  // ---------------------------------------------------------------------------

  /**
   * `create_stencil`: an existing 'dsc_stencil' is reused, and linked into
   * the scene if it is not there; otherwise a new one with the initial mesh
   * is made at `location`. Either way there is exactly one, in the scene.
   */
  function CreateStencil(stencil: Option<Stencil>, location: Point): (r: Stencil)
    ensures r.linked
    ensures stencil.Some? ==> r.mesh == stencil.value.mesh && r.pose == stencil.value.pose
    ensures stencil.None? ==> r.mesh == InitialMesh && r.pose == Location(location)
  {
    if stencil.Some? then stencil.value.(linked := true)
    else Stencil(InitialMesh, Location(location), true)
  }

  /** The exception `create_stencil` as written can raise. */
  datatype StencilFault = StencilAttributeUnset

  /**
   * `create_stencil` as written, on an operator whose `self.stencil` has
   * (`bound`) or has not been assigned yet: the reuse branch links the
   * existing object but does not assign `self.stencil`, so the call
   * `select_activate_object(context, self.stencil)` that follows raises on
   * an operator that never made the stencil itself.
   */
  function CreateStencilAsWritten(stencil: Option<Stencil>, bound: bool, location: Point): (r: Result<Stencil, StencilFault>)
    ensures r.Success? ==> r.value == CreateStencil(stencil, location)
    ensures r.Failure? <==> stencil.Some? && !bound
  {
    if stencil.Some? then
      if bound then Success(stencil.value.(linked := true)) else Failure(StencilAttributeUnset)
    else Success(Stencil(InitialMesh, Location(location), true))
  }

  /**
   * A session started while a 'dsc_stencil' object is still in the file
   * (it carries a fake user, so it is saved with it): the first left release
   * of the new operator raises instead of reusing the stencil.
   */
  lemma LeftoverStencilRaises(leftover: Stencil, location: Point)
    ensures CreateStencilAsWritten(Some(leftover), false, location) == Failure(StencilAttributeUnset)
    ensures CreateStencil(Some(leftover), location).linked
  {
  }

  /**
   * `update_stencil`: nothing changes when the end point equals the start
   * point, or when the callback reports an invalid solution; otherwise the
   * stencil takes the new mesh and world matrix.
   */
  function UpdateStencil(s: Session, g: Geometry): (r: Session)
    requires s.stencil.Some?
    ensures SameButStencil(r, s) && r.stencil.Some? && r.stencil.value.linked == s.stencil.value.linked
    ensures s.pointSelectedEnd == s.pointStart || g.meshUpdate(SketchOf(s)).None? ==> r == s
    ensures s.pointSelectedEnd != s.pointStart && g.meshUpdate(SketchOf(s)).Some? ==>
              r.stencil.value.mesh == g.meshUpdate(SketchOf(s)).value.mesh &&
              r.stencil.value.pose == MatrixWorld(g.meshUpdate(SketchOf(s)).value.matrixWorld)
  {
    if s.pointSelectedEnd == s.pointStart then s
    else match g.meshUpdate(SketchOf(s))
      case None => s
      case Some(u) => s.(stencil := Some(s.stencil.value.(mesh := u.mesh, pose := MatrixWorld(u.matrixWorld))))
  }

  /** `clean_up`: the stencil is removed and the state is back to 'INIT'. */
  function CleanUp(s: Session): (r: Session)
    ensures r.mode == Init && r.stencil.None?
    ensures r == s.(mode := Init, stencil := None)
  {
    s.(mode := Init, stencil := None)
  }

  // ---------------------------------------------------------------------------
  // One call of `modal`
  // ---------------------------------------------------------------------------

  /** `invoke`: the state machine starts in 'INIT'. */
  function Invoke(s: Session): (r: Session)
    ensures r.mode == Init && r == s.(mode := Init)
  {
    s.(mode := Init)
  }

  /** The step every `modal` call in 'INIT' takes first: snapping is reset and the start point is awaited. */
  function Enter(s: Session): (r: Session)
    ensures r.mode != Init
    ensures s.mode == Init ==> r == s.(snappedStart := false, mode := SelectStart)
    ensures s.mode != Init ==> r == s
  {
    if s.mode == Init then s.(snappedStart := false, mode := SelectStart) else s
  }

  /** The point a mouse move selects: the grid point with CTRL held and no object hit, else the snapped point. */
  function SelectedPoint(snap: Snap, ctrl: bool, grid: Point): Point
  {
    if ctrl && !snap.hit then grid else snap.point
  }

  /** What every mouse move records: the snap result, and the 3D cursor moved to the selected point. */
  function Track(s: Session, snap: Snap, ctrl: bool, grid: Point): Session
  {
    s.(hit := snap.hit, idXodrHit := snap.idXodr, cpType := snap.cpType, cursor := SelectedPoint(snap, ctrl, grid))
  }

  /**
   * A mouse move in 'SELECT_START': the selected point and heading become
   * both the start and the tentative end; the mode, the snapping flags
   * frozen so far, the stencil and the log are unchanged.
   */
  function MoveStart(s: Session, snap: Snap, ctrl: bool, grid: Point): (r: Session)
    ensures var p := SelectedPoint(snap, ctrl, grid);
            r.pointStart == p && r.pointSelectedEnd == p && r.pointSelectedEnd == r.pointStart &&
            r.headingStart == snap.heading && r.headingEnd == snap.heading
    ensures r.mode == s.mode && r.snappedStart == s.snappedStart && r.snappedEnd == s.snappedEnd &&
            r.idXodrStart == s.idXodrStart && r.cpTypeStart == s.cpTypeStart &&
            r.stencil == s.stencil && r.log == s.log
    ensures r.hit == snap.hit && r.idXodrHit == snap.idXodr && r.cpType == snap.cpType
    ensures r.cursor == SelectedPoint(snap, ctrl, grid)
  {
    var p := SelectedPoint(snap, ctrl, grid);
    Track(s, snap, ctrl, grid).(pointStart := p, headingStart := snap.heading, pointSelectedEnd := p, headingEnd := snap.heading)
  }

  /** The end heading for a move to `p` in 'SELECT_END': the hit heading turned by pi when snapped, else derived from the start. */
  function EndHeading(s: Session, snap: Snap, p: Point, g: Geometry): real
  {
    if snap.hit then snap.heading + Pi else g.headingEnd(s.pointStart, s.headingStart, p)
  }

  /** A mouse move in 'SELECT_END' before the stencil follows. */
  function EndMoved(s: Session, snap: Snap, ctrl: bool, grid: Point, g: Geometry): Session
  {
    var p := SelectedPoint(snap, ctrl, grid);
    Track(s, snap, ctrl, grid).(pointSelectedEnd := p, snappedEnd := snap.hit, headingEnd := EndHeading(s, snap, p, g))
  }

  /**
   * A mouse move in 'SELECT_END': the start is kept; the selected point is
   * the new end, snapped exactly when an object was hit; the end heading is
   * the hit heading turned by pi when snapped, else derived from the start;
   * then the stencil follows.
   */
  function MoveEnd(s: Session, snap: Snap, ctrl: bool, grid: Point, g: Geometry): (r: Session)
    requires s.stencil.Some?
    ensures var p := SelectedPoint(snap, ctrl, grid);
            r.pointSelectedEnd == p && r.snappedEnd == snap.hit &&
            r.headingEnd == (if snap.hit then snap.heading + Pi else g.headingEnd(s.pointStart, s.headingStart, p))
    ensures r.pointStart == s.pointStart && r.headingStart == s.headingStart && r.mode == s.mode &&
            r.snappedStart == s.snappedStart && r.idXodrStart == s.idXodrStart && r.cpTypeStart == s.cpTypeStart &&
            r.log == s.log && r.stencil.Some? && r.stencil.value.linked == s.stencil.value.linked
    ensures r.cursor == SelectedPoint(snap, ctrl, grid) &&
            r.hit == snap.hit && r.idXodrHit == snap.idXodr && r.cpType == snap.cpType
    ensures var p := SelectedPoint(snap, ctrl, grid);
            var sketch := Sketch(s.pointStart, s.headingStart, p, r.headingEnd, s.snappedStart, snap.hit);
            var update := g.meshUpdate(sketch);
            r.stencil == if p != s.pointStart && update.Some?
                         then Some(s.stencil.value.(mesh := update.value.mesh, pose := MatrixWorld(update.value.matrixWorld)))
                         else s.stencil
  {
    UpdateStencil(EndMoved(s, snap, ctrl, grid, g), g)
  }

  /**
   * A left release in 'SELECT_START': the last snap result is frozen as the
   * start's, the stencil is created (or reused) at the cursor, and the end
   * point is awaited. Nothing is created.
   */
  function ChooseStart(s: Session): (r: Session)
    ensures r.mode == SelectEnd
    ensures r.snappedStart == s.hit && r.idXodrStart == s.idXodrHit && r.cpTypeStart == s.cpType
    ensures r.stencil.Some? && r.stencil.value.linked
    ensures r.pointStart == s.pointStart && r.pointSelectedEnd == s.pointSelectedEnd && r.log == s.log
    ensures r.stencil == Some(CreateStencil(s.stencil, s.cursor))
    ensures r == s.(snappedStart := s.hit, idXodrStart := s.idXodrHit, cpTypeStart := s.cpType,
                    stencil := r.stencil, mode := SelectEnd)
  {
    s.(snappedStart := s.hit, idXodrStart := s.idXodrHit, cpTypeStart := s.cpType,
       stencil := Some(CreateStencil(s.stencil, s.cursor)), mode := SelectEnd)
  }

  /** The links requested for a new object: at the start if the start was snapped, then at the end if the end was. */
  function LinksFor(s: Session): (r: seq<Effect>)
    ensures |r| <= 2
    ensures Linked(StartEnd, s.idXodrStart, s.cpTypeStart) in r <==> s.snappedStart
    ensures Linked(EndEnd, s.idXodrHit, s.cpType) in r <==> s.snappedEnd
    ensures forall q :: 0 <= q < |r| ==> r[q].Linked?
    ensures |r| == (if s.snappedStart then 1 else 0) + (if s.snappedEnd then 1 else 0)
    ensures s.snappedStart ==> r[0] == Linked(StartEnd, s.idXodrStart, s.cpTypeStart)
  {
    (if s.snappedStart then [Linked(StartEnd, s.idXodrStart, s.cpTypeStart)] else []) +
    (if s.snappedEnd then [Linked(EndEnd, s.idXodrHit, s.cpType)] else [])
  }

  /** The number of objects a log records as created. */
  function CreatedCount(log: seq<Effect>): (r: nat)
    ensures r <= |log|
  {
    if log == [] then 0 else CreatedCount(log[..|log| - 1]) + (if log[|log| - 1].Created? then 1 else 0)
  }

  lemma {:induction false} CreatedCountAppend(a: seq<Effect>, b: seq<Effect>)
    ensures CreatedCount(a + b) == CreatedCount(a) + CreatedCount(b)
    decreases |b|
  {
    if b == [] {
      assert a + b == a;
    } else {
      assert (a + b)[..|a + b| - 1] == a + b[..|b| - 1];
      CreatedCountAppend(a, b[..|b| - 1]);
    }
  }

  lemma {:induction false} NoneCreated(links: seq<Effect>)
    requires forall q :: 0 <= q < |links| ==> links[q].Linked?
    ensures CreatedCount(links) == 0
  {
    if links != [] {
      NoneCreated(links[..|links| - 1]);
    }
  }

  /** A creation followed by links adds one created object to a log. */
  lemma OneCreated(log: seq<Effect>, sketch: Sketch, links: seq<Effect>)
    requires forall q :: 0 <= q < |links| ==> links[q].Linked?
    ensures CreatedCount(log + [Created(sketch)] + links) == CreatedCount(log) + 1
  {
    CreatedCountAppend(log + [Created(sketch)], links);
    CreatedCountAppend(log, [Created(sketch)]);
    assert CreatedCount([Created(sketch)]) == 1 by {
      assert [Created(sketch)][..0] == [];
    }
    NoneCreated(links);
  }

  /**
   * A left release in 'SELECT_END': the end's snapping is taken from the
   * last hit, exactly one object is created from the sketch, links are
   * requested at the start only if it was snapped and at the end only if
   * it is, the stencil is removed, and the state is back to 'INIT'.
   */
  function ChooseEnd(s: Session): (r: Session)
    ensures r.mode == Init && r.stencil.None? && r.snappedEnd == s.hit
    ensures r.log == s.log + [Created(SketchOf(s.(snappedEnd := s.hit)))] + LinksFor(s.(snappedEnd := s.hit))
    ensures CreatedCount(r.log) == CreatedCount(s.log) + 1
    ensures r == s.(snappedEnd := s.hit, log := r.log, stencil := None, mode := Init)
  {
    var ended := s.(snappedEnd := s.hit);
    var links := LinksFor(ended);
    OneCreated(s.log, SketchOf(ended), links);
    var r := ended.(log := s.log + [Created(SketchOf(ended))] + links, stencil := None, mode := Init);
    assert r == s.(snappedEnd := s.hit, log := r.log, stencil := None, mode := Init);
    r
  }

  /**
   * One call of `modal` on `s`: the 'INIT' entry step, then the event.
   * Returns the new session and what `modal` returns.
   */
  function Step(s: Session, e: Event, g: Geometry): (Session, Outcome)
    requires Invariant(s)
  {
    var s := Enter(s);
    match e
    case Passive => (s, PassThrough)
    case MouseMove(snap, ctrl, grid) =>
      if s.mode == SelectEnd then (MoveEnd(s, snap, ctrl, grid, g), RunningModal)
      else (MoveStart(s, snap, ctrl, grid), RunningModal)
    case LeftMouse(release) =>
      if !release then (s, RunningModal)
      else if s.mode == SelectEnd then (ChooseEnd(s), RunningModal)
      else (ChooseStart(s), RunningModal)
    case RightMouse(release) =>
      if !release then (s, RunningModal)
      else if s.mode == SelectEnd then (s.(stencil := None, mode := Init), RunningModal)
      else (CleanUp(s), Finished)
    case Esc => (CleanUp(s), Finished)
    case Navigate => (s, RunningModal)
  }

  // ---------------------------------------------------------------------------
  // Properties of a step
  // ---------------------------------------------------------------------------

  /** Every step keeps the invariant. */
  lemma StepKeepsInvariant(s: Session, e: Event, g: Geometry)
    requires Invariant(s)
    ensures Invariant(Step(s, e, g).0)
  {
  }

  /** In 'INIT', the entry step comes before the event is looked at. */
  lemma EntryFirst(s: Session, e: Event, g: Geometry)
    requires Invariant(s) && s.mode == Init
    ensures Invariant(s.(snappedStart := false, mode := SelectStart))
    ensures Step(s, e, g) == Step(s.(snappedStart := false, mode := SelectStart), e, g)
  {
  }

  /** Pass-through events change nothing but the entry step and are passed on. */
  lemma PassiveChangesNothing(s: Session, g: Geometry)
    requires Invariant(s)
    ensures Step(s, Passive, g).1 == PassThrough
    ensures s.mode != Init ==> Step(s, Passive, g).0 == s
    ensures s.mode == Init ==> Step(s, Passive, g).0 == s.(snappedStart := false, mode := SelectStart)
  {
  }

  /** A right release in 'SELECT_END' steps back to 'INIT' without the stencil and creates nothing. */
  lemma RightReleaseStepsBack(s: Session, g: Geometry)
    requires Invariant(s) && s.mode == SelectEnd
    ensures Step(s, RightMouse(true), g) == (s.(stencil := None, mode := Init), RunningModal)
  {
  }

  /** A right release in 'SELECT_START' (or 'INIT') ends the session through `clean_up`. */
  lemma RightReleaseExits(s: Session, g: Geometry)
    requires Invariant(s) && s.mode != SelectEnd
    ensures Step(s, RightMouse(true), g).1 == Finished
    ensures Step(s, RightMouse(true), g).0.mode == Init && Step(s, RightMouse(true), g).0.stencil.None?
    ensures Step(s, RightMouse(true), g).0.log == s.log
  {
  }

  /** Escape ends the session from any state, with no stencil left and nothing created. */
  lemma EscapeExits(s: Session, g: Geometry)
    requires Invariant(s)
    ensures Step(s, Esc, g).1 == Finished
    ensures Step(s, Esc, g).0.mode == Init && Step(s, Esc, g).0.stencil.None? && Step(s, Esc, g).0.log == s.log
  {
  }

  /** Only a left release in 'SELECT_END' creates an object, and then exactly one. */
  lemma CreatesOnlyOnEndRelease(s: Session, e: Event, g: Geometry)
    requires Invariant(s)
    ensures var r := Step(s, e, g).0;
            if s.mode == SelectEnd && e == LeftMouse(true) then CreatedCount(r.log) == CreatedCount(s.log) + 1
            else r.log == s.log
  {
  }
}
