/** The selection/cache controller of the debug view (the DrawColliders
    component): which object is watched, whether its descendants are included,
    and when the collider cache is rebuilt, cleared or left alone. */
module Selection {
  import opened Engine
  import opened Rendering

  /** The controller's selection fields together with the renderer's cache. */
  datatype State = State(
    selected: Option<GameObject>,
    selectChildren: bool,
    selectedIsNull: bool,
    lastSelectChild: bool,
    cache: seq<Entry>)

  /** The one fact the SelectChildren setter relies on: a selection recorded as
      non-null is a reference. */
  predicate Coherent(s: State) {
    !s.selectedIsNull ==> s.selected.Some?
  }

  /** The state of a freshly added component: nothing selected, children
      included, and an empty cache. */
  const Initial: State := State(None, true, true, true, [])

  /** SelectObject: a target that differs from the current one (under the
      engine's equality) becomes the selection; the cache is rebuilt from it under
      the current scope when it is non-null, and emptied otherwise. */
  function SelectObjectStep(s: State, toSelect: Option<GameObject>, scene: Scene): State {
    if SameObject(toSelect, s.selected, scene) then s
    else
      var cache := if !IsNull(toSelect, scene) then CacheFor(scene, toSelect.value, s.selectChildren) else [];
      s.(cache := cache, selected := toSelect, selectedIsNull := IsNull(toSelect, scene))
  }

  /** The SelectChildren setter: rebuilds the cache from the current target under
      the new scope when something is selected and the scope changes; the value is
      stored in both scope fields in every case. */
  function SetSelectChildrenStep(s: State, value: bool, scene: Scene): State
    requires Coherent(s)
  {
    var cache := if !s.selectedIsNull && value != s.selectChildren
                 then CacheFor(scene, s.selected.value, value) else s.cache;
    s.(cache := cache, selectChildren := value, lastSelectChild := value)
  }

  /** The check at the start of OnPreCull: a selection that has become null since
      it was made empties the cache and is recorded as null. */
  function NoticeDestroyed(s: State, scene: Scene): State {
    if !s.selectedIsNull && IsNull(s.selected, scene) then s.(cache := [], selectedIsNull := true)
    else s
  }

  /** The state the controller keeps throughout: both scope fields agree, a
      selection recorded as non-null is a reference, and the cache is empty when
      the selection is recorded as null and is otherwise the cache of the
      selected object under the current scope. */
  ghost predicate Consistent(s: State, scene: Scene) {
    s.lastSelectChild == s.selectChildren &&
    Coherent(s) &&
    (s.selectedIsNull ==> s.cache == []) &&
    (!s.selectedIsNull ==> s.cache == CacheFor(scene, s.selected.value, s.selectChildren))
  }

  // ---------------------------------------------------------------------------
  // The three cases of SelectObject

  /** Selecting the object that is already selected changes nothing. */
  lemma SelectSameObjectChangesNothing(s: State, toSelect: Option<GameObject>, scene: Scene)
    requires SameObject(toSelect, s.selected, scene)
    ensures SelectObjectStep(s, toSelect, scene) == s
  {
  }

  /** Deselecting a live selection empties the cache and records the selection as null. */
  lemma DeselectEmptiesCache(s: State, scene: Scene)
    requires s.selected.Some? && s.selected.value in scene.alive
    ensures SelectObjectStep(s, None, scene).cache == []
    ensures SelectObjectStep(s, None, scene).selected == None
    ensures SelectObjectStep(s, None, scene).selectedIsNull
    ensures SelectObjectStep(s, None, scene).selectChildren == s.selectChildren
    ensures SelectObjectStep(s, None, scene).lastSelectChild == s.lastSelectChild
  {
  }

  /** Selecting a new live object rebuilds the cache from it under the current
      scope and records the selection as non-null; the scope is unchanged. */
  lemma SelectNewObjectRebuilds(s: State, g: GameObject, scene: Scene)
    requires g in scene.alive && s.selected != Some(g)
    ensures SelectObjectStep(s, Some(g), scene).cache == CacheFor(scene, g, s.selectChildren)
    ensures SelectObjectStep(s, Some(g), scene).selected == Some(g)
    ensures !SelectObjectStep(s, Some(g), scene).selectedIsNull
    ensures SelectObjectStep(s, Some(g), scene).selectChildren == s.selectChildren
    ensures SelectObjectStep(s, Some(g), scene).lastSelectChild == s.lastSelectChild
  {
  }

  /** Selecting the same target twice is the same as selecting it once. */
  lemma SelectIdempotent(s: State, toSelect: Option<GameObject>, scene: Scene)
    ensures SelectObjectStep(SelectObjectStep(s, toSelect, scene), toSelect, scene)
         == SelectObjectStep(s, toSelect, scene)
  {
  }

  // ---------------------------------------------------------------------------
  // The SelectChildren setter

  /** The setter stores the value in both scope fields, never changes the
      selection, rebuilds from the same target when something is selected and the
      value changes, and otherwise leaves the cache alone. */
  lemma SetSelectChildrenCases(s: State, value: bool, scene: Scene)
    requires Coherent(s)
    ensures SetSelectChildrenStep(s, value, scene).selectChildren == value
    ensures SetSelectChildrenStep(s, value, scene).lastSelectChild == value
    ensures SetSelectChildrenStep(s, value, scene).selected == s.selected
    ensures SetSelectChildrenStep(s, value, scene).selectedIsNull == s.selectedIsNull
    ensures !s.selectedIsNull && value != s.selectChildren ==>
      SetSelectChildrenStep(s, value, scene).cache == CacheFor(scene, s.selected.value, value)
    ensures s.selectedIsNull || value == s.selectChildren ==>
      SetSelectChildrenStep(s, value, scene).cache == s.cache
  {
  }

  /** Toggling the scope of a selection leaves the cache of the same target under
      the new scope, whether or not the value changed. */
  lemma ScopeChangeKeepsTarget(s: State, value: bool, scene: Scene)
    requires Consistent(s, scene) && !s.selectedIsNull
    ensures SetSelectChildrenStep(s, value, scene).cache == CacheFor(scene, s.selected.value, value)
  {
  }

  /** Toggling the scope with nothing selected changes nothing visible, and the
      next selection of a new object uses the new scope. */
  lemma ScopeWithoutSelection(s: State, value: bool, g: GameObject, scene: Scene)
    requires s.selectedIsNull
    requires g in scene.alive && s.selected != Some(g)
    ensures SetSelectChildrenStep(s, value, scene).cache == s.cache
    ensures SetSelectChildrenStep(s, value, scene).selected == s.selected
    ensures SelectObjectStep(SetSelectChildrenStep(s, value, scene), Some(g), scene).cache
         == CacheFor(scene, g, value)
  {
  }

  /** Setting the same scope twice is the same as setting it once. */
  lemma SetSelectChildrenIdempotent(s: State, value: bool, scene: Scene)
    requires Coherent(s)
    ensures SetSelectChildrenStep(SetSelectChildrenStep(s, value, scene), value, scene)
         == SetSelectChildrenStep(s, value, scene)
  {
  }

  // ---------------------------------------------------------------------------
  // The OnPreCull check

  /** When the selection has been destroyed since it was made, the check empties
      the cache and records the selection as null; otherwise it changes nothing.
      It never changes the selected reference or the scope. */
  lemma NoticeDestroyedCases(s: State, scene: Scene)
    ensures !s.selectedIsNull && IsNull(s.selected, scene) ==>
      NoticeDestroyed(s, scene).cache == [] && NoticeDestroyed(s, scene).selectedIsNull
    ensures s.selectedIsNull || !IsNull(s.selected, scene) ==> NoticeDestroyed(s, scene) == s
    ensures NoticeDestroyed(s, scene).selected == s.selected
    ensures NoticeDestroyed(s, scene).selectChildren == s.selectChildren
    ensures NoticeDestroyed(s, scene).lastSelectChild == s.lastSelectChild
  {
  }

  /** After the check, a selection recorded as non-null is a live object. */
  lemma NoticeDestroyedLeavesLiveSelection(s: State, scene: Scene)
    requires Coherent(s)
    ensures !NoticeDestroyed(s, scene).selectedIsNull ==>
      NoticeDestroyed(s, scene).selected.Some? && NoticeDestroyed(s, scene).selected.value in scene.alive
  {
  }

  /** A frame rendered after the selected object was destroyed issues no draws. */
  lemma DestroyedSelectionDrawsNothing(s: State, scene: Scene, drawColliders: bool, drawTriggers: bool)
    requires Consistent(s, scene)
    requires s.selected.Some? && s.selected.value !in scene.alive
    ensures Render(NoticeDestroyed(s, scene).cache, drawColliders, drawTriggers) == []
    ensures NoticeDestroyed(s, scene).selectedIsNull
  {
  }

  /** Deselecting yields an empty cache by the next frame at the latest: at once
      when the selection was live, and at the OnPreCull check when the selection
      had been destroyed (the engine then finds the destroyed object equal to null,
      so the deselection itself is a no-op). */
  lemma DeselectEmptiesByNextFrame(s: State, scene: Scene)
    requires Consistent(s, scene)
    ensures NoticeDestroyed(SelectObjectStep(s, None, scene), scene).cache == []
    ensures NoticeDestroyed(SelectObjectStep(s, None, scene), scene).selectedIsNull
  {
  }

  /** The case DeselectEmptiesByNextFrame covers: a destroyed selection that has
      not yet been noticed survives the deselection unchanged. */
  lemma DeselectOfDestroyedIsDeferred(s: State, scene: Scene)
    requires s.selected.Some? && s.selected.value !in scene.alive
    ensures SelectObjectStep(s, None, scene) == s
  {
  }

  // ---------------------------------------------------------------------------
  // The controller invariant

  lemma InitialConsistent(scene: Scene)
    ensures Consistent(Initial, scene)
  {
  }

  lemma SelectPreservesConsistent(s: State, toSelect: Option<GameObject>, scene: Scene)
    requires Consistent(s, scene)
    ensures Consistent(SelectObjectStep(s, toSelect, scene), scene)
  {
  }

  lemma SetSelectChildrenPreservesConsistent(s: State, value: bool, scene: Scene)
    requires Consistent(s, scene)
    ensures Consistent(SetSelectChildrenStep(s, value, scene), scene)
  {
  }

  lemma NoticeDestroyedPreservesConsistent(s: State, scene: Scene)
    requires Consistent(s, scene)
    ensures Consistent(NoticeDestroyed(s, scene), scene)
  {
  }

  /** Flipping alive bits does not disturb the invariant: the cache is a function
      of the component queries, not of which objects are alive. The queries
      themselves are held fixed here, so a destroyed collider still answers them. */
  lemma DestroyPreservesConsistent(s: State, scene: Scene, dead: set<GameObject>)
    requires Consistent(s, scene)
    ensures Consistent(s, scene.(alive := scene.alive - dead))
  {
  }

  // ---------------------------------------------------------------------------
  // Any history of inspector edits and frames

  /** What can happen to the component: a selection made through the
      SelectedObject setter, a scope change through the SelectChildren setter, or
      a rendered frame (OnPreCull). */
  datatype Action = Select(target: Option<GameObject>) | SetScope(value: bool) | Frame

  /** An action together with the set of objects alive when it happens; objects
      may be destroyed (or created) between actions. The component queries stay
      those of one scene for the whole history. */
  datatype Event = Event(action: Action, alive: set<GameObject>)

  /** The effect of one event on the controller. */
  function Step(s: State, e: Event, scene: Scene): (r: State)
    requires Coherent(s)
    ensures Coherent(r)
  {
    var now := scene.(alive := e.alive);
    match e.action
    case Select(t) => SelectObjectStep(s, t, now)
    case SetScope(v) => SetSelectChildrenStep(s, v, now)
    case Frame => NoticeDestroyed(s, now)
  }

  /** The effect of a history of events, in order. */
  function Run(s: State, events: seq<Event>, scene: Scene): (r: State)
    requires Coherent(s)
    ensures Coherent(r)
    decreases |events|
  {
    if events == [] then s else Run(Step(s, events[0], scene), events[1..], scene)
  }

  lemma {:induction false} RunSnoc(s: State, events: seq<Event>, e: Event, scene: Scene)
    requires Coherent(s)
    ensures Run(s, events + [e], scene) == Step(Run(s, events, scene), e, scene)
    decreases |events|
  {
    if events == [] {
      assert [e][1..] == [];
    } else {
      assert (events + [e])[1..] == events[1..] + [e];
      RunSnoc(Step(s, events[0], scene), events[1..], e, scene);
    }
  }

  /** Every history keeps the controller invariant, whatever is destroyed on the way. */
  lemma {:induction false} RunPreservesConsistent(s: State, events: seq<Event>, scene: Scene)
    requires Consistent(s, scene)
    ensures Consistent(Run(s, events, scene), scene)
    decreases |events|
  {
    if events != [] {
      var e := events[0];
      var now := scene.(alive := e.alive);
      DestroyPreservesConsistent(s, scene, scene.alive - e.alive);
      assert Consistent(s, now);
      match e.action {
        case Select(t) => SelectPreservesConsistent(s, t, now);
        case SetScope(v) => SetSelectChildrenPreservesConsistent(s, v, now);
        case Frame => NoticeDestroyedPreservesConsistent(s, now);
      }
      assert Consistent(Step(s, e, scene), now);
      assert Consistent(Step(s, e, scene), scene);
      RunPreservesConsistent(Step(s, e, scene), events[1..], scene);
    }
  }

  /** Whatever edits and alive-set changes came before (with the component
      queries held fixed), a frame renders either nothing (with the selection
      recorded as null) or exactly the cache of a live selected object under the
      current scope. */
  lemma FrameRendersLiveSelectionOrNothing(events: seq<Event>, alive: set<GameObject>, scene: Scene)
    ensures
      var s := Run(Initial, events + [Event(Frame, alive)], scene);
      (s.selectedIsNull ==> s.cache == []) &&
      (!s.selectedIsNull ==> s.selected.Some? && s.selected.value in alive &&
                             s.cache == CacheFor(scene, s.selected.value, s.selectChildren)) &&
      s.lastSelectChild == s.selectChildren
  {
    InitialConsistent(scene);
    RunSnoc(Initial, events, Event(Frame, alive), scene);
    var before := Run(Initial, events, scene);
    RunPreservesConsistent(Initial, events, scene);
    var now := scene.(alive := alive);
    DestroyPreservesConsistent(before, scene, scene.alive - alive);
    NoticeDestroyedPreservesConsistent(before, now);
  }

  // ---------------------------------------------------------------------------
  // A worked example

  /** A live root whose own colliders are one non-trigger box and one trigger
      sphere, selected with its descendants excluded and both categories drawn:
      the cache holds the sphere and then the box, and the frame draws the sphere
      with the trigger material and the box with the collider material. */
  lemma BoxAndSphereExample(scene: Scene, root: GameObject, box: Collider, sphere: Collider)
    requires root in scene.alive
    requires box.shape == BoxShape && !box.isTrigger
    requires sphere.shape == SphereShape && sphere.isTrigger
    requires scene.own(root, CapsuleShape) == []
    requires scene.own(root, SphereShape) == [sphere]
    requires scene.own(root, BoxShape) == [box]
    ensures SelectObjectStep(SetSelectChildrenStep(Initial, false, scene), Some(root), scene).cache
         == [Entry(sphere, SPHERE, true), Entry(box, BOX, false)]
    ensures Render(SelectObjectStep(SetSelectChildrenStep(Initial, false, scene), Some(root), scene).cache, true, true)
         == [DrawCall(SphereMesh, Trs(SphereShape, sphere), TriggerMat),
             DrawCall(BoxMesh, Trs(BoxShape, box), ColliderMat)]
  {
    var selfOnly := SetSelectChildrenStep(Initial, false, scene);
    assert !selfOnly.selectChildren && selfOnly.selected == None;
    var data := CacheOf([], [sphere], [box]);
    assert CacheFor(scene, root, false) == data;
    CacheLayout([], [sphere], [box]);
    assert [sphere][0] == sphere && [box][0] == box;
    assert data == [Entry(sphere, SPHERE, true), Entry(box, BOX, false)];
    assert SelectObjectStep(selfOnly, Some(root), scene).cache == data;
    RenderEverythingWhenBothOn(data);
  }

  // ---------------------------------------------------------------------------
  // The component

  /** The DrawColliders component. Its renderer is created on first use. */
  class DrawColliders {
    var drawColliders: bool
    var drawTriggers: bool
    var selectedObject: Option<GameObject>
    var selectChildren: bool
    var selectedIsNull: bool
    var lastSelectChild: bool
    var cRender: ColliderRenderer?

    ghost predicate Valid()
      reads this, cRender
    {
      Coherent(Model()) &&
      (cRender != null ==> cRender.Valid())
    }

    /** The selection fields and the cache; a renderer not yet created holds an
        empty cache, as its constructor would leave it. */
    ghost function Model(): State
      reads this, cRender
    {
      State(selectedObject, selectChildren, selectedIsNull, lastSelectChild,
            if cRender == null then [] else cRender.colliderData)
    }

    /** The field initialisers: colliders drawn, triggers not, nothing selected,
        children included, no renderer yet. */
    constructor ()
      ensures Valid() && Model() == Initial
      ensures drawColliders && !drawTriggers && cRender == null
    {
      drawColliders := true;
      drawTriggers := false;
      selectedObject := None;
      selectChildren := true;
      selectedIsNull := true;
      lastSelectChild := true;
      cRender := null;
    }

    /** The ColRenderer property: creates the renderer on first access. */
    method ColRenderer() returns (r: ColliderRenderer)
      requires Valid()
      modifies this`cRender
      ensures Valid() && r == cRender
      ensures old(cRender) != null ==> r == old(cRender)
      ensures old(cRender) == null ==> fresh(r)
      ensures Model() == old(Model())
    {
      if cRender == null {
        cRender := new ColliderRenderer();
      }
      r := cRender;
    }

    /** The SelectChildren setter. */
    method SetSelectChildren(value: bool, scene: Scene)
      requires Valid()
      modifies this, cRender
      ensures Valid()
      ensures Model() == SetSelectChildrenStep(old(Model()), value, scene)
      ensures drawColliders == old(drawColliders) && drawTriggers == old(drawTriggers)
    {
      if !selectedIsNull && value != selectChildren {
        var r := ColRenderer();
        r.FillColliderCache(selectedObject.value, value, scene);
      }
      selectChildren := value;
      lastSelectChild := value;
    }

    method SelectObject(toSelect: Option<GameObject>, scene: Scene)
      requires Valid()
      modifies this, cRender
      ensures Valid()
      ensures Model() == SelectObjectStep(old(Model()), toSelect, scene)
      ensures drawColliders == old(drawColliders) && drawTriggers == old(drawTriggers)
    {
      if !SameObject(toSelect, selectedObject, scene) {
        var r := ColRenderer();
        if !IsNull(toSelect, scene) {
          r.FillColliderCache(toSelect.value, selectChildren, scene);
        } else {
          r.ResetColliderCache();
        }
        selectedObject := toSelect;
        selectedIsNull := IsNull(selectedObject, scene);
      }
    }

    /** The SelectedObject setter forwards to SelectObject. */
    method SetSelectedObject(value: Option<GameObject>, scene: Scene)
      requires Valid()
      modifies this, cRender
      ensures Valid()
      ensures Model() == SelectObjectStep(old(Model()), value, scene)
      ensures drawColliders == old(drawColliders) && drawTriggers == old(drawTriggers)
    {
      SelectObject(value, scene);
    }

    /** The per-frame hook: notices a destroyed selection, then renders the cache
        and returns the draw calls issued. */
    method OnPreCull(scene: Scene) returns (draws: seq<DrawCall>)
      requires Valid()
      modifies this, cRender
      ensures Valid()
      ensures Model() == NoticeDestroyed(old(Model()), scene)
      ensures draws == Render(Model().cache, drawColliders, drawTriggers)
      ensures drawColliders == old(drawColliders) && drawTriggers == old(drawTriggers)
    {
      if !selectedIsNull && IsNull(selectedObject, scene) {
        var r := ColRenderer();
        r.ResetColliderCache();
        selectedIsNull := true;
      }
      var r := ColRenderer();
      draws := r.RenderColliders(drawColliders, drawTriggers);
    }
  }
}
