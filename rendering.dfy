/** The collider cache and the per-frame render filter of the debug view
    (the nested ColliderRenderer class of DrawColliders.cs). */
module Rendering {
  import opened Engine

  /** The ColliderType enumeration: its values are the indices of the per-shape
      arrays in the cache (capsules, spheres, boxes), and None is -1. */
  type ColliderType = int
  const NONE: ColliderType := -1
  const CAPSULE: ColliderType := 0
  const SPHERE: ColliderType := 1
  const BOX: ColliderType := 2

  /** The enumeration value that names a collider class. */
  function TypeOf(shape: Shape): (t: ColliderType)
    ensures CAPSULE <= t <= BOX
  {
    match shape
    case CapsuleShape => CAPSULE
    case SphereShape => SPHERE
    case BoxShape => BOX
  }

  /** One entry of colliderData: (collider, type, isTrigger). */
  datatype Entry = Entry(collider: Collider, kind: ColliderType, isTrigger: bool)

  /** The three wireframe meshes cloned from the engine's built-ins. */
  datatype MeshKind = CapsuleMesh | SphereMesh | BoxMesh

  /** The two flat-colour materials. */
  datatype MaterialKind = ColliderMat | TriggerMat

  /** The model matrix handed to the draw call, abstracted to the branch of
      GetMatrix that computes it and the collider it is computed from. */
  datatype Matrix = Trs(branch: Shape, of: Collider)

  /** One Graphics.DrawMesh call. */
  datatype DrawCall = DrawCall(mesh: MeshKind, matrix: Matrix, material: MaterialKind)

  /** The mesh of each shape, as the view means it to be drawn. */
  function MeshOf(shape: Shape): MeshKind {
    match shape
    case CapsuleShape => CapsuleMesh
    case SphereShape => SphereMesh
    case BoxShape => BoxMesh
  }

  /** GetMesh: the capsule and box values select their meshes; Sphere and every
      other value (None included) fall back to the sphere mesh. */
  function GetMesh(t: ColliderType): (m: MeshKind)
    ensures m == CapsuleMesh <==> t == CAPSULE
    ensures m == BoxMesh <==> t == BOX
    ensures m == SphereMesh <==> t != CAPSULE && t != BOX
  {
    if t == CAPSULE then CapsuleMesh
    else if t == BOX then BoxMesh
    else SphereMesh
  }

  /** The branch GetMatrix takes: capsule and box have their own, and Sphere and
      every other value take the sphere (bounds-based) branch. */
  function MatrixBranch(t: ColliderType): (b: Shape)
    ensures b == CapsuleShape <==> t == CAPSULE
    ensures b == BoxShape <==> t == BOX
    ensures b == SphereShape <==> t != CAPSULE && t != BOX
  {
    if t == CAPSULE then CapsuleShape
    else if t == BOX then BoxShape
    else SphereShape
  }

  /** For every value that names a shape, the mesh and the matrix branch are the
      ones of that shape, so the casts in the capsule and box branches succeed. */
  lemma TypeSelectsShape(shape: Shape)
    ensures GetMesh(TypeOf(shape)) == MeshOf(shape)
    ensures MatrixBranch(TypeOf(shape)) == shape
  {
  }

  /** GetComponents: the engine query for one collider class on the root alone or
      on the root and its descendants. */
  function GetComponents(scene: Scene, root: GameObject, inChildren: bool, kind: Shape): (r: seq<Collider>)
    ensures WellFormed(scene) ==> forall i :: 0 <= i < |r| ==> r[i].shape == kind
  {
    if inChildren then scene.withChildren(root, kind) else scene.own(root, kind)
  }

  /** The entry FillColliderData adds for collider `col` of array `t`. */
  function Tag(col: Collider, t: ColliderType): Entry {
    Entry(col, t, col.isTrigger)
  }

  /** The entries of one per-shape array, in order. */
  function TagAll(cols: seq<Collider>, t: ColliderType): seq<Entry> {
    if cols == [] then []
    else TagAll(cols[..|cols| - 1], t) + [Tag(cols[|cols| - 1], t)]
  }

  /** The entries of a sequence of per-shape arrays, array by array, each tagged
      with its index. */
  function Flatten(all: seq<seq<Collider>>): seq<Entry> {
    if all == [] then []
    else Flatten(all[..|all| - 1]) + TagAll(all[|all| - 1], |all| - 1)
  }

  /** The colliderData built from the three per-shape arrays. */
  function CacheOf(capsules: seq<Collider>, spheres: seq<Collider>, boxes: seq<Collider>): seq<Entry> {
    Flatten([capsules, spheres, boxes])
  }

  /** The colliderData FillColliderCache builds for `root` under scope `inChildren`. */
  function CacheFor(scene: Scene, root: GameObject, inChildren: bool): seq<Entry> {
    CacheOf(GetComponents(scene, root, inChildren, CapsuleShape),
            GetComponents(scene, root, inChildren, SphereShape),
            GetComponents(scene, root, inChildren, BoxShape))
  }

  lemma {:induction false} TagAllAt(cols: seq<Collider>, t: ColliderType)
    ensures |TagAll(cols, t)| == |cols|
    ensures forall k :: 0 <= k < |cols| ==> TagAll(cols, t)[k] == Tag(cols[k], t)
  {
    if cols != [] {
      var init := cols[..|cols| - 1];
      TagAllAt(init, t);
      assert forall k :: 0 <= k < |init| ==> init[k] == cols[k];
    }
  }

  /** The layout of colliderData: capsules in order, then spheres, then boxes;
      every entry carries its array's index as type and copies the collider's
      isTrigger flag. */
  lemma CacheLayout(capsules: seq<Collider>, spheres: seq<Collider>, boxes: seq<Collider>)
    ensures |CacheOf(capsules, spheres, boxes)| == |capsules| + |spheres| + |boxes|
    ensures forall k :: 0 <= k < |capsules| ==>
      CacheOf(capsules, spheres, boxes)[k] == Entry(capsules[k], CAPSULE, capsules[k].isTrigger)
    ensures forall k :: 0 <= k < |spheres| ==>
      CacheOf(capsules, spheres, boxes)[|capsules| + k] == Entry(spheres[k], SPHERE, spheres[k].isTrigger)
    ensures forall k :: 0 <= k < |boxes| ==>
      CacheOf(capsules, spheres, boxes)[|capsules| + |spheres| + k] == Entry(boxes[k], BOX, boxes[k].isTrigger)
  {
    var all := [capsules, spheres, boxes];
    assert all[..0] == [];
    assert all[..1][..0] == all[..0];
    assert all[..2][..1] == all[..1];
    assert all[..3][..2] == all[..2];
    assert all[..3] == all;
    assert Flatten(all[..1]) == TagAll(capsules, CAPSULE);
    assert Flatten(all[..2]) == TagAll(capsules, CAPSULE) + TagAll(spheres, SPHERE);
    assert Flatten(all) == TagAll(capsules, CAPSULE) + TagAll(spheres, SPHERE) + TagAll(boxes, BOX);
    TagAllAt(capsules, CAPSULE);
    TagAllAt(spheres, SPHERE);
    TagAllAt(boxes, BOX);
  }

  /** With no colliders the cache is empty. */
  lemma CacheOfEmpty()
    ensures CacheOf([], [], []) == []
  {
    CacheLayout([], [], []);
  }

  /** When each array holds only its own class (as the engine guarantees), every
      entry's type names its collider's class: GetMesh and GetMatrix never reach
      their fallback and never cast a collider to the wrong class. */
  lemma CacheTypesMatchShapes(capsules: seq<Collider>, spheres: seq<Collider>, boxes: seq<Collider>)
    requires forall i :: 0 <= i < |capsules| ==> capsules[i].shape == CapsuleShape
    requires forall i :: 0 <= i < |spheres| ==> spheres[i].shape == SphereShape
    requires forall i :: 0 <= i < |boxes| ==> boxes[i].shape == BoxShape
    ensures forall e :: e in CacheOf(capsules, spheres, boxes) ==>
      e.kind == TypeOf(e.collider.shape) &&
      GetMesh(e.kind) == MeshOf(e.collider.shape) &&
      MatrixBranch(e.kind) == e.collider.shape
  {
    var data := CacheOf(capsules, spheres, boxes);
    CacheLayout(capsules, spheres, boxes);
    forall e | e in data
      ensures e.kind == TypeOf(e.collider.shape)
    {
      var k :| 0 <= k < |data| && data[k] == e;
      if k < |capsules| {
        assert e.collider == capsules[k] && e.kind == CAPSULE;
      } else if k < |capsules| + |spheres| {
        var j := k - |capsules|;
        assert data[|capsules| + j] == e;
        assert e.collider == spheres[j] && e.kind == SPHERE;
      } else {
        var j := k - |capsules| - |spheres|;
        assert data[|capsules| + |spheres| + j] == e;
        assert e.collider == boxes[j] && e.kind == BOX;
      }
    }
  }

  /** A cache built from a well-formed scene names each collider's own class. */
  lemma CacheForTypesMatchShapes(scene: Scene, root: GameObject, inChildren: bool)
    requires WellFormed(scene)
    ensures forall e :: e in CacheFor(scene, root, inChildren) ==>
      GetMesh(e.kind) == MeshOf(e.collider.shape) && MatrixBranch(e.kind) == e.collider.shape
  {
    CacheTypesMatchShapes(GetComponents(scene, root, inChildren, CapsuleShape),
                          GetComponents(scene, root, inChildren, SphereShape),
                          GetComponents(scene, root, inChildren, BoxShape));
  }

  /** The filter of RenderColliders: an entry is drawn unless its category
      (trigger or collider) is switched off. */
  predicate Enabled(e: Entry, drawColliders: bool, drawTriggers: bool)
    ensures Enabled(e, drawColliders, drawTriggers) <==> if e.isTrigger then drawTriggers else drawColliders
  {
    !((!e.isTrigger && !drawColliders) || (e.isTrigger && !drawTriggers))
  }

  /** The draw call RenderColliders issues for an entry it does not skip. */
  function DrawOf(e: Entry): (d: DrawCall)
    ensures d.material == TriggerMat <==> e.isTrigger
    ensures d.matrix.of == e.collider
  {
    DrawCall(GetMesh(e.kind), Trs(MatrixBranch(e.kind), e.collider),
             if e.isTrigger then TriggerMat else ColliderMat)
  }

  /** The draw calls of one RenderColliders pass over `data`, in order. */
  function Render(data: seq<Entry>, drawColliders: bool, drawTriggers: bool): seq<DrawCall> {
    if data == [] then []
    else
      var last := data[|data| - 1];
      Render(data[..|data| - 1], drawColliders, drawTriggers)
        + (if Enabled(last, drawColliders, drawTriggers) then [DrawOf(last)] else [])
  }

  /** The indices of the entries of `data` that pass the filter, in increasing order. */
  function DrawnIndices(data: seq<Entry>, drawColliders: bool, drawTriggers: bool): seq<nat> {
    if data == [] then []
    else
      DrawnIndices(data[..|data| - 1], drawColliders, drawTriggers)
        + (if Enabled(data[|data| - 1], drawColliders, drawTriggers) then [|data| - 1] else [])
  }

  /** A render pass issues exactly one draw per enabled entry and none for the
      others, in list order: the k-th draw is the one of the k-th enabled entry. */
  lemma {:induction false} RenderDrawsEnabledInOrder(data: seq<Entry>, drawColliders: bool, drawTriggers: bool)
    ensures |DrawnIndices(data, drawColliders, drawTriggers)| == |Render(data, drawColliders, drawTriggers)|
    ensures forall k :: 0 <= k < |DrawnIndices(data, drawColliders, drawTriggers)| ==>
      DrawnIndices(data, drawColliders, drawTriggers)[k] < |data| &&
      Enabled(data[DrawnIndices(data, drawColliders, drawTriggers)[k]], drawColliders, drawTriggers) &&
      Render(data, drawColliders, drawTriggers)[k] == DrawOf(data[DrawnIndices(data, drawColliders, drawTriggers)[k]])
    ensures forall k, l :: 0 <= k < l < |DrawnIndices(data, drawColliders, drawTriggers)| ==>
      DrawnIndices(data, drawColliders, drawTriggers)[k] < DrawnIndices(data, drawColliders, drawTriggers)[l]
    ensures forall i :: 0 <= i < |data| && Enabled(data[i], drawColliders, drawTriggers) ==>
      i in DrawnIndices(data, drawColliders, drawTriggers)
  {
    if data != [] {
      var n := |data| - 1;
      var init := data[..n];
      RenderDrawsEnabledInOrder(init, drawColliders, drawTriggers);
      assert forall i :: 0 <= i < n ==> init[i] == data[i];
      var idx0 := DrawnIndices(init, drawColliders, drawTriggers);
      var idx := DrawnIndices(data, drawColliders, drawTriggers);
      var r0 := Render(init, drawColliders, drawTriggers);
      var r := Render(data, drawColliders, drawTriggers);
      if Enabled(data[n], drawColliders, drawTriggers) {
        assert idx == idx0 + [n] && r == r0 + [DrawOf(data[n])];
      } else {
        assert idx == idx0 && r == r0;
      }
      forall k | 0 <= k < |idx|
        ensures idx[k] < |data| && Enabled(data[idx[k]], drawColliders, drawTriggers)
        ensures r[k] == DrawOf(data[idx[k]])
      {
        if k < |idx0| {
          assert idx[k] == idx0[k] && r[k] == r0[k];
        }
      }
      forall i | 0 <= i < |data| && Enabled(data[i], drawColliders, drawTriggers)
        ensures i in idx
      {
        if i < n {
          assert i in idx0;
        } else {
          assert idx[|idx| - 1] == n;
        }
      }
    }
  }

  /** With both categories switched off a render pass issues no draw at all. */
  lemma {:induction false} RenderNothingWhenBothOff(data: seq<Entry>)
    ensures Render(data, false, false) == []
  {
    if data != [] {
      RenderNothingWhenBothOff(data[..|data| - 1]);
    }
  }

  /** With both categories switched on every entry is drawn, in order. */
  lemma {:induction false} RenderEverythingWhenBothOn(data: seq<Entry>)
    ensures |Render(data, true, true)| == |data|
    ensures forall k :: 0 <= k < |data| ==> Render(data, true, true)[k] == DrawOf(data[k])
  {
    if data != [] {
      var init := data[..|data| - 1];
      RenderEverythingWhenBothOn(init);
      assert forall k :: 0 <= k < |init| ==> init[k] == data[k];
    }
  }

  /** Every draw uses the trigger material exactly when its entry is a trigger, so
      switching a category off removes every draw with that category's material. */
  lemma RenderMaterials(data: seq<Entry>, drawColliders: bool, drawTriggers: bool)
    ensures forall d :: d in Render(data, drawColliders, drawTriggers) ==>
      (d.material == TriggerMat ==> drawTriggers) && (d.material == ColliderMat ==> drawColliders)
  {
    RenderDrawsEnabledInOrder(data, drawColliders, drawTriggers);
    var r := Render(data, drawColliders, drawTriggers);
    var idx := DrawnIndices(data, drawColliders, drawTriggers);
    forall d | d in r
      ensures (d.material == TriggerMat ==> drawTriggers) && (d.material == ColliderMat ==> drawColliders)
    {
      var k :| 0 <= k < |r| && r[k] == d;
      assert Enabled(data[idx[k]], drawColliders, drawTriggers);
    }
  }

  /** The cache and the three per-shape arrays of the debug view. */
  class ColliderRenderer {
    var capsuleColliders: seq<Collider>
    var sphereColliders: seq<Collider>
    var boxColliders: seq<Collider>
    var allColliders: seq<seq<Collider>>
    var colliderData: seq<Entry>

    /** colliderData is the flattening of the current three arrays. */
    ghost predicate Valid()
      reads this
    {
      colliderData == CacheOf(capsuleColliders, sphereColliders, boxColliders)
    }

    /** The constructor empties the cache (mesh and material creation are not
        part of this model). */
    constructor ()
      ensures Valid()
      ensures capsuleColliders == [] && sphereColliders == [] && boxColliders == []
      ensures colliderData == []
    {
      capsuleColliders, sphereColliders, boxColliders := [], [], [];
      allColliders, colliderData := [], [];
      new;
      ResetColliderCache();
    }

    /** Replaces the three arrays with the engine's colliders of `root` under the
        given scope and rebuilds colliderData from them. */
    method FillColliderCache(root: GameObject, inChildren: bool, scene: Scene)
      modifies this
      ensures Valid()
      ensures capsuleColliders == GetComponents(scene, root, inChildren, CapsuleShape)
      ensures sphereColliders == GetComponents(scene, root, inChildren, SphereShape)
      ensures boxColliders == GetComponents(scene, root, inChildren, BoxShape)
      ensures colliderData == CacheFor(scene, root, inChildren)
    {
      capsuleColliders := GetComponents(scene, root, inChildren, CapsuleShape);
      sphereColliders := GetComponents(scene, root, inChildren, SphereShape);
      boxColliders := GetComponents(scene, root, inChildren, BoxShape);
      FillColliderData();
    }

    /** Replaces the three arrays with empty ones and rebuilds (empties) colliderData. */
    method ResetColliderCache()
      modifies this
      ensures Valid()
      ensures capsuleColliders == [] && sphereColliders == [] && boxColliders == []
      ensures colliderData == []
    {
      capsuleColliders := [];
      sphereColliders := [];
      boxColliders := [];
      FillColliderData();
      CacheOfEmpty();
    }

    /** Builds colliderData array by array, entry by entry. */
    method FillColliderData()
      modifies this
      ensures Valid()
      ensures capsuleColliders == old(capsuleColliders)
      ensures sphereColliders == old(sphereColliders)
      ensures boxColliders == old(boxColliders)
      ensures allColliders == [capsuleColliders, sphereColliders, boxColliders]
    {
      allColliders := [capsuleColliders, sphereColliders, boxColliders];
      colliderData := [];
      for i := 0 to |allColliders|
        modifies this`colliderData
        invariant colliderData == Flatten(allColliders[..i])
      {
        for j := 0 to |allColliders[i]|
          modifies this`colliderData
          invariant colliderData == Flatten(allColliders[..i]) + TagAll(allColliders[i][..j], i)
        {
          var col := allColliders[i][j];
          assert allColliders[i][..j + 1][..j] == allColliders[i][..j];
          colliderData := colliderData + [Entry(col, i, col.isTrigger)];
        }
        assert allColliders[i][..|allColliders[i]|] == allColliders[i];
        assert allColliders[..i + 1][..i] == allColliders[..i];
      }
      assert allColliders[..|allColliders|] == allColliders;
    }

    /** One render pass: walks colliderData in order and returns the draw calls
        issued for the entries whose category is switched on. */
    method RenderColliders(drawColliders: bool, drawTriggers: bool) returns (draws: seq<DrawCall>)
      ensures draws == Render(colliderData, drawColliders, drawTriggers)
    {
      draws := [];
      for i := 0 to |colliderData|
        invariant draws == Render(colliderData[..i], drawColliders, drawTriggers)
      {
        var col := colliderData[i];
        assert colliderData[..i + 1][..i] == colliderData[..i];
        if (!col.isTrigger && !drawColliders) || (col.isTrigger && !drawTriggers) {
          continue;
        }
        var m := GetMesh(col.kind);
        var mat := if col.isTrigger then TriggerMat else ColliderMat;
        draws := draws + [DrawCall(m, Trs(MatrixBranch(col.kind), col.collider), mat)];
      }
      assert colliderData[..|colliderData|] == colliderData;
    }
  }
}
