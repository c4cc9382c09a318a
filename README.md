# Collider debug view: a Dafny model

UnityColliderDebugView is a component you put on a camera. It draws wireframe gizmos for the capsule, sphere and box colliders of a selected game object, and optionally of its descendants. Regular colliders and trigger colliders get different colours. This project models the logic of that component in `Assets/Scripts/DrawColliders.cs` and proves properties of it:

- **The selection/cache controller** (`DrawColliders`, module `Selection`). Its fields are `selectedObject`, `selectChildren`, `selectedIsNull` and `lastSelectChild`, plus the renderer, which is created the first time it is used. The `SelectedObject` and `SelectChildren` setters, `SelectObject` and the check at the start of `OnPreCull` each decide whether the collider cache is rebuilt, emptied or left alone. Every method is proved against a pure step function (`SelectObjectStep`, `SetSelectChildrenStep`, `NoticeDestroyed`) on an abstract `State`. The lemmas prove the promised behaviour of those step functions: each case, idempotence, an invariant `Consistent` that every step keeps, and what the next frame draws after the selection is destroyed. By induction over any history of inspector edits, frames and changes to which objects are alive (`Run`), every frame renders either nothing or exactly the cache of a live selected object under the current scope. In that history the component queries stay fixed (see "## Left out").
- **The collider cache and render filter** (`ColliderRenderer`, module `Rendering`). `FillColliderCache` and `ResetColliderCache` replace the three per-shape arrays. `FillColliderData` flattens them with nested loops into `colliderData`: capsules first, then spheres, then boxes. Each entry is tagged with its array's index as its `ColliderType` and copies the collider's `isTrigger` flag. `RenderColliders` walks the list and issues one draw for each entry whose category is switched on. Each draw takes the mesh `GetMesh` picks, the trigger or collider material, and a matrix from one branch of `GetMatrix`.

The engine is abstracted in module `Engine`:

- Game objects are handles. A `Scene` holds the set of objects that are alive.
- Colliders are handles with a class (capsule, sphere, box) and a trigger flag.
- `GetComponents<T>()` and `GetComponentsInChildren<T>()` are two uninterpreted function values of the `Scene`.
- Unity's overloaded `==` on objects is modelled with the alive set (`IsNull`, `SameObject`). A real null and a destroyed object are both "null". Two non-null references are equal exactly when they are the same object.
- `Graphics.DrawMesh` is modelled by returning the sequence of draw calls (`DrawCall`: mesh, matrix branch and collider, material). So `RenderColliders` changes no state.

Four behaviours of the component that a reader might not expect:

- Setting the scope while nothing is selected does not rebuild the cache. The rebuild happens at the next selection.
- `SelectObject(null)` while the selected object is destroyed but not yet noticed is a no-op. The engine's equality finds the destroyed object equal to null (`DeselectOfDestroyedIsDeferred`). The cache is emptied at the next `OnPreCull` instead (`DeselectEmptiesByNextFrame`).
- The cache lists spheres before boxes.
- The cache is a snapshot. Colliders added, or removed without being destroyed, after a rebuild are not seen until the next rebuild. Each entry's trigger flag is the one copied at rebuild time. A cached collider that is destroyed stays in the cache too; in the component, the render pass then throws when it reaches that entry (see "## Left out").

## Model

| member | source | states |
|---|---|---|
| `Engine.SameObjectProperties` | Assets/Scripts/DrawColliders.cs:78 | the object equality used by `SelectObject` is reflexive and symmetric, is identity for a live object, and equates a destroyed object with null |
| `Rendering.TypeOf` | Assets/Scripts/DrawColliders.cs:96-105 | the ColliderType naming a collider class is always one of Capsule = 0, Sphere = 1, Box = 2, never None |
| `Rendering.GetMesh` | Assets/Scripts/DrawColliders.cs:220-240 | Capsule selects the capsule mesh and Box the box mesh (both if and only if); Sphere and every other value fall back to the sphere mesh |
| `Rendering.MatrixBranch` | Assets/Scripts/DrawColliders.cs:262-317 | GetMatrix takes the capsule branch exactly for Capsule, the box branch exactly for Box, and the sphere branch for every other value |
| `Rendering.TypeSelectsShape` | Assets/Scripts/DrawColliders.cs:96-105 | for the ColliderType of each collider class, the mesh and the matrix branch are those of that class |
| `Rendering.GetComponents` | Assets/Scripts/DrawColliders.cs:319-325 | given the engine's typing guarantee, the scope-selected query for class T yields only colliders of class T |
| `Rendering.TagAllAt` | Assets/Scripts/DrawColliders.cs:335-340 | the inner loop's entries for one array have that array's length, and entry k is the array's k-th collider with the array index as type and its trigger flag |
| `Rendering.CacheLayout` | Assets/Scripts/DrawColliders.cs:327-342 | colliderData has length capsules + spheres + boxes and holds the capsules in order, then the spheres, then the boxes, each typed by its array index and carrying its collider's isTrigger |
| `Rendering.CacheOfEmpty` | Assets/Scripts/DrawColliders.cs:174-181 | flattening three empty arrays gives an empty colliderData |
| `Rendering.CacheTypesMatchShapes` | Assets/Scripts/DrawColliders.cs:262-317 | when each array holds only its own class, every entry's type names its collider's class, so GetMesh and GetMatrix never fall back and their casts to CapsuleCollider and BoxCollider succeed |
| `Rendering.CacheForTypesMatchShapes` | Assets/Scripts/DrawColliders.cs:165-172 | a cache filled from a well-formed scene has, for every entry, the mesh and matrix branch of its collider's class |
| `Rendering.Enabled` | Assets/Scripts/DrawColliders.cs:199 | the skip test lets an entry through exactly when its category flag (drawTriggers for triggers, drawColliders otherwise) is set |
| `Rendering.DrawOf` | Assets/Scripts/DrawColliders.cs:201-204 | a draw uses the trigger material exactly when its entry is a trigger, and its matrix is computed from the entry's collider |
| `Rendering.RenderDrawsEnabledInOrder` | Assets/Scripts/DrawColliders.cs:197-205 | a render pass issues exactly one draw per enabled entry and none for the others, in list order |
| `Rendering.RenderNothingWhenBothOff` | Assets/Scripts/DrawColliders.cs:199 | with both category flags off a render pass issues no draws |
| `Rendering.RenderEverythingWhenBothOn` | Assets/Scripts/DrawColliders.cs:197-205 | with both category flags on every entry is drawn once, in order |
| `Rendering.RenderMaterials` | Assets/Scripts/DrawColliders.cs:204 | no draw uses the material of a category that is switched off |
| `Rendering.ColliderRenderer.constructor` | Assets/Scripts/DrawColliders.cs:146-160 | a new renderer has three empty arrays and an empty colliderData |
| `Rendering.ColliderRenderer.FillColliderCache` | Assets/Scripts/DrawColliders.cs:165-172 | the three arrays become the engine's colliders of the root under the given scope, and colliderData is rebuilt from them |
| `Rendering.ColliderRenderer.ResetColliderCache` | Assets/Scripts/DrawColliders.cs:174-181 | the three arrays and colliderData become empty |
| `Rendering.ColliderRenderer.FillColliderData` | Assets/Scripts/DrawColliders.cs:327-342 | the nested loops leave colliderData equal to the flattening of the three arrays (see CacheLayout) and allColliders equal to the three arrays, which are unchanged |
| `Rendering.ColliderRenderer.RenderColliders` | Assets/Scripts/DrawColliders.cs:183-207 | the loop returns exactly the draws of one render pass over colliderData and changes nothing |
| `Selection.SelectSameObjectChangesNothing` | Assets/Scripts/DrawColliders.cs:78-90 | selecting the object already selected (under the engine's equality) changes no field and does not touch the cache |
| `Selection.DeselectEmptiesCache` | Assets/Scripts/DrawColliders.cs:80-86 | selecting null while a live object is selected empties the cache, stores null and records selectedIsNull, leaving the scope alone |
| `Selection.SelectNewObjectRebuilds` | Assets/Scripts/DrawColliders.cs:80-86 | selecting a new live object rebuilds the cache from it under the current scope and clears selectedIsNull, leaving both scope fields alone |
| `Selection.SelectIdempotent` | Assets/Scripts/DrawColliders.cs:76-90 | selecting the same target twice is the same as selecting it once |
| `Selection.SetSelectChildrenCases` | Assets/Scripts/DrawColliders.cs:25-34 | the setter always stores the value into selectChildren and lastSelectChild, never changes the selection, and rebuilds from the same object only when something is selected and the value changes |
| `Selection.ScopeChangeKeepsTarget` | Assets/Scripts/DrawColliders.cs:27-30 | with a selection, after the setter the cache is that of the same object under the new scope |
| `Selection.ScopeWithoutSelection` | Assets/Scripts/DrawColliders.cs:27-33 | with nothing selected, the setter leaves cache and selection alone, and the next selection of a new object uses the new scope |
| `Selection.SetSelectChildrenIdempotent` | Assets/Scripts/DrawColliders.cs:25-34 | setting the same scope twice is the same as setting it once |
| `Selection.NoticeDestroyedCases` | Assets/Scripts/DrawColliders.cs:66-71 | the per-frame check empties the cache and sets selectedIsNull exactly when a selection recorded as non-null has become null, and never changes the selected reference or the scope |
| `Selection.NoticeDestroyedLeavesLiveSelection` | Assets/Scripts/DrawColliders.cs:66-71 | after the check, a selection recorded as non-null is a live object |
| `Selection.DestroyedSelectionDrawsNothing` | Assets/Scripts/DrawColliders.cs:64-74 | the frame after the selected object was destroyed draws nothing and records the selection as null |
| `Selection.DeselectEmptiesByNextFrame` | Assets/Scripts/DrawColliders.cs:64-90 | after selecting null, the next OnPreCull leaves an empty cache, whether or not the old selection had been destroyed |
| `Selection.DeselectOfDestroyedIsDeferred` | Assets/Scripts/DrawColliders.cs:78 | selecting null while a destroyed object is selected changes nothing, because the engine's equality finds the two equal |
| `Selection.InitialConsistent` | Assets/Scripts/DrawColliders.cs:41-45 | the initial field values satisfy the controller invariant |
| `Selection.SelectPreservesConsistent` | Assets/Scripts/DrawColliders.cs:76-90 | SelectObject keeps the invariant: the scope fields agree, and the cache is empty when the selection is recorded as null and is otherwise the selected object's cache under the current scope |
| `Selection.SetSelectChildrenPreservesConsistent` | Assets/Scripts/DrawColliders.cs:25-34 | the SelectChildren setter keeps the invariant |
| `Selection.NoticeDestroyedPreservesConsistent` | Assets/Scripts/DrawColliders.cs:66-71 | the per-frame check keeps the invariant |
| `Selection.DestroyPreservesConsistent` | Assets/Scripts/DrawColliders.cs:66-67 | changing which objects are alive between frames does not break the invariant, since the cache depends only on the component queries, which this lemma holds fixed |
| `Selection.Step` | Assets/Scripts/DrawColliders.cs:16-90 | an inspector selection, a scope change or a frame interleaved with object destruction never leaves a selection recorded as non-null without a reference |
| `Selection.Run` | Assets/Scripts/DrawColliders.cs:16-90 | a whole history of such events keeps a selection recorded as non-null a reference |
| `Selection.RunPreservesConsistent` | Assets/Scripts/DrawColliders.cs:16-90 | every history of selections, scope changes, frames and alive-set changes keeps the controller invariant, for one fixed pair of component queries |
| `Selection.FrameRendersLiveSelectionOrNothing` | Assets/Scripts/DrawColliders.cs:64-74 | after any history from the initial state (with fixed component queries), a frame renders no cache while the selection is recorded as null, and otherwise exactly the cache of a live selected object under the current scope |
| `Selection.BoxAndSphereExample` | Assets/Scripts/DrawColliders.cs:165-205 | a root with a non-trigger box and a trigger sphere, self-only, both flags on: the cache holds the sphere and then the box, drawn with the trigger and the collider material |
| `Selection.DrawColliders.constructor` | Assets/Scripts/DrawColliders.cs:38-45 | colliders drawn, triggers not, nothing selected, children included, no renderer yet |
| `Selection.DrawColliders.ColRenderer` | Assets/Scripts/DrawColliders.cs:47-61 | returns the existing renderer, or a fresh one with an empty cache on first access; the observable state does not change |
| `Selection.DrawColliders.SetSelectChildren` | Assets/Scripts/DrawColliders.cs:22-35 | the new state is SetSelectChildrenStep of the old one; the draw flags are unchanged |
| `Selection.DrawColliders.SelectObject` | Assets/Scripts/DrawColliders.cs:76-90 | the new state is SelectObjectStep of the old one; the draw flags are unchanged |
| `Selection.DrawColliders.SetSelectedObject` | Assets/Scripts/DrawColliders.cs:16-20 | the SelectedObject setter has exactly the effect of SelectObject |
| `Selection.DrawColliders.OnPreCull` | Assets/Scripts/DrawColliders.cs:64-74 | the new state is NoticeDestroyed of the old one, and the returned draws are one render pass over the resulting cache with the current flags |

## Left out

- `Assets/Scripts/Editor/DrawCollidersEditor.cs` is not part of this model. It is inspector GUI code that only forwards to the setters and to the two public draw flags.
- `GetMatrix` arithmetic (floating-point TRS matrices, look rotations, bounds, lossy scale). Only the branch taken is modelled, as `Trs(branch, collider)`.
- Mesh loading and cloning (`LoadDrawMeshes`, `CloneMesh`, `SetIndices`), shader and material creation, the HSV colours and the `ZTest` enumeration. These are engine resources. Meshes and materials are named by `MeshKind` and `MaterialKind`.
- `Graphics.DrawMesh` is represented by the returned draw sequence. `Debug.Log` is dropped.
- Unity's `GetComponents` and `GetComponentsInChildren` are uninterpreted. Their order, and how descendants are visited, are the engine's.
- The exception the engine raises when `FillColliderCache` runs on a destroyed object is not modelled. This happens through the `SelectChildren` setter before `OnPreCull` notices the destruction. The model rebuilds from the engine's component queries instead.
- The property getters and the public `drawColliders`/`drawTriggers` fields are plain field accesses and have no members of their own.
- Frame scheduling (`ExecuteAlways`, the camera callback order) and the `RequireComponent` attribute. No concurrency exists.
- `Selection.SelectPreservesConsistent`, `Selection.SetSelectChildrenPreservesConsistent`, `Selection.NoticeDestroyedPreservesConsistent`: the invariant is stated for one scene's component queries. In the component, colliders added or removed after a rebuild leave the cache stale until the next rebuild.
- `Selection.DestroyPreservesConsistent`, `Selection.RunPreservesConsistent`, `Selection.FrameRendersLiveSelectionOrNothing`: the component queries stay fixed across a history, and only the alive set of game objects changes. Colliders have no alive bit, so destroying an object never removes its colliders, or its children's, from the queries or from the cache. The model does not capture the exception that `GetMatrix` raises on a destroyed cached collider (bounds, transform or size; DrawColliders.cs:269-312). In the component, that exception aborts the render pass at that entry, every frame until the cache is rebuilt, while the model draws the entry.
