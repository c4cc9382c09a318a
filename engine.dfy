/** The host engine as seen by the collider debug view: game objects with an
    "alive" bit, collider components with a shape and a trigger flag, and the
    engine's component queries as uninterpreted values of a scene. */
module Engine {

  /** A possibly-null reference. */
  datatype Option<+T> = None | Some(value: T)

  /** A game object handle. Destroying the object does not change the handle;
      it only removes it from the scene's alive set. */
  datatype GameObject = GameObject(id: nat)

  /** The three collider component classes the view knows about. */
  datatype Shape = CapsuleShape | SphereShape | BoxShape

  /** A collider component handle: its class and its isTrigger flag. */
  datatype Collider = Collider(id: nat, shape: Shape, isTrigger: bool)

  /** The engine state the view reads: which objects are alive, and the results of
      GetComponents<T>() and GetComponentsInChildren<T>() for each object and each
      collider class. */
  datatype Scene = Scene(
    alive: set<GameObject>,
    own: (GameObject, Shape) -> seq<Collider>,
    withChildren: (GameObject, Shape) -> seq<Collider>)

  /** The engine's typing guarantee: a query for components of class T returns
      only components of class T. */
  ghost predicate WellFormed(scene: Scene) {
    (forall g, k, i :: 0 <= i < |scene.own(g, k)| ==> scene.own(g, k)[i].shape == k) &&
    (forall g, k, i :: 0 <= i < |scene.withChildren(g, k)| ==> scene.withChildren(g, k)[i].shape == k)
  }

  /** `o == null` under the engine's overloaded equality: a real null, or a
      reference to an object that has been destroyed. */
  predicate IsNull(o: Option<GameObject>, scene: Scene) {
    match o
    case None => true
    case Some(g) => g !in scene.alive
  }

  /** `a == b` under the engine's overloaded equality on objects: two real nulls
      are equal, a real null equals any destroyed object, and two non-null
      references are equal exactly when they are the same object. */
  predicate SameObject(a: Option<GameObject>, b: Option<GameObject>, scene: Scene) {
    match (a, b)
    case (None, None) => true
    case (None, Some(g)) => g !in scene.alive
    case (Some(g), None) => g !in scene.alive
    case (Some(g), Some(h)) => g == h
  }

  /** The engine's equality is reflexive and symmetric; it can tell a live object
      from every other reference; and it treats a destroyed object like null. */
  lemma SameObjectProperties(a: Option<GameObject>, b: Option<GameObject>, scene: Scene)
    ensures SameObject(a, a, scene)
    ensures SameObject(a, b, scene) == SameObject(b, a, scene)
    ensures !IsNull(a, scene) ==> (SameObject(a, b, scene) <==> a == b)
    ensures IsNull(a, scene) && b.None? ==> SameObject(a, b, scene)
  {
  }
}
