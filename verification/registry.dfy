/**
 The rigid-body registry of the physics library, reduced to what the game
 observes of it: a table from body handles to bodies that can be looked up,
 extended with a fresh handle, shrunk by removal, and whose bodies can be
 repositioned. Collision detection and time stepping are not part of this
 model; the game receives the step as a parameter.
 */
module Registry {
  import opened Options

  /** A point or a vector of the plane; coordinates are real numbers. */
  datatype Vec2 = Vec2(x: real, y: real)

  datatype BodyStatus = Dynamic | Kinematic | Static

  /** Collision shapes: a disc of the given radius, or a box given by its half-extents. */
  datatype Shape = Circle(radius: real) | Cuboid(halfWidth: real, halfHeight: real)

  /** Contact material: restitution and friction coefficients. */
  datatype Material = Material(restitution: real, friction: real)

  datatype Body = Body(position: Vec2, velocity: Vec2, status: BodyStatus, shape: Shape, material: Material)

  type Handle = nat

  /** Every live handle lies below `next`, so `next` is always free for a new body. */
  ghost predicate Fresh(bodies: map<Handle, Body>, next: Handle) {
    forall h :: h in bodies ==> h < next
  }

  datatype RawWorld = RawWorld(bodies: map<Handle, Body>, next: Handle)

  type World = w: RawWorld | Fresh(w.bodies, w.next) witness RawWorld(map[], 0)

  /** The empty registry a new game starts from. */
  function Empty(): (w: World)
    ensures w.bodies == map[]
  {
    RawWorld(map[], 0)
  }

  /** Looking up a handle yields the body, or None when the handle is not live. */
  function Lookup(w: World, h: Handle): (r: Option<Body>)
    ensures r.Some? <==> h in w.bodies
    ensures r.Some? ==> r.value == w.bodies[h]
  {
    if h in w.bodies then Some(w.bodies[h]) else None
  }

  /** Building a body registers it under a handle that was not live before. */
  function Insert(w: World, b: Body): (r: (World, Handle))
    ensures r.1 !in w.bodies
    ensures r.0.bodies.Keys == w.bodies.Keys + {r.1}
    ensures r.1 in r.0.bodies && r.0.bodies[r.1] == b
    ensures forall h :: h in w.bodies ==> r.0.bodies[h] == w.bodies[h]
  {
    (RawWorld(w.bodies[w.next := b], w.next + 1), w.next)
  }

  /** Removing a handle drops exactly that body; removing a dead handle changes nothing. */
  function Remove(w: World, h: Handle): (r: World)
    ensures r.bodies.Keys == w.bodies.Keys - {h}
    ensures forall h' :: h' in r.bodies ==> r.bodies[h'] == w.bodies[h']
    ensures h !in w.bodies ==> r == w
  {
    if h in w.bodies then RawWorld(w.bodies - {h}, w.next) else w
  }

  /**
   Moves the body at `h` vertically by `dy`, keeping its x coordinate and every
   other attribute; a dead handle leaves the registry as it was.
   */
  function ShiftY(w: World, h: Handle, dy: real): (r: World)
    ensures r.bodies.Keys == w.bodies.Keys
    ensures h !in w.bodies ==> r == w
    ensures h in w.bodies ==>
              var b := w.bodies[h];
              r.bodies[h] == b.(position := Vec2(b.position.x, b.position.y + dy))
    ensures forall h' :: h' in w.bodies && h' != h ==> r.bodies[h'] == w.bodies[h']
  {
    if h in w.bodies then
      var b := w.bodies[h];
      RawWorld(w.bodies[h := b.(position := Vec2(b.position.x, b.position.y + dy))], w.next)
    else
      w
  }

  /** Shifting by `dy` and then by `-dy` gives back the registry unchanged. */
  lemma ShiftYInverse(w: World, h: Handle, dy: real)
    ensures ShiftY(ShiftY(w, h, dy), h, -dy) == w
  {
  }
}
