// The small part of the physics engine (Matter.js) that the game's own code
// touches: a body as a plain record whose setters assign fields, and a world
// that holds bodies and constraints. Body and constraint identity is the
// engine's id, drawn from one shared counter as Matter.js does.
module Physics {

  /** JavaScript's null / undefined next to a present value. */
  datatype Option<T> = None | Some(value: T)

  datatype Vec = Vec(x: int, y: int)

  const Zero := Vec(0, 0)

  /** An engine body, reduced to what the game reads or writes. */
  datatype Body = Body(
    id: nat,
    position: Vec,
    velocity: Vec,
    angularVelocity: int,
    isStatic: bool,
    fillStyle: Option<string>)

  /** Body.setStatic */
  function SetStatic(b: Body, flag: bool): Body { b.(isStatic := flag) }

  /** Body.setPosition */
  function SetPosition(b: Body, p: Vec): Body { b.(position := p) }

  /** Body.setVelocity */
  function SetVelocity(b: Body, v: Vec): Body { b.(velocity := v) }

  /** Body.setAngularVelocity */
  function SetAngularVelocity(b: Body, w: int): Body { b.(angularVelocity := w) }

  /** A freshly created dynamic body at rest at p, drawn with the given colour. */
  function NewBody(id: nat, p: Vec, fill: Option<string>): Body { Body(id, p, Zero, 0, false, fill) }

  /** The engine world: the ids of the bodies in it, the constraints added to
      it (a constraint may be added twice; removal takes away one occurrence)
      and the id counter. */
  class World {
    var bodies: set<nat>
    var constraints: multiset<nat>
    var nextId: nat

    /** Every body and constraint in the world has an id the counter handed
        out, so a new id is not yet among them. */
    ghost predicate Valid()
      reads this
    {
      (forall b :: b in bodies ==> b < nextId) &&
      (forall c :: c in constraints ==> c < nextId)
    }

    constructor ()
      ensures Valid()
      ensures bodies == {} && constraints == multiset{} && nextId == 0
    {
      bodies, constraints, nextId := {}, multiset{}, 0;
    }

    /** Common.nextId: a fresh id for a new body or constraint. */
    method NewId() returns (id: nat)
      modifies this`nextId
      ensures id == old(nextId) && nextId == id + 1
      ensures old(Valid()) ==> Valid()
    {
      id := nextId;
      nextId := nextId + 1;
    }

    /** Composite.add of one body. */
    method AddBody(b: nat)
      modifies this`bodies
      ensures bodies == old(bodies) + {b}
      ensures old(Valid()) && b < nextId ==> Valid()
    {
      bodies := bodies + {b};
    }

    /** Composite.remove of one body. */
    method RemoveBody(b: nat)
      modifies this`bodies
      ensures bodies == old(bodies) - {b}
      ensures old(Valid()) ==> Valid()
    {
      bodies := bodies - {b};
    }

    /** Composite.add of one constraint. */
    method AddConstraint(c: nat)
      modifies this`constraints
      ensures constraints == old(constraints) + multiset{c}
    {
      constraints := constraints + multiset{c};
    }

    /** Composite.remove of one constraint: the first occurrence, if any, goes. */
    method RemoveConstraint(c: nat)
      modifies this`constraints
      ensures constraints == old(constraints) - multiset{c}
      ensures old(Valid()) ==> Valid()
    {
      constraints := constraints - multiset{c};
    }

    /** world.constraints.includes(c) */
    function HasConstraint(c: nat): (r: bool)
      reads this
      ensures r <==> constraints[c] > 0
    {
      c in constraints
    }
  }
}
