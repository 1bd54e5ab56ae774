// The sling (entities/sling.js): the shared state object with its two flags
// isDragging and canLaunch, the drag handlers that flip them, and reset.
//
// The abstract value of a sling is its two flags together with the number of
// times its constraint is in the world (SlingModel). The handlers are specified
// on that value by Step; the class SlingState is proved to follow Step.
module Sling {
  import opened Physics
  import opened Helpers
  import opened GameConfig

  /** The magnitude of the launch force for a pull of length dist:
      Math.min(dist * forceMultiplier, maxForce). */
  function LaunchForce(dist: real): (r: real)
    ensures r <= MaxForce
    ensures r <= dist * ForceMultiplier
    ensures r == dist * ForceMultiplier || r == MaxForce
    ensures MinPullDistance < dist ==> 0.0 < r
  {
    Min(dist * ForceMultiplier, MaxForce)
  }

  datatype Flags = Flags(isDragging: bool, canLaunch: bool)

  /** The flags and how many times the sling constraint is in the world. */
  datatype SlingModel = SlingModel(flags: Flags, constraintCount: nat)

  /** What happens to a sling: a drag starts or ends (on the projectile or on
      another body; an end carries the pull distance), or the sling is reset. */
  datatype SlingEvent =
    | StartDrag(onProjectile: bool)
    | EndDrag(onProjectile: bool, dist: real)
    | ResetSling

  /** The sling as createSling leaves it. */
  const Created := SlingModel(Flags(false, true), 1)

  /** Dragging only happens while a launch is possible, and the constraint is
      in the world exactly once while a launch is possible and not at all after one. */
  ghost predicate SlingInv(m: SlingModel)
  {
    (m.flags.isDragging ==> m.flags.canLaunch) &&
    m.constraintCount == (if m.flags.canLaunch then 1 else 0)
  }

  /** The startdrag handler. */
  function StartDragFlags(f: Flags, onProjectile: bool): (r: Flags)
    ensures r.canLaunch == f.canLaunch
    ensures onProjectile && f.canLaunch ==> r.isDragging
    ensures !(onProjectile && f.canLaunch) ==> r == f
  {
    if onProjectile && f.canLaunch then f.(isDragging := true) else f
  }

  /** The enddrag handler acts only on the projectile, while dragging and
      while a launch is possible. */
  predicate Releases(f: Flags, onProjectile: bool)
  {
    onProjectile && f.isDragging && f.canLaunch
  }

  /** A release launches when the pull is longer than minPullDistance. */
  predicate Launches(f: Flags, onProjectile: bool, dist: real)
  {
    Releases(f, onProjectile) && MinPullDistance < dist
  }

  /** The flags after the enddrag handler. */
  function EndDragFlags(f: Flags, onProjectile: bool, dist: real): (r: Flags)
    ensures !Releases(f, onProjectile) ==> r == f
    ensures Releases(f, onProjectile) ==> !r.isDragging
    ensures Releases(f, onProjectile) ==> (r.canLaunch <==> dist <= MinPullDistance)
  {
    if !Releases(f, onProjectile) then f
    else
      var cleared := Flags(false, false);
      if MinPullDistance < dist then cleared else cleared.(canLaunch := true)
  }

  /** reset adds the constraint only when the world does not hold it. */
  function RestoredConstraints(cs: multiset<nat>, c: nat): (r: multiset<nat>)
    ensures c in r
    ensures r[c] == (if c in cs then cs[c] else 1)
    ensures forall d :: d != c ==> r[d] == cs[d]
  {
    if c in cs then cs else cs + multiset{c}
  }

  /** Resetting twice leaves the constraints as resetting once. */
  lemma RestoreIdempotent(cs: multiset<nat>, c: nat)
    ensures RestoredConstraints(RestoredConstraints(cs, c), c) == RestoredConstraints(cs, c)
  {
  }

  /** One handler run on the abstract sling. */
  function Step(m: SlingModel, e: SlingEvent): (r: SlingModel)
    ensures e.ResetSling? ==> r.flags == Flags(false, true) && r.constraintCount >= 1
    ensures !e.ResetSling? && !m.flags.canLaunch ==> r == m
  {
    match e
    case StartDrag(p) => m.(flags := StartDragFlags(m.flags, p))
    case EndDrag(p, d) =>
      SlingModel(EndDragFlags(m.flags, p, d),
                 if Launches(m.flags, p, d) then (if m.constraintCount > 0 then m.constraintCount - 1 else 0)
                 else m.constraintCount)
    case ResetSling =>
      SlingModel(Flags(false, true), if m.constraintCount > 0 then m.constraintCount else 1)
  }

  /** Every handler keeps the sling invariant. */
  lemma StepKeepsInv(m: SlingModel, e: SlingEvent)
    requires SlingInv(m)
    ensures SlingInv(Step(m, e))
  {
  }

  /** Running the handlers for a sequence of events, first to last. */
  function Run(m: SlingModel, es: seq<SlingEvent>): SlingModel
    decreases |es|
  {
    if es == [] then m else Run(Step(m, es[0]), es[1..])
  }

  /** The number of launches along a run. */
  function LaunchCount(m: SlingModel, es: seq<SlingEvent>): nat
    decreases |es|
  {
    if es == [] then 0
    else
      (if es[0].EndDrag? && Launches(m.flags, es[0].onProjectile, es[0].dist) then 1 else 0)
      + LaunchCount(Step(m, es[0]), es[1..])
  }

  /** The number of resets along a run. */
  function ResetCount(es: seq<SlingEvent>): nat
  {
    if es == [] then 0 else (if es[0].ResetSling? then 1 else 0) + ResetCount(es[1..])
  }

  lemma {:induction false} RunKeepsInv(m: SlingModel, es: seq<SlingEvent>)
    requires SlingInv(m)
    ensures SlingInv(Run(m, es))
    decreases |es|
  {
    if es != [] {
      StepKeepsInv(m, es[0]);
      RunKeepsInv(Step(m, es[0]), es[1..]);
    }
  }

  /** A sling launches at most once between resets: along any run, the
      launches number at most the resets, plus one if a launch was possible
      at the start. */
  lemma {:induction false} LaunchesBoundedByResets(m: SlingModel, es: seq<SlingEvent>)
    ensures LaunchCount(m, es) <= ResetCount(es) + (if m.flags.canLaunch then 1 else 0)
    decreases |es|
  {
    if es != [] {
      LaunchesBoundedByResets(Step(m, es[0]), es[1..]);
    }
  }

  /** From a freshly created sling, every run keeps the invariant and
      launches at most once more than it resets. */
  lemma FromCreated(es: seq<SlingEvent>)
    ensures SlingInv(Run(Created, es))
    ensures LaunchCount(Created, es) <= ResetCount(es) + 1
  {
    RunKeepsInv(Created, es);
    LaunchesBoundedByResets(Created, es);
  }

  /** The object createSling returns. */
  class SlingState {
    const world: World
    const slingBase: Body
    var projectile: Body
    const slingConstraint: nat
    var isDragging: bool
    var canLaunch: bool

    function Model(): SlingModel
      reads this, world
    {
      SlingModel(Flags(isDragging, canLaunch), world.constraints[slingConstraint])
    }

    ghost predicate Valid()
      reads this, world
    {
      SlingInv(Model()) && slingBase.id != projectile.id
    }

    /** createSling: a static base, a projectile and the constraint between
        them, all new and all added to the world. */
    constructor (world: World)
      requires world.Valid()
      modifies world
      ensures this.world == world
      ensures Valid() && Model() == Created
      ensures !isDragging && canLaunch
      ensures slingBase == Body(old(world.nextId), BasePosition, Zero, 0, true, Some(SlingBaseColor))
      ensures projectile == NewBody(old(world.nextId) + 1, ProjectileStart, Some(ProjectileColor))
      ensures slingConstraint == old(world.nextId) + 2
      ensures world.bodies == old(world.bodies) + {slingBase.id, projectile.id}
      ensures world.constraints == old(world.constraints) + multiset{slingConstraint}
      ensures world.nextId == old(world.nextId) + 3
      ensures world.Valid()
    {
      var baseId := world.NewId();
      var projectileId := world.NewId();
      var constraintId := world.NewId();
      this.world := world;
      slingBase := Body(baseId, BasePosition, Zero, 0, true, Some(SlingBaseColor));
      projectile := NewBody(projectileId, ProjectileStart, Some(ProjectileColor));
      slingConstraint := constraintId;
      isDragging := false;
      canLaunch := true;
      new;
      world.AddBody(baseId);
      world.AddBody(projectileId);
      world.AddConstraint(constraintId);
    }

    /** world.constraints.includes(slingConstraint), which reset tests,
        holds exactly while a launch is possible. */
    lemma ConstraintPresentIffCanLaunch()
      requires Valid()
      ensures world.HasConstraint(slingConstraint) <==> canLaunch
    {
    }

    /** The startdrag handler for a drag of the body with the given id. */
    method OnStartDrag(draggedId: nat)
      requires Valid()
      modifies this`isDragging
      ensures Valid()
      ensures Model() == Step(old(Model()), StartDrag(draggedId == projectile.id))
    {
      if draggedId == projectile.id && canLaunch {
        isDragging := true;
      }
    }

    /** The enddrag handler for a drag of the body with the given id, ended
        with the projectile dist away from the base. Answers the magnitude of
        the force applied to the projectile, or None when nothing is launched. */
    method OnEndDrag(draggedId: nat, dist: real) returns (force: Option<real>)
      requires Valid()
      modifies this`isDragging, this`canLaunch, world`constraints
      ensures Valid()
      ensures Model() == Step(old(Model()), EndDrag(draggedId == projectile.id, dist))
      ensures force == if Launches(old(Model()).flags, draggedId == projectile.id, dist)
                       then Some(LaunchForce(dist)) else None
      ensures world.constraints ==
        if force.Some? then old(world.constraints) - multiset{slingConstraint} else old(world.constraints)
    {
      if draggedId != projectile.id || !isDragging || !canLaunch {
        return None;
      }
      isDragging := false;
      canLaunch := false;
      if dist > MinPullDistance {
        world.RemoveConstraint(slingConstraint);
        var launchForce := Min(dist * ForceMultiplier, MaxForce);
        force := Some(launchForce);
      } else {
        canLaunch := true;
        force := None;
      }
    }

    /** reset: the projectile goes back to its start at rest, the constraint
        is added again when the world does not hold it, and a launch is
        possible again. */
    method Reset()
      requires Valid()
      modifies this`projectile, this`isDragging, this`canLaunch, world`constraints
      ensures Valid()
      ensures Model() == Step(old(Model()), ResetSling)
      ensures projectile ==
        SetAngularVelocity(SetVelocity(SetPosition(old(projectile), ProjectileStart), Zero), 0)
      ensures world.constraints == RestoredConstraints(old(world.constraints), slingConstraint)
    {
      projectile := SetPosition(projectile, ProjectileStart);
      projectile := SetVelocity(projectile, Zero);
      projectile := SetAngularVelocity(projectile, 0);
      if !world.HasConstraint(slingConstraint) {
        world.AddConstraint(slingConstraint);
      }
      canLaunch := true;
      isDragging := false;
    }
  }
}
