# Bird queue, sling and clamp of an Angry-Birds-style portfolio game

The game lets the visitor fling projectiles ("birds") from a sling at
targets. Almost all of its behaviour lives in the Matter.js physics engine.
This project models the game's own bookkeeping around that engine and proves
properties of it:

- **The bird queue** (`entities/birdQueue.js`) is a fixed list of bird
  entries. Each entry has the flags `isActive` and `isUsed`, a `queueIndex`,
  an original position and an engine body. A cursor `currentBirdIndex` marks
  the current bird and a latched flag `isGameOver` ends the game.
  `birdqueue.dfy` holds the value-level specification: `QueueState`,
  `InitialState`, `Advance` (nextBird), `Requeued` (updateQueuePositions),
  `CurrentOf`, `RemainingOf`, `StatusOf` and the queue invariant `QueueInv`.
  It also holds the class `BirdQueue`, whose methods are proved to move the
  object's fields exactly as those functions say. The read-only members
  `GetCurrentBird`, `GetRemainingBirds`, `IsGameComplete` and
  `GetBirdStatus` are functions of the class that answer through the
  value-level functions.
- **The sling** (`entities/sling.js`) is a state object with the two flags
  `isDragging` and `canLaunch`. The `startdrag` and `enddrag` handlers and
  `reset` change these flags, and the sling constraint is removed from and
  re-added to the world. `sling.dfy` specifies each handler as a `Step` on
  the flags plus the number of times the constraint is in the world. The
  class `SlingState` follows `Step`. Lemmas over whole runs of events show
  two things: the invariant holds, and a sling launches at most once
  between resets.
- **`clamp`** (`utils/helpers.js`) is in `helpers.dfy`.
- **The engine** (`physics.dfy`) is reduced to what the game touches. A
  body is a record whose setters assign fields. The world holds the set of
  its body ids and the multiset of its constraint ids: Composite.add appends,
  and Composite.remove takes away one occurrence. One counter hands out ids
  to new bodies and constraints, as Matter.js's `Common.nextId` does.

The configuration object has no `birdQueue` entry (config/gameConfig.js:1-125),
so the queue parameters (`totalBirds`, `startX`, `startY`, `spacing`,
`colors`) are an input of the `BirdQueue` constructor. The sling constants
(projectile at (300, 350), base at (300, 450), `minPullDistance` 20,
`forceMultiplier` 0.0007, `maxForce` 0.3) are those of
config/gameConfig.js:25-34 and live, with the two colours the sling uses,
in the module `GameConfig` (`config.dfy`). Layout coordinates are integers. The pull
distance and the force are reals.

Some points follow the code rather than its comments:

- `getCurrentBird` and `nextBird` return the queue entry, not the body that
  their doc comments name.
- `updateQueuePositions` puts every waiting bird at the spot where
  `initializeBirds` already placed it, so the waiting birds do not advance
  (`RequeueMovesNothing`, `UpdateIsNoOp`). It also computes a count
  (`birdsRemaining`) that it never uses.
- `nextBird` increments the cursor on every call, even after game over.
- `getRemainingBirds` reads the configured `totalBirds` rather than the
  length of the list. The two agree for a non-negative total. For a negative
  total the list is empty and the count is 0.

## Model

| member | source | states |
|---|---|---|
| `Helpers.Clamp` | utils/helpers.js:7-9 | with lo <= hi the result lies in [lo, hi]; a value inside is kept; below lo gives lo; above hi gives hi; with lo > hi the result is always lo |
| `Helpers.ClampIdempotent` | utils/helpers.js:7-9 | clamping twice equals clamping once, for all bounds |
| `Helpers.ClampIsOneOf` | utils/helpers.js:7-9 | the result is the value or one of the two bounds |
| `Physics.World.RemoveConstraint` | entities/sling.js:82 | Composite.remove takes away one occurrence of the constraint and keeps every id below the counter |
| `BirdQueues.SlotLayout` | entities/birdQueue.js:26-27 | the last entry waits at startX and each entry waits one spacing right of the next, so higher indices sit closer to startX |
| `BirdQueues.ColorFor` | entities/birdQueue.js:29 | `colors[i] \|\| colors[0]`: colors[i] when present and non-empty, otherwise colors[0]; missing only when the list is empty |
| `BirdQueues.FirstBirdsAt` | entities/birdQueue.js:24-47 | entry i of the list built by the first n rounds of the loop is the entry round i builds: queueIndex i, slot (startX + (totalBirds-1-i)*spacing, startY), colour colors[i] \|\| colors[0], static exactly when i > 0, active exactly when i = 0, body id firstId + i |
| `BirdQueues.InitialIdsFromCounter` | entities/birdQueue.js:24-47 | the bodies of a fresh queue take their ids from the counter: every id lies in [firstId, firstId + max(0, totalBirds)) |
| `BirdQueues.InitialStateIsStart` | entities/birdQueue.js:23-48 | the start state: max(0, totalBirds) entries, cursor 0, not over, entry i has queueIndex i and original position (startX + (totalBirds-1-i)*spacing, startY) and stands there, only entry 0 active, none used, every entry after 0 static; body ids are the consecutive ids firstId, firstId + 1, ... drawn from the counter; the queue invariant holds |
| `BirdQueues.OnlyCurrentIsActive` | entities/birdQueue.js:68-84 | in a queue keeping the invariant, an active entry is the one at the cursor |
| `BirdQueues.CurrentOf` | entities/birdQueue.js:55-60 | null exactly when the game is over or the cursor is at or past the end; otherwise the entry at the cursor |
| `BirdQueues.CurrentIsTheActiveEntry` | entities/birdQueue.js:55-60 | in a queue keeping the invariant, an entry is active exactly when getCurrentBird returns it |
| `BirdQueues.RemainingOf` | entities/birdQueue.js:128-130 | never negative, at least totalBirds - currentBirdIndex, and either 0 or exactly that difference |
| `BirdQueues.RemainingCountsUnused` | entities/birdQueue.js:128-130 | in a queue keeping the invariant, the remaining count equals the number of entries not yet used |
| `BirdQueues.GameCompleteMeansNoneLeft` | entities/birdQueue.js:136-138 | once isGameOver holds there is no current bird and none remains; without it, no current bird means a queue with no birds at all |
| `BirdQueues.StatusReportsQueue` | entities/birdQueue.js:162-170 | in a queue keeping the invariant, getBirdStatus gives one status per bird; status i has index and queueIndex i, is used exactly when i is below the cursor, is active exactly at the cursor, and after the cursor reports the bird's slot (startX + (totalBirds-1-i)*spacing, startY) |
| `BirdQueues.Requeued` | entities/birdQueue.js:107-122 | entries up to the cursor are untouched; each later entry i only has its body moved to (startX + (n-1-i)*spacing, startY) |
| `BirdQueues.RequeueMovesNothing` | entities/birdQueue.js:107-121 | when the waiting entries stand at their original slots, updateQueuePositions leaves the list unchanged: positionInQueue equals the original reverseIndex |
| `BirdQueues.UpdateIsNoOp` | entities/birdQueue.js:107-121 | in a queue keeping the invariant, updateQueuePositions changes nothing |
| `BirdQueues.Advance` | entities/birdQueue.js:66-102 | nextBird marks the old current entry used and inactive when in range and leaves earlier entries alone; the cursor grows by exactly one; reaching the end latches isGameOver; otherwise the new current entry is active, dynamic, at the sling projectile position with zero linear and angular velocity, and later entries are requeued |
| `BirdQueues.AdvanceKeepsInv` | entities/birdQueue.js:66-102 | nextBird keeps the queue invariant: entries below the cursor used and inactive, the one at the cursor active, later ones waiting, over exactly when the cursor passed the end |
| `BirdQueues.AdvanceNKeepsInv` | entities/birdQueue.js:66-102 | any number k of nextBird calls keeps the invariant and moves the cursor by k |
| `BirdQueues.RunFromStart` | entities/birdQueue.js:10-18 | after k nextBird calls on a new queue: cursor k, exactly the first k entries used, over exactly when 0 < k and k >= number of birds, a current bird exactly while k is below that number, remaining equals unused |
| `BirdQueues.BirdQueue.constructor` | entities/birdQueue.js:10-18 | the fields equal InitialState for the next engine id, so the invariant holds; the bodies of the new entries are added to the world, none of them was in it before, and nothing else changes in it besides the id counter |
| `BirdQueues.BirdQueue.PushBird` | entities/birdQueue.js:24-47 | one round of the loop: appends the entry for index i around a body with the next engine id, draws exactly one id and adds that body to the world |
| `BirdQueues.BirdQueue.InitializeBirds` | entities/birdQueue.js:23-48 | appends InitialBirds to the list, draws max(0, totalBirds) ids and adds the body of each new entry to the world |
| `BirdQueues.BirdQueue.NextBird` | entities/birdQueue.js:66-102 | the new state is Advance of the old one and keeps the invariant; the result is null exactly when the cursor reached the end, else the new current entry |
| `BirdQueues.BirdQueue.UpdateQueuePositions` | entities/birdQueue.js:107-122 | the list becomes Requeued of the old list at the current cursor |
| `BirdQueues.BirdQueue.GetCurrentBird` | entities/birdQueue.js:55-60 | answers CurrentOf of the fields: null exactly when the game is over or the cursor is at or past the end, otherwise the entry at the cursor, which under the invariant is active and unused |
| `BirdQueues.BirdQueue.GetRemainingBirds` | entities/birdQueue.js:128-130 | answers RemainingOf of the fields: never negative, at least totalBirds - currentBirdIndex and either 0 or that difference; 0 once the game is over under the invariant |
| `BirdQueues.BirdQueue.IsGameComplete` | entities/birdQueue.js:136-138 | answers isGameOver: when it holds there is no current bird, and under the invariant it holds exactly when 0 < currentBirdIndex and the cursor is at or past the end of the list, and then no bird remains |
| `BirdQueues.BirdQueue.GetBirdStatus` | entities/birdQueue.js:162-170 | answers StatusOf of the list: one status per entry, and under the invariant the report StatusReportsQueue describes |
| `BirdQueues.BirdQueue.RemoveBirdBodies` | entities/birdQueue.js:145-147 | the body of every entry is removed from the world and no other body is |
| `BirdQueues.BirdQueue.Reset` | entities/birdQueue.js:143-156 | the old bodies leave the world, new ones that were not in it enter it, and the state is InitialState again from any prior state |
| `Sling.LaunchForce` | entities/sling.js:83 | min(dist*forceMultiplier, maxForce): never above maxForce or dist*forceMultiplier, equal to one of them, positive for a pull longer than minPullDistance |
| `Sling.StartDragFlags` | entities/sling.js:68-70 | isDragging is set when the body is the projectile and canLaunch holds; otherwise the flags are unchanged; canLaunch never changes |
| `Sling.EndDragFlags` | entities/sling.js:72-91 | a no-op unless the body is the projectile, isDragging and canLaunch all hold; a release clears isDragging and leaves canLaunch exactly when dist <= minPullDistance |
| `Sling.RestoredConstraints` | entities/sling.js:39-41 | reset leaves the constraint in the world, keeps its count when present, adds one when absent, and touches no other constraint |
| `Sling.RestoreIdempotent` | entities/sling.js:35-44 | resetting twice leaves the constraints as resetting once |
| `Sling.Step` | entities/sling.js:35-91 | reset always gives isDragging false, canLaunch true and the constraint present; after a launch (canLaunch false) every drag event is a no-op |
| `Sling.StepKeepsInv` | entities/sling.js:35-91 | every handler keeps the invariant: dragging implies canLaunch, and the constraint is in the world once while canLaunch holds and not at all otherwise |
| `Sling.RunKeepsInv` | entities/sling.js:35-91 | any sequence of handler runs keeps that invariant |
| `Sling.LaunchesBoundedByResets` | entities/sling.js:72-91 | along any run, launches number at most the resets, plus one if a launch was possible at the start |
| `Sling.FromCreated` | entities/sling.js:46-53 | from a new sling (not dragging, can launch, constraint present once) every run keeps the invariant and launches at most once more than it resets |
| `Sling.SlingState.constructor` | entities/sling.js:6-56 | a static base, a projectile and a constraint with fresh ids, all added to the world; isDragging false and canLaunch true |
| `Sling.SlingState.ConstraintPresentIffCanLaunch` | entities/sling.js:39 | for a sling keeping its invariant, `world.constraints.includes(slingConstraint)` holds exactly when canLaunch holds |
| `Sling.SlingState.OnStartDrag` | entities/sling.js:68-70 | the new sling is Step of the old one for a drag start; the invariant holds |
| `Sling.SlingState.OnEndDrag` | entities/sling.js:72-91 | the new sling is Step of the old one for a drag end; the answer is the launch force exactly when the release launches; the constraint is removed exactly then |
| `Sling.SlingState.Reset` | entities/sling.js:35-44 | the projectile is back at its start at rest, the constraints are RestoredConstraints of the old ones, and the flags are the created ones |

## Left out

- Body creation in entities/birds.js, entities/pigs.js and entities/structures.js, and the physical constants of the bodies (radius, density, friction, restitution, collision filter). A body is only an id, a position, velocities, a static flag and a colour.
- The dynamics of the engine: Body.setStatic only flips the flag here (the engine also changes mass and inertia), and Body.applyForce has no effect in the model.
- Sling.SlingState.OnEndDrag: returns only the magnitude of the launch force. The direction (dx/dist, dy/dist) and the pull distance itself come from square roots over floating point, so the distance is an input (entities/sling.js:77-86).
- `distance` in utils/helpers.js: it uses Math.hypot over floating point.
- attachMouse's creation of the mouse and the mouse constraint, and the registration of the two handlers. Both are engine plumbing; the handlers themselves are modelled.
- Aliasing: entries and bodies are values stored in the queue's list. The entry that getCurrentBird or nextBird returns is a copy, so later changes made through it are not seen by the queue.
- console.log on game over, and all of js/script.js, systems/animationSystem.js, systems/collisionSystem.js (rendering, DOM, timers, per-tick callbacks).
- Physics.World.AddBody: the world's bodies are a set of ids. Composite.add would list a body twice if it were added twice; here every body is added right after it gets a new id, and the constructors and reset prove that the new ids were not in the world, so this does not arise.
- JavaScript numbers: layout arithmetic is over unbounded integers, and the pull distance and force are over reals. NaN and infinities are not modelled.
