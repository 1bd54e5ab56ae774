// The queue of birds waiting to be launched (entities/birdQueue.js).
//
// Each entry of the queue is a record of flags plus the engine body of the
// bird; the queue keeps a cursor on the current bird and a latched game-over
// flag. The value-level part (QueueState and the functions on it) is the
// specification; the class BirdQueue is the object the game holds and its
// methods are proved to move its state exactly as those functions say.
module BirdQueues {
  import opened Physics
  import opened GameConfig

  /** The queue parameters the constructor reads from the configuration. */
  datatype QueueConfig = QueueConfig(
    totalBirds: int,
    startX: int,
    startY: int,
    spacing: int,
    colors: seq<string>)

  /** One element of the queue. */
  datatype BirdEntry = BirdEntry(
    body: Body,
    originalPosition: Vec,
    isActive: bool,
    isUsed: bool,
    queueIndex: nat)

  /** What getBirdStatus reports for one entry. */
  datatype BirdStatus = BirdStatus(
    index: nat,
    isActive: bool,
    isUsed: bool,
    position: Vec,
    queueIndex: nat)

  /** The fields of a BirdQueue as one value. */
  datatype QueueState = QueueState(
    birds: seq<BirdEntry>,
    currentBirdIndex: nat,
    isGameOver: bool)

  // ---------------------------------------------------------------------
  // Layout and the start state
  // ---------------------------------------------------------------------

  /** How many times the counting loop of initializeBirds runs. */
  function BirdCount(cfg: QueueConfig): nat
  {
    if cfg.totalBirds > 0 then cfg.totalBirds else 0
  }

  /** The x at which entry i waits: reverseIndex = totalBirds - 1 - i slots
      to the right of startX. */
  function SlotX(cfg: QueueConfig, i: int): int
  {
    cfg.startX + (cfg.totalBirds - 1 - i) * cfg.spacing
  }

  /** The last entry waits at startX and every entry waits one spacing to the
      right of the next one, so higher indices sit closer to startX. */
  lemma SlotLayout(cfg: QueueConfig, i: int)
    ensures SlotX(cfg, cfg.totalBirds - 1) == cfg.startX
    ensures SlotX(cfg, i) == SlotX(cfg, i + 1) + cfg.spacing
  {
  }

  /** colors[i] || colors[0]: a missing or empty colour falls back to the
      first one, which may itself be missing. */
  function ColorFor(colors: seq<string>, i: nat): (r: Option<string>)
    ensures r.None? <==> colors == []
    ensures r.Some? ==> r.value in colors
    ensures i < |colors| && colors[i] != "" ==> r == Some(colors[i])
    ensures (|colors| <= i || colors[i] == "") && colors != [] ==> r == Some(colors[0])
  {
    if i < |colors| && colors[i] != "" then Some(colors[i])
    else if |colors| > 0 then Some(colors[0])
    else None
  }

  /** The entry initializeBirds builds for index i around a body with the given id. */
  function NewEntry(cfg: QueueConfig, i: nat, id: nat): BirdEntry
  {
    var p := Vec(SlotX(cfg, i), cfg.startY);
    var b := NewBody(id, p, ColorFor(cfg.colors, i));
    BirdEntry(if i > 0 then SetStatic(b, true) else b, p, i == 0, false, i)
  }

  /** The first n entries initializeBirds appends, their bodies taking the
      ids firstId, firstId + 1, ... */
  function FirstBirds(cfg: QueueConfig, firstId: nat, n: nat): (bs: seq<BirdEntry>)
    ensures |bs| == n
  {
    if n == 0 then [] else FirstBirds(cfg, firstId, n - 1) + [NewEntry(cfg, n - 1, firstId + n - 1)]
  }

  /** Entry i of the queue is the one built in round i of the loop. */
  lemma {:induction false} FirstBirdsAt(cfg: QueueConfig, firstId: nat, n: nat, i: nat)
    requires i < n
    ensures FirstBirds(cfg, firstId, n)[i] == NewEntry(cfg, i, firstId + i)
  {
    if i < n - 1 {
      FirstBirdsAt(cfg, firstId, n - 1, i);
    }
  }

  /** The entries of a fresh queue. */
  function InitialBirds(cfg: QueueConfig, firstId: nat): seq<BirdEntry>
  {
    FirstBirds(cfg, firstId, BirdCount(cfg))
  }

  /** The engine ids of the entries' bodies. */
  function BodyIdSet(bs: seq<BirdEntry>): set<nat>
  {
    set i | 0 <= i < |bs| :: bs[i].body.id
  }

  lemma BodyIdSetSnoc(bs: seq<BirdEntry>, e: BirdEntry)
    ensures BodyIdSet(bs + [e]) == BodyIdSet(bs) + {e.body.id}
  {
    var t := bs + [e];
    forall x | x in BodyIdSet(bs) ensures x in BodyIdSet(t) {
      var i :| 0 <= i < |bs| && bs[i].body.id == x;
      assert t[i] == bs[i];
    }
    assert t[|bs|] == e;
  }

  /** The start state: entry 0 is active and dynamic, every other entry is
      static, nothing is used, and every entry stands at its slot. */
  ghost predicate IsStartState(s: QueueState, cfg: QueueConfig)
  {
    |s.birds| == BirdCount(cfg) && s.currentBirdIndex == 0 && !s.isGameOver &&
    forall i :: 0 <= i < |s.birds| ==>
      s.birds[i].queueIndex == i &&
      s.birds[i].isActive == (i == 0) &&
      !s.birds[i].isUsed &&
      s.birds[i].body.isStatic == (i > 0) &&
      s.birds[i].originalPosition == Vec(SlotX(cfg, i), cfg.startY) &&
      s.birds[i].body.position == s.birds[i].originalPosition
  }

  /** The state after the constructor or reset. */
  function InitialState(cfg: QueueConfig, firstId: nat): QueueState
  {
    QueueState(InitialBirds(cfg, firstId), 0, false)
  }

  /** The state initializeBirds builds is the start state, keeps the queue
      invariant, and gives the bodies consecutive ids from firstId on. */
  lemma InitialStateIsStart(cfg: QueueConfig, firstId: nat)
    ensures IsStartState(InitialState(cfg, firstId), cfg)
    ensures QueueInv(InitialState(cfg, firstId), cfg)
    ensures forall i :: 0 <= i < BirdCount(cfg) ==> InitialState(cfg, firstId).birds[i].body.id == firstId + i
  {
    forall i | 0 <= i < BirdCount(cfg) {
      FirstBirdsAt(cfg, firstId, BirdCount(cfg), i);
    }
  }

  /** The bodies of a fresh queue take the ids firstId, ..., firstId +
      max(0, totalBirds) - 1: all drawn from the counter starting at firstId. */
  lemma InitialIdsFromCounter(cfg: QueueConfig, firstId: nat)
    ensures forall b :: b in BodyIdSet(InitialBirds(cfg, firstId)) ==> firstId <= b < firstId + BirdCount(cfg)
  {
    InitialStateIsStart(cfg, firstId);
  }

  // ---------------------------------------------------------------------
  // The invariant of the queue
  // ---------------------------------------------------------------------

  /** An entry that still waits in the queue: untouched since initializeBirds. */
  predicate Waiting(e: BirdEntry)
  {
    !e.isUsed && !e.isActive && e.body.isStatic && e.body.position == e.originalPosition
  }

  /** What the constructor establishes and nextBird keeps: every entry below
      the cursor is used and inactive, the entry at the cursor is the active
      one, the entries above it still wait, and the game is over exactly when
      the cursor has moved past the last entry. */
  ghost predicate QueueInv(s: QueueState, cfg: QueueConfig)
  {
    var bs, k := s.birds, s.currentBirdIndex;
    |bs| == BirdCount(cfg) &&
    (s.isGameOver <==> 0 < k && |bs| <= k) &&
    (forall i :: 0 <= i < |bs| ==>
       bs[i].queueIndex == i && bs[i].originalPosition == Vec(SlotX(cfg, i), cfg.startY)) &&
    (forall i :: 0 <= i < |bs| && i < k ==> bs[i].isUsed && !bs[i].isActive) &&
    (k < |bs| ==> bs[k].isActive && !bs[k].isUsed) &&
    (forall i :: k < i < |bs| ==> Waiting(bs[i]))
  }

  /** At most one entry is active: the one at the cursor. */
  lemma OnlyCurrentIsActive(s: QueueState, cfg: QueueConfig, i: int)
    requires QueueInv(s, cfg)
    requires 0 <= i < |s.birds| && s.birds[i].isActive
    ensures i == s.currentBirdIndex
  {
  }

  // ---------------------------------------------------------------------
  // Reading the queue
  // ---------------------------------------------------------------------

  /** getCurrentBird: the entry at the cursor, or null once the game is over
      or the cursor is past the end. */
  function CurrentOf(s: QueueState): (r: Option<BirdEntry>)
    ensures r.None? <==> s.isGameOver || |s.birds| <= s.currentBirdIndex
    ensures r.Some? ==> s.currentBirdIndex < |s.birds| && r.value == s.birds[s.currentBirdIndex]
  {
    if s.isGameOver || s.currentBirdIndex >= |s.birds| then None
    else Some(s.birds[s.currentBirdIndex])
  }

  /** In a queue that keeps the invariant, getCurrentBird answers exactly the
      active entry. */
  lemma CurrentIsTheActiveEntry(s: QueueState, cfg: QueueConfig, i: int)
    requires QueueInv(s, cfg)
    requires 0 <= i < |s.birds|
    ensures s.birds[i].isActive <==> CurrentOf(s) == Some(s.birds[i])
  {
    if CurrentOf(s) == Some(s.birds[i]) {
      assert s.birds[s.currentBirdIndex].queueIndex == s.birds[i].queueIndex;
    }
  }

  /** getRemainingBirds: Math.max(0, totalBirds - currentBirdIndex). */
  function RemainingOf(s: QueueState, cfg: QueueConfig): (r: int)
    ensures 0 <= r
    ensures cfg.totalBirds - s.currentBirdIndex <= r
    ensures r == 0 || r == cfg.totalBirds - s.currentBirdIndex
  {
    if 0 >= cfg.totalBirds - s.currentBirdIndex then 0 else cfg.totalBirds - s.currentBirdIndex
  }

  /** The number of entries not yet marked as used. */
  function CountUnused(bs: seq<BirdEntry>): nat
  {
    if bs == [] then 0
    else CountUnused(bs[..|bs| - 1]) + (if bs[|bs| - 1].isUsed then 0 else 1)
  }

  lemma {:induction false} CountUnusedPrefix(bs: seq<BirdEntry>, k: nat)
    requires k <= |bs|
    requires forall i :: 0 <= i < |bs| ==> (bs[i].isUsed <==> i < k)
    ensures CountUnused(bs) == |bs| - k
  {
    if |bs| > k {
      var front := bs[..|bs| - 1];
      assert forall i :: 0 <= i < |front| ==> front[i] == bs[i];
      CountUnusedPrefix(front, k);
    } else if bs != [] {
      var front := bs[..|bs| - 1];
      assert forall i :: 0 <= i < |front| ==> front[i] == bs[i];
      CountUnusedPrefix(front, k - 1);
    }
  }

  /** In a queue that keeps the invariant, the remaining count is the number
      of entries not yet used. */
  lemma RemainingCountsUnused(s: QueueState, cfg: QueueConfig)
    requires QueueInv(s, cfg)
    ensures RemainingOf(s, cfg) == CountUnused(s.birds)
  {
    var k := if s.currentBirdIndex < |s.birds| then s.currentBirdIndex else |s.birds|;
    CountUnusedPrefix(s.birds, k);
  }

  /** isGameComplete: once the game is over there is no current bird and none
      remains; before that the only way to have no current bird is a queue
      built with no birds at all. */
  lemma GameCompleteMeansNoneLeft(s: QueueState, cfg: QueueConfig)
    requires QueueInv(s, cfg)
    ensures s.isGameOver ==> CurrentOf(s).None? && RemainingOf(s, cfg) == 0
    ensures !s.isGameOver && CurrentOf(s).None? ==> BirdCount(cfg) == 0 && s.currentBirdIndex == 0
  {
  }

  /** getBirdStatus: one status record per entry, in order. */
  function StatusOf(bs: seq<BirdEntry>): (r: seq<BirdStatus>)
    ensures |r| == |bs|
    ensures forall i :: 0 <= i < |bs| ==>
      r[i].index == i && r[i].isActive == bs[i].isActive && r[i].isUsed == bs[i].isUsed &&
      r[i].position == bs[i].body.position && r[i].queueIndex == bs[i].queueIndex
  {
    seq(|bs|, i requires 0 <= i < |bs| =>
      BirdStatus(i, bs[i].isActive, bs[i].isUsed, bs[i].body.position, bs[i].queueIndex))
  }

  /** What getBirdStatus reports for a queue in the shape the invariant
      describes: one status per bird, each with its own index as index and
      queueIndex, used exactly below the cursor k, active exactly at it, and
      every bird after the cursor reported at its slot. */
  ghost predicate ReportsQueue(st: seq<BirdStatus>, k: nat, cfg: QueueConfig)
  {
    |st| == BirdCount(cfg) &&
    forall i :: 0 <= i < |st| ==>
      st[i].index == i && st[i].queueIndex == i &&
      (st[i].isUsed <==> i < k) &&
      (st[i].isActive <==> i == k) &&
      (k < i ==> st[i].position == Vec(SlotX(cfg, i), cfg.startY))
  }

  /** In a queue that keeps the invariant, getBirdStatus reports it faithfully. */
  lemma StatusReportsQueue(s: QueueState, cfg: QueueConfig)
    requires QueueInv(s, cfg)
    ensures ReportsQueue(StatusOf(s.birds), s.currentBirdIndex, cfg)
  {
  }

  // ---------------------------------------------------------------------
  // Advancing the queue
  // ---------------------------------------------------------------------

  /** The spot updateQueuePositions gives entry i of a queue of n entries. */
  function QueueSpot(cfg: QueueConfig, n: int, i: int): Vec
  {
    Vec(cfg.startX + (n - 1 - i) * cfg.spacing, cfg.startY)
  }

  /** updateQueuePositions: every entry after the cursor k is put at its spot;
      the others are left as they are. */
  function Requeued(bs: seq<BirdEntry>, k: nat, cfg: QueueConfig): (r: seq<BirdEntry>)
    ensures |r| == |bs|
    ensures forall i :: 0 <= i <= k && i < |bs| ==> r[i] == bs[i]
    ensures forall i :: k < i < |bs| ==>
      r[i] == bs[i].(body := bs[i].body.(position := QueueSpot(cfg, |bs|, i)))
  {
    seq(|bs|, i requires 0 <= i < |bs| =>
      if k < i then bs[i].(body := SetPosition(bs[i].body, QueueSpot(cfg, |bs|, i))) else bs[i])
  }

  /** The spot updateQueuePositions computes is the slot initializeBirds gave
      the entry, so requeueing waiting entries moves none of them: the birds
      do not advance towards the sling. */
  lemma RequeueMovesNothing(bs: seq<BirdEntry>, k: nat, cfg: QueueConfig)
    requires |bs| == BirdCount(cfg)
    requires forall i :: k < i < |bs| ==>
      bs[i].body.position == bs[i].originalPosition &&
      bs[i].originalPosition == Vec(SlotX(cfg, i), cfg.startY)
    ensures Requeued(bs, k, cfg) == bs
  {
    var r := Requeued(bs, k, cfg);
    forall i | 0 <= i < |bs| ensures r[i] == bs[i] {
      if k < i {
        assert QueueSpot(cfg, |bs|, i) == Vec(SlotX(cfg, i), cfg.startY);
      }
    }
  }

  /** In a queue that keeps the invariant, updateQueuePositions changes nothing. */
  lemma UpdateIsNoOp(s: QueueState, cfg: QueueConfig)
    requires QueueInv(s, cfg)
    ensures Requeued(s.birds, s.currentBirdIndex, cfg) == s.birds
  {
    RequeueMovesNothing(s.birds, s.currentBirdIndex, cfg);
  }

  /** The current entry after nextBird has made it the projectile: dynamic,
      at the sling, at rest. */
  function Launchable(e: BirdEntry): BirdEntry
  {
    e.(isActive := true,
       body := SetAngularVelocity(SetVelocity(SetPosition(SetStatic(e.body, false), ProjectileStart), Zero), 0))
  }

  /** nextBird: retire the entry at the cursor (when there is one), move the
      cursor by one, and either latch game over or make the new current entry
      the projectile and requeue the rest. */
  function Advance(s: QueueState, cfg: QueueConfig): (t: QueueState)
    ensures |t.birds| == |s.birds|
    ensures t.currentBirdIndex == s.currentBirdIndex + 1
    ensures forall i :: 0 <= i < s.currentBirdIndex && i < |s.birds| ==> t.birds[i] == s.birds[i]
    ensures s.currentBirdIndex < |s.birds| ==>
      t.birds[s.currentBirdIndex] == s.birds[s.currentBirdIndex].(isUsed := true, isActive := false)
    ensures |s.birds| <= t.currentBirdIndex ==> t.isGameOver
    ensures t.currentBirdIndex < |s.birds| ==>
      var e := t.birds[t.currentBirdIndex];
      t.isGameOver == s.isGameOver &&
      e.isActive && !e.body.isStatic && e.body.position == ProjectileStart &&
      e.body.velocity == Zero && e.body.angularVelocity == 0 &&
      e.isUsed == s.birds[t.currentBirdIndex].isUsed &&
      e.queueIndex == s.birds[t.currentBirdIndex].queueIndex &&
      e.originalPosition == s.birds[t.currentBirdIndex].originalPosition
    ensures forall i :: t.currentBirdIndex < i < |s.birds| ==>
      t.birds[i] == s.birds[i].(body := s.birds[i].body.(position := QueueSpot(cfg, |s.birds|, i)))
  {
    var k := s.currentBirdIndex;
    var marked := if k < |s.birds| then s.birds[k := s.birds[k].(isUsed := true, isActive := false)] else s.birds;
    if k + 1 >= |marked| then QueueState(marked, k + 1, true)
    else QueueState(Requeued(marked[k + 1 := Launchable(marked[k + 1])], k + 1, cfg), k + 1, s.isGameOver)
  }

  /** nextBird keeps the invariant; the game is then over exactly when the
      cursor has passed the last entry. */
  lemma AdvanceKeepsInv(s: QueueState, cfg: QueueConfig)
    requires QueueInv(s, cfg)
    ensures QueueInv(Advance(s, cfg), cfg)
  {
    var t := Advance(s, cfg);
    var k := s.currentBirdIndex;
    if k + 1 < |s.birds| {
      var marked := s.birds[k := s.birds[k].(isUsed := true, isActive := false)];
      var launched := marked[k + 1 := Launchable(marked[k + 1])];
      RequeueMovesNothing(launched, k + 1, cfg);
    }
  }

  /** k calls of nextBird in a row. */
  function AdvanceN(s: QueueState, cfg: QueueConfig, k: nat): QueueState
    decreases k
  {
    if k == 0 then s else AdvanceN(Advance(s, cfg), cfg, k - 1)
  }

  lemma {:induction false} AdvanceNKeepsInv(s: QueueState, cfg: QueueConfig, k: nat)
    requires QueueInv(s, cfg)
    ensures QueueInv(AdvanceN(s, cfg, k), cfg)
    ensures AdvanceN(s, cfg, k).currentBirdIndex == s.currentBirdIndex + k
    decreases k
  {
    if k > 0 {
      AdvanceKeepsInv(s, cfg);
      AdvanceNKeepsInv(Advance(s, cfg), cfg, k - 1);
    }
  }

  /** After k launches from a fresh queue: the cursor is k, exactly the first
      k entries are used, the game is over exactly when k reaches the number
      of birds (and k > 0), a current bird exists exactly while k is below it,
      and the remaining count is the number of entries still unused. */
  lemma RunFromStart(cfg: QueueConfig, firstId: nat, k: nat)
    ensures var t := AdvanceN(InitialState(cfg, firstId), cfg, k);
      t.currentBirdIndex == k &&
      (forall i :: 0 <= i < |t.birds| ==> (t.birds[i].isUsed <==> i < k)) &&
      (t.isGameOver <==> 0 < k && BirdCount(cfg) <= k) &&
      (CurrentOf(t).Some? <==> k < BirdCount(cfg)) &&
      RemainingOf(t, cfg) == CountUnused(t.birds)
  {
    var t := AdvanceN(InitialState(cfg, firstId), cfg, k);
    InitialStateIsStart(cfg, firstId);
    AdvanceNKeepsInv(InitialState(cfg, firstId), cfg, k);
    RemainingCountsUnused(t, cfg);
  }

  // ---------------------------------------------------------------------
  // The object
  // ---------------------------------------------------------------------

  class BirdQueue {
    const world: World
    const config: QueueConfig
    var birds: seq<BirdEntry>
    var currentBirdIndex: nat
    var isGameOver: bool

    /** The fields as one value. */
    function State(): QueueState
      reads this
    {
      QueueState(birds, currentBirdIndex, isGameOver)
    }

    ghost predicate Valid()
      reads this
    {
      QueueInv(State(), config)
    }

    /** new BirdQueue(world), with the queue parameters passed in. */
    constructor (world: World, config: QueueConfig)
      modifies world`bodies, world`nextId
      ensures this.world == world && this.config == config
      ensures Valid()
      ensures State() == InitialState(config, old(world.nextId))
      ensures world.bodies == old(world.bodies) + BodyIdSet(birds)
      ensures old(world.Valid()) ==> old(world.bodies) !! BodyIdSet(birds)
      ensures world.nextId == old(world.nextId) + BirdCount(config)
      ensures old(world.Valid()) ==> world.Valid()
    {
      ghost var firstId := world.nextId;
      this.world := world;
      this.config := config;
      birds := [];
      currentBirdIndex := 0;
      isGameOver := false;
      new;
      InitializeBirds();
      InitialStateIsStart(config, firstId);
      InitialIdsFromCounter(config, firstId);
    }

    /** One round of the loop of initializeBirds: create the body of entry i,
        make it static unless it is the first, append the entry and add the
        body to the world. */
    method PushBird(i: nat)
      modifies this`birds, world`bodies, world`nextId
      ensures birds == old(birds) + [NewEntry(config, i, old(world.nextId))]
      ensures world.bodies == old(world.bodies) + {old(world.nextId)}
      ensures world.nextId == old(world.nextId) + 1
      ensures old(world.Valid()) ==> world.Valid()
    {
      var reverseIndex := config.totalBirds - 1 - i;
      var x := config.startX + reverseIndex * config.spacing;
      var y := config.startY;
      var color := ColorFor(config.colors, i);
      var id := world.NewId();
      var bird := NewBody(id, Vec(x, y), color);
      if i > 0 {
        bird := SetStatic(bird, true);
      }
      birds := birds + [BirdEntry(bird, Vec(x, y), i == 0, false, i)];
      world.AddBody(id);
    }

    /** initializeBirds: create totalBirds bodies, append one entry per body
        and add each body to the world. */
    method InitializeBirds()
      modifies this`birds, world`bodies, world`nextId
      ensures birds == old(birds) + InitialBirds(config, old(world.nextId))
      ensures world.bodies == old(world.bodies) + BodyIdSet(InitialBirds(config, old(world.nextId)))
      ensures world.nextId == old(world.nextId) + BirdCount(config)
      ensures old(world.Valid()) ==> world.Valid()
    {
      ghost var firstId := world.nextId;
      var i := 0;
      while i < config.totalBirds
        invariant 0 <= i <= BirdCount(config)
        invariant birds == old(birds) + FirstBirds(config, firstId, i)
        invariant world.nextId == firstId + i
        invariant world.bodies == old(world.bodies) + BodyIdSet(FirstBirds(config, firstId, i))
        invariant old(world.Valid()) ==> world.Valid()
      {
        ghost var done := FirstBirds(config, firstId, i);
        ghost var entry := NewEntry(config, i, firstId + i);
        PushBird(i);
        assert FirstBirds(config, firstId, i + 1) == done + [entry];
        assert birds == old(birds) + (done + [entry]);
        BodyIdSetSnoc(done, entry);
        i := i + 1;
      }
    }

    /** getCurrentBird */
    function GetCurrentBird(): (r: Option<BirdEntry>)
      reads this
      ensures r.None? <==> isGameOver || |birds| <= currentBirdIndex
      ensures r.Some? ==> r.value == birds[currentBirdIndex]
      ensures Valid() && r.Some? ==> r.value.isActive && !r.value.isUsed
    {
      CurrentOf(State())
    }

    /** nextBird */
    method NextBird() returns (r: Option<BirdEntry>)
      requires Valid()
      modifies this`birds, this`currentBirdIndex, this`isGameOver
      ensures Valid()
      ensures State() == Advance(old(State()), config)
      ensures r.None? <==> |birds| <= currentBirdIndex
      ensures r.Some? ==> r.value == birds[currentBirdIndex] && r == GetCurrentBird()
    {
      ghost var s := State();
      if currentBirdIndex < |birds| {
        birds := birds[currentBirdIndex := birds[currentBirdIndex].(isUsed := true, isActive := false)];
      }
      currentBirdIndex := currentBirdIndex + 1;
      if currentBirdIndex >= |birds| {
        isGameOver := true;
        AdvanceKeepsInv(s, config);
        return None;
      }
      var next := birds[currentBirdIndex].(isActive := true);
      next := next.(body := SetStatic(next.body, false));
      next := next.(body := SetPosition(next.body, ProjectileStart));
      next := next.(body := SetVelocity(next.body, Zero));
      next := next.(body := SetAngularVelocity(next.body, 0));
      birds := birds[currentBirdIndex := next];
      UpdateQueuePositions();
      AdvanceKeepsInv(s, config);
      r := Some(next);
    }

    /** updateQueuePositions */
    method UpdateQueuePositions()
      modifies this`birds
      ensures birds == Requeued(old(birds), currentBirdIndex, config)
    {
      var i := currentBirdIndex + 1;
      while i < |birds|
        invariant currentBirdIndex + 1 <= i
        invariant |birds| == |old(birds)|
        invariant forall j :: 0 <= j < |birds| ==>
          birds[j] == if currentBirdIndex < j < i
                      then old(birds)[j].(body := SetPosition(old(birds)[j].body, QueueSpot(config, |birds|, j)))
                      else old(birds)[j]
      {
        var positionInQueue := |birds| - 1 - i;
        var newX := config.startX + positionInQueue * config.spacing;
        birds := birds[i := birds[i].(body := SetPosition(birds[i].body, Vec(newX, config.startY)))];
        i := i + 1;
      }
    }

    /** getRemainingBirds */
    function GetRemainingBirds(): (r: int)
      reads this
      ensures 0 <= r
      ensures config.totalBirds - currentBirdIndex <= r
      ensures r == 0 || r == config.totalBirds - currentBirdIndex
      ensures Valid() && isGameOver ==> r == 0
    {
      RemainingOf(State(), config)
    }

    /** isGameComplete */
    function IsGameComplete(): (r: bool)
      reads this
      ensures r ==> GetCurrentBird().None?
      ensures Valid() ==> (r <==> 0 < currentBirdIndex && |birds| <= currentBirdIndex)
      ensures Valid() && r ==> GetRemainingBirds() == 0
    {
      isGameOver
    }

    /** The forEach of reset: remove every entry's body from the world. */
    method RemoveBirdBodies()
      modifies world`bodies
      ensures world.bodies == old(world.bodies) - BodyIdSet(birds)
    {
      var k := 0;
      while k < |birds|
        invariant 0 <= k <= |birds|
        invariant world.bodies == old(world.bodies) - BodyIdSet(birds[..k])
      {
        world.RemoveBody(birds[k].body.id);
        assert birds[..k + 1] == birds[..k] + [birds[k]];
        BodyIdSetSnoc(birds[..k], birds[k]);
        k := k + 1;
      }
      assert birds[..k] == birds;
    }

    /** reset: take every bird's body out of the world, clear the state and
        build the queue again with new bodies. */
    method Reset()
      modifies this`birds, this`currentBirdIndex, this`isGameOver, world`bodies, world`nextId
      ensures Valid()
      ensures State() == InitialState(config, old(world.nextId))
      ensures world.bodies ==
        old(world.bodies) - BodyIdSet(old(birds)) + BodyIdSet(birds)
      ensures old(world.Valid()) ==> old(world.bodies) !! BodyIdSet(birds)
      ensures world.nextId == old(world.nextId) + BirdCount(config)
      ensures old(world.Valid()) ==> world.Valid()
    {
      ghost var firstId := world.nextId;
      RemoveBirdBodies();
      birds := [];
      currentBirdIndex := 0;
      isGameOver := false;
      InitializeBirds();
      InitialStateIsStart(config, firstId);
      InitialIdsFromCounter(config, firstId);
    }

    /** getBirdStatus */
    function GetBirdStatus(): (r: seq<BirdStatus>)
      reads this
      ensures |r| == |birds|
      ensures Valid() ==> ReportsQueue(r, currentBirdIndex, config)
    {
      StatusOf(birds)
    }
  }
}
