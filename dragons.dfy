/** Dragons: spawned with difficulty-scaled stats, patrolling back and forth
    around their spawn point, and struck down by the player's attack; and the
    fire projectiles, which are culled once far enough behind the player. */
module Dragons {
  const SpawnAhead: int := 400
  const PatrolDistance: int := 200
  const BaseHealth: int := 2
  const BaseSpeed: int := 30
  const DefeatBonus: nat := 50
  const FireCullDistance: int := 200

  datatype Option<T> = None | Some(value: T)

  /** A dragon. `id` is the handle by which the scene refers to the same
      dragon later (the hit-cooldown callback, the attack overlap); `x` is
      the position reported by the physics engine. */
  datatype Dragon = Dragon(id: nat, x: int, health: int, speed: int, direction: int,
                           startX: int, patrolDistance: int, isBeingHit: bool)

  /** A live dragon: heading left or right, patrolling 200 units either way,
      and not yet at 0 health. */
  ghost predicate Patrolling(d: Dragon)
  {
    (d.direction == -1 || d.direction == 1) && d.patrolDistance == PatrolDistance && d.health >= 1
  }

  /** The live dragons of a scene: all patrolling, all with handles below
      bound (the next handle to be given out), and in the order they were
      spawned, so that no two share a handle. */
  ghost predicate Formation(ds: seq<Dragon>, bound: nat)
  {
    && (forall k :: 0 <= k < |ds| ==> Patrolling(ds[k]) && ds[k].id < bound)
    && (forall j, k :: 0 <= j < k < |ds| ==> ds[j].id < ds[k].id)
  }

  /** A dragon spawned 400 units ahead of the player at the given difficulty. */
  function NewDragon(id: nat, playerX: int, level: int): (d: Dragon)
    ensures d.id == id && d.x == d.startX == playerX + SpawnAhead
    ensures d.health == 2 + level / 3 && d.speed == 30 + 5 * level
    ensures d.direction == -1 && d.patrolDistance == PatrolDistance && !d.isBeingHit
    ensures level >= 1 ==> Patrolling(d) && d.health >= 2 && d.speed >= 35
  {
    Dragon(id, playerX + SpawnAhead, BaseHealth + level / 3, BaseSpeed + 5 * level, -1,
           playerX + SpawnAhead, PatrolDistance, false)
  }

  /** A dragon spawned at difficulty 6 has 4 health and speed 60. */
  lemma DragonAtLevelSix(id: nat, playerX: int)
    ensures NewDragon(id, playerX, 6).health == 4 && NewDragon(id, playerX, 6).speed == 60
  {
  }

  /** The horizontal velocity a patrol step gives the dragon; it uses the
      direction the dragon had before the step turns it. */
  function PatrolVelocity(d: Dragon): (v: int)
    ensures d.direction == 1 ==> v == d.speed
    ensures d.direction == -1 ==> v == -d.speed
  {
    d.speed * d.direction
  }

  /** One patrol step: turn right on reaching the left limit while heading
      left, turn left on reaching the right limit while heading right. */
  function UpdateDragon(d: Dragon): (r: Dragon)
    ensures r == d.(direction := r.direction)
    ensures Patrolling(d) ==> Patrolling(r)
    ensures r.direction != d.direction ==>
      (d.direction == -1 && r.direction == 1 && d.x <= d.startX - d.patrolDistance) ||
      (d.direction == 1 && r.direction == -1 && d.x >= d.startX + d.patrolDistance)
    ensures d.direction == -1 && d.x <= d.startX - d.patrolDistance ==> r.direction == 1
    ensures d.direction == 1 && d.x >= d.startX + d.patrolDistance ==> r.direction == -1
  {
    if d.direction == -1 && d.x <= d.startX - d.patrolDistance then d.(direction := 1)
    else if d.direction == 1 && d.x >= d.startX + d.patrolDistance then d.(direction := -1)
    else d
  }

  /** One sword strike: ignored while the dragon is still in its hit cooldown;
      otherwise it costs one health and starts the cooldown, and a dragon left
      with no health is destroyed (None). */
  function StrikeDragon(d: Dragon): (r: Option<Dragon>)
    ensures d.isBeingHit ==> r == Some(d)
    ensures !d.isBeingHit ==> (r.None? <==> d.health <= 1)
    ensures !d.isBeingHit && r.Some? ==> r.value == d.(health := d.health - 1, isBeingHit := true)
    ensures r.Some? ==> r.value.id == d.id && (Patrolling(d) ==> Patrolling(r.value))
  {
    if d.isBeingHit then Some(d)
    else
      var hit := d.(isBeingHit := true, health := d.health - 1);
      if hit.health <= 0 then None else Some(hit)
  }

  /** A dragon the sword reaches this tick: the player attacks, the dragon
      overlaps the player and it is not in its hit cooldown. */
  predicate Struck(d: Dragon, attacking: bool, overlaps: set<nat>)
  {
    attacking && d.id in overlaps && !d.isBeingHit
  }

  /** What one tick does to a single dragon: a patrol step, then a strike if
      the player is attacking and the dragon overlaps the player. */
  function AdvanceDragon(d: Dragon, attacking: bool, overlaps: set<nat>): (r: Option<Dragon>)
    ensures r.None? <==> Struck(d, attacking, overlaps) && d.health <= 1
    ensures r.Some? && !Struck(d, attacking, overlaps) ==> r.value == UpdateDragon(d)
    ensures r.Some? && Struck(d, attacking, overlaps) ==>
      r.value == UpdateDragon(d).(health := d.health - 1, isBeingHit := true)
  {
    var moved := UpdateDragon(d);
    if attacking && moved.id in overlaps then StrikeDragon(moved) else Some(moved)
  }

  /** The dragons a step leaves in the group: the survivor, or none. */
  function Survivors(outcome: Option<Dragon>): seq<Dragon>
  {
    if outcome.Some? then [outcome.value] else []
  }

  datatype DragonsStep = DragonsStep(remaining: seq<Dragon>, defeated: nat, velocities: seq<int>)

  /** The dragon pass of one tick over the first n dragons, in order: the
      survivors, how many were destroyed, and the patrol velocity given to
      each dragon visited. */
  function AdvancePrefix(ds: seq<Dragon>, n: nat, attacking: bool, overlaps: set<nat>): (r: DragonsStep)
    requires n <= |ds|
    ensures |r.remaining| + r.defeated == n
    ensures |r.velocities| == n
    ensures forall k :: 0 <= k < n ==> r.velocities[k] == PatrolVelocity(ds[k])
    decreases n
  {
    if n == 0 then DragonsStep([], 0, [])
    else
      var prev := AdvancePrefix(ds, n - 1, attacking, overlaps);
      var outcome := AdvanceDragon(ds[n - 1], attacking, overlaps);
      DragonsStep(prev.remaining + Survivors(outcome),
                  prev.defeated + (if outcome.None? then 1 else 0),
                  prev.velocities + [PatrolVelocity(ds[n - 1])])
  }

  /** The whole dragon pass of one tick. */
  function AdvanceDragons(ds: seq<Dragon>, attacking: bool, overlaps: set<nat>): (r: DragonsStep)
    ensures |r.remaining| + r.defeated == |ds|
    ensures |r.velocities| == |ds|
    ensures forall k :: 0 <= k < |ds| ==> r.velocities[k] == PatrolVelocity(ds[k])
  {
    AdvancePrefix(ds, |ds|, attacking, overlaps)
  }

  /** The dragon pass keeps the formation: every survivor still patrols,
      and the survivors keep their order. */
  lemma {:induction false} AdvanceKeepsFormation(ds: seq<Dragon>, n: nat, bound: nat, attacking: bool, overlaps: set<nat>)
    requires Formation(ds, bound) && n <= |ds|
    ensures Formation(AdvancePrefix(ds, n, attacking, overlaps).remaining, bound)
    ensures forall k :: 0 <= k < |AdvancePrefix(ds, n, attacking, overlaps).remaining| ==>
      exists m :: 0 <= m < n && AdvancePrefix(ds, n, attacking, overlaps).remaining[k].id == ds[m].id
    decreases n
  {
    if n > 0 {
      AdvanceKeepsFormation(ds, n - 1, bound, attacking, overlaps);
      var prev := AdvancePrefix(ds, n - 1, attacking, overlaps).remaining;
      var outcome := AdvanceDragon(ds[n - 1], attacking, overlaps);
      var r := AdvancePrefix(ds, n, attacking, overlaps).remaining;
      assert r == prev + Survivors(outcome);
      assert forall k :: 0 <= k < |prev| ==> prev[k].id < ds[n - 1].id;
    }
  }

  /** Only a strike destroys dragons: when the sword reaches none of them
      (no attack, no overlap, or every overlapping dragon in its cooldown),
      every dragon survives the pass, having taken exactly its patrol step. */
  lemma {:induction false} UnstruckNoLosses(ds: seq<Dragon>, n: nat, attacking: bool, overlaps: set<nat>)
    requires n <= |ds|
    requires forall k :: 0 <= k < n ==> !Struck(ds[k], attacking, overlaps)
    ensures AdvancePrefix(ds, n, attacking, overlaps).defeated == 0
    ensures AdvancePrefix(ds, n, attacking, overlaps).remaining == seq(n, k requires 0 <= k < n => UpdateDragon(ds[k]))
    decreases n
  {
    if n > 0 {
      UnstruckNoLosses(ds, n - 1, attacking, overlaps);
    }
  }

  /** The fire projectiles left after culling those more than 200 units behind
      the player at playerX, in their original order. */
  function KeptFires(fires: seq<int>, playerX: int): (r: seq<int>)
    ensures forall x :: x in r <==> x in fires && x >= playerX - FireCullDistance
    ensures forall x :: multiset(r)[x] == if x >= playerX - FireCullDistance then multiset(fires)[x] else 0
    ensures |r| <= |fires|
    decreases |fires|
  {
    if fires == [] then []
    else
      var prev := KeptFires(fires[..|fires| - 1], playerX);
      var last := fires[|fires| - 1];
      assert fires == fires[..|fires| - 1] + [last];
      if last < playerX - FireCullDistance then prev else prev + [last]
  }

  /** Culling keeps the projectiles in their original order: culling a
      group made of two parts culls each part and keeps them in sequence. */
  lemma {:induction false} KeptFiresKeepsOrder(a: seq<int>, b: seq<int>, playerX: int)
    ensures KeptFires(a + b, playerX) == KeptFires(a, playerX) + KeptFires(b, playerX)
    decreases |b|
  {
    if b != [] {
      var b' := b[..|b| - 1];
      assert (a + b)[..|a + b| - 1] == a + b';
      assert (a + b)[|a + b| - 1] == b[|b| - 1];
      KeptFiresKeepsOrder(a, b', playerX);
      var tail := if b[|b| - 1] < playerX - FireCullDistance then [] else [b[|b| - 1]];
      assert KeptFires(b, playerX) == KeptFires(b', playerX) + tail;
      assert KeptFires(a + b, playerX) == KeptFires(a + b', playerX) + tail;
    } else {
      assert a + b == a;
    }
  }
}
