/** The timed spawn policies of the gameplay scene: the three spawn
    accumulators, where coins are placed, how the difficulty level rises,
    and the health power-up. */
module Spawning {
  const CoinSpawnInterval: nat := 1000
  const DragonSpawnInterval: nat := 8000
  const PowerUpSpawnInterval: nat := 6000

  /** x of the first coin; later coins follow a forward track from here. */
  const FirstCoinX: int := 400
  /** Mean gap between consecutive coins, and the largest deviation from it. */
  const CoinStep: int := 150
  const CoinJitter: int := 30

  const PowerUpAhead: int := 300
  const PowerUpY: int := 140

  /** Every this many collected coins the difficulty check succeeds. */
  const CoinsPerLevel: nat := 5

  datatype Coin = Coin(x: int, y: int)

  datatype PowerUpKind = HealthRestore

  datatype PowerUp = PowerUp(x: int, y: int, kind: PowerUpKind)

  // ---------------------------------------------------------------------------
  // Spawn accumulators
  // ---------------------------------------------------------------------------

  datatype TimerStep = TimerStep(fired: bool, elapsed: nat)

  /** One tick of a spawn accumulator: the frame's delta is added, and when
      the interval is reached the spawn fires and the accumulator restarts at
      exactly 0, discarding whatever time ran past the interval. */
  function AdvanceTimer(elapsed: nat, delta: nat, interval: nat): (r: TimerStep)
    ensures r.fired <==> elapsed + delta >= interval
    ensures r.fired ==> r.elapsed == 0
    ensures !r.fired ==> r.elapsed == elapsed + delta
    ensures interval > 0 ==> r.elapsed < interval
  {
    if elapsed + delta >= interval then TimerStep(true, 0) else TimerStep(false, elapsed + delta)
  }

  function Sum(deltas: seq<nat>): nat
  {
    if deltas == [] then 0 else deltas[0] + Sum(deltas[1..])
  }

  /** How many of the ticks with these deltas fire, starting from elapsed. */
  function FiredCount(elapsed: nat, deltas: seq<nat>, interval: nat): nat
    decreases |deltas|
  {
    if deltas == [] then 0
    else
      var step := AdvanceTimer(elapsed, deltas[0], interval);
      (if step.fired then 1 else 0) + FiredCount(step.elapsed, deltas[1..], interval)
  }

  /** Because the residue is thrown away, a policy never fires more often
      than once per interval of elapsed time. */
  lemma {:induction false} FiredCountBound(elapsed: nat, deltas: seq<nat>, interval: nat)
    ensures FiredCount(elapsed, deltas, interval) * interval <= elapsed + Sum(deltas)
    decreases |deltas|
  {
    if deltas != [] {
      var step := AdvanceTimer(elapsed, deltas[0], interval);
      FiredCountBound(step.elapsed, deltas[1..], interval);
      var rest := FiredCount(step.elapsed, deltas[1..], interval);
      if step.fired {
        assert (1 + rest) * interval == interval + rest * interval;
      }
    }
  }

  /** A single long frame fires at most once: two intervals' worth of delta
      still spawn one coin, and the second interval is lost. */
  lemma LongFrameFiresOnce()
    ensures FiredCount(0, [2500], CoinSpawnInterval) == 1
    ensures FiredCount(0, [1500, 500], CoinSpawnInterval) == 1
  {
  }

  // ---------------------------------------------------------------------------
  // Coins
  // ---------------------------------------------------------------------------

  /** Height of a new coin for height tier 1 (ground), 2 (low, needs a crouch),
      3 (mid) or 4 (high, needs a jump). Only the high tier depends on the
      difficulty level, and at any level from 1 up it is above every fixed tier. */
  function CoinY(heightType: int, level: int): (y: int)
    requires 1 <= heightType <= 4
    ensures y in {155, 165, 135, 100 - 5 * level}
    ensures level >= 1 ==> (heightType == 4 <==> y <= 95)
  {
    match heightType
    case 1 => 155
    case 2 => 165
    case 3 => 135
    case 4 => 100 - 5 * level
  }

  /** The next coin's x: 150 plus a jitter in [-30, 30] past the previous one. */
  function NextCoinX(x: int, offset: int): (r: int)
    requires -CoinJitter <= offset <= CoinJitter
    ensures x + 120 <= r <= x + 180
  {
    x + CoinStep + offset
  }

  predicate ValidOffsets(offsets: seq<int>)
  {
    forall k :: 0 <= k < |offsets| ==> -CoinJitter <= offsets[k] <= CoinJitter
  }

  /** The x positions of the coins laid down by successive spawns with these
      jitters, starting from x: a forward track that does not depend on where
      the player is. */
  function CoinTrack(x: int, offsets: seq<int>): (track: seq<int>)
    requires ValidOffsets(offsets)
    ensures |track| == |offsets|
    ensures track != [] ==> track[0] == x
    ensures forall k :: 0 <= k < |track| - 1 ==> track[k] + 120 <= track[k + 1] <= track[k] + 180
    decreases |offsets|
  {
    if offsets == [] then []
    else [x] + CoinTrack(NextCoinX(x, offsets[0]), offsets[1..])
  }

  /** With no jitter, coins starting at 400 land at 400 and 550. */
  lemma CoinTrackWithoutJitter()
    ensures CoinTrack(FirstCoinX, [0, 0]) == [400, 550]
  {
  }

  /** The high tier at difficulty 4 is at 80. */
  lemma HighCoinAtLevelFour()
    ensures CoinY(4, 4) == 80
  {
  }

  // ---------------------------------------------------------------------------
  // Difficulty
  // ---------------------------------------------------------------------------

  /** The difficulty check that runs every time a coin spawns: it succeeds
      whenever the collected-coin tally is a positive multiple of 5. */
  function LevelAfterCoinSpawn(level: int, coinsCollected: nat): (r: int)
    ensures level <= r <= level + 1
    ensures r == level + 1 <==> coinsCollected > 0 && coinsCollected % CoinsPerLevel == 0
  {
    if coinsCollected > 0 && coinsCollected % CoinsPerLevel == 0 then level + 1 else level
  }

  /** The level after `spawns` coin spawns during which no coin is collected. */
  function LevelAfterSpawns(level: int, coinsCollected: nat, spawns: nat): int
    decreases spawns
  {
    if spawns == 0 then level
    else LevelAfterSpawns(LevelAfterCoinSpawn(level, coinsCollected), coinsCollected, spawns - 1)
  }

  /** While the tally sits at a positive multiple of 5, every coin spawn raises
      the level again: the level grows with time spent there, not with coins. */
  lemma {:induction false} SpawnsAtMultipleOfFiveKeepRaising(level: int, coinsCollected: nat, spawns: nat)
    requires coinsCollected > 0 && coinsCollected % CoinsPerLevel == 0
    ensures LevelAfterSpawns(level, coinsCollected, spawns) == level + spawns
    decreases spawns
  {
    if spawns > 0 {
      SpawnsAtMultipleOfFiveKeepRaising(level + 1, coinsCollected, spawns - 1);
    }
  }

  /** Away from a positive multiple of 5 no spawn changes the level, so a
      multiple of 5 that is passed between two spawns raises nothing. */
  lemma {:induction false} SpawnsOffMultipleOfFiveKeepLevel(level: int, coinsCollected: nat, spawns: nat)
    requires !(coinsCollected > 0 && coinsCollected % CoinsPerLevel == 0)
    ensures LevelAfterSpawns(level, coinsCollected, spawns) == level
    decreases spawns
  {
    if spawns > 0 {
      SpawnsOffMultipleOfFiveKeepLevel(level, coinsCollected, spawns - 1);
    }
  }

  // ---------------------------------------------------------------------------
  // Power-ups
  // ---------------------------------------------------------------------------

  /** A power-up spawned for a player at playerX. */
  function NewPowerUp(playerX: int): (p: PowerUp)
    ensures p.x == playerX + PowerUpAhead && p.y == PowerUpY && p.kind == HealthRestore
  {
    PowerUp(playerX + PowerUpAhead, PowerUpY, HealthRestore)
  }

  /** Health after picking up a health power-up: one more, but never past the
      maximum; a player at full health gains nothing. */
  function Healed(health: int, maxHealth: int): (r: int)
    ensures health < maxHealth ==> r == health + 1
    ensures health >= maxHealth ==> r == health
    ensures health <= maxHealth ==> r <= maxHealth
    ensures r >= health
  {
    if health < maxHealth then health + 1 else health
  }

  /** At full health a power-up changes nothing; at 2 of 3 it restores to 3. */
  lemma PowerUpScenarios()
    ensures Healed(3, 3) == 3
    ensures Healed(2, 3) == 3
  {
  }
}
