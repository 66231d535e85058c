/** The gameplay scene: one object holding the player's health and posture,
    the tallies, the difficulty level, the ground frontier, the three spawn
    accumulators and the live entity groups, changed in place by the
    per-frame update and by the collision and timer callbacks. */
module Scene {
  import opened World
  import opened Spawning
  import opened Dragons
  import opened Player

  class GameScene {
    const maxHealth: int := 3
    /** Configured in the constructor and never read: the invincibility
        window actually lasts as long as the flashing sequence. */
    const invincibilityDuration: int := 2000
    const coinSpawnInterval: nat := CoinSpawnInterval
    const dragonSpawnInterval: nat := DragonSpawnInterval
    const powerUpSpawnInterval: nat := PowerUpSpawnInterval

    var groundGeneratedToX: int
    var isAttacking: bool
    var isCrouching: bool

    var playerHealth: int
    var isInvincible: bool

    var score: nat
    var coinsCollected: nat

    var coinSpawnTimer: nat
    var difficultyLevel: int
    var nextCoinX: int

    var dragonSpawnTimer: nat
    var dragonsDefeated: nat

    var powerUpSpawnTimer: nat

    /** The row of ground tiles: ground[k] is true when tile k has been placed. */
    var ground: array<bool>
    var coins: seq<Coin>
    var dragons: seq<Dragon>
    /** x positions of the live fire projectiles. */
    var fires: seq<int>
    var powerUps: seq<PowerUp>
    /** The handle the next spawned dragon receives. */
    var nextDragonId: nat
    /** How many times the death transition has run. */
    ghost var deaths: nat

    ghost predicate Valid()
      reads this, ground
    {
      && 0 <= playerHealth <= maxHealth
      && 1 <= difficultyLevel
      && coinSpawnTimer < coinSpawnInterval
      && dragonSpawnTimer < dragonSpawnInterval
      && powerUpSpawnTimer < powerUpSpawnInterval
      && 0 <= groundGeneratedToX <= WorldWidth
      && ground.Length == WorldWidth
      && (forall k :: 0 <= k < WorldWidth ==> (ground[k] <==> k < groundGeneratedToX))
      && !(isAttacking && isCrouching)
      && Formation(dragons, nextDragonId)
    }

    /** The state the scene starts in, before create() lays down any ground. */
    constructor ()
      ensures Valid() && fresh(ground)
      ensures groundGeneratedToX == 0 && !isAttacking && !isCrouching
      ensures playerHealth == 3 && !isInvincible
      ensures score == 0 && coinsCollected == 0
      ensures coinSpawnTimer == 0 && difficultyLevel == 1 && nextCoinX == FirstCoinX
      ensures dragonSpawnTimer == 0 && dragonsDefeated == 0 && powerUpSpawnTimer == 0
      ensures coins == [] && dragons == [] && fires == [] && powerUps == []
      ensures deaths == 0
    {
      groundGeneratedToX := 0;
      isAttacking := false;
      isCrouching := false;
      playerHealth := 3;
      isInvincible := false;
      score := 0;
      coinsCollected := 0;
      coinSpawnTimer := 0;
      difficultyLevel := 1;
      nextCoinX := FirstCoinX;
      dragonSpawnTimer := 0;
      dragonsDefeated := 0;
      powerUpSpawnTimer := 0;
      ground := new bool[WorldWidth](_ => false);
      coins, dragons, fires, powerUps := [], [], [], [];
      nextDragonId := 0;
      deaths := 0;
    }

    /** Scene creation: a new blank ground layer whose first 20 tiles are
        filled, and empty entity groups. */
    method Create()
      requires Valid()
      modifies this`ground, this`groundGeneratedToX, this`coins, this`dragons, this`fires, this`powerUps
      ensures Valid() && fresh(ground)
      ensures groundGeneratedToX == InitialGround
      ensures forall k :: 0 <= k < WorldWidth ==> (ground[k] <==> k < InitialGround)
      ensures coins == [] && dragons == [] && fires == [] && powerUps == []
    {
      var layer := new bool[WorldWidth](_ => false);
      var x := 0;
      while x < InitialGround
        invariant 0 <= x <= InitialGround
        invariant forall k :: 0 <= k < WorldWidth ==> (layer[k] <==> k < x)
      {
        layer[x] := true;
        x := x + 1;
      }
      ground := layer;
      groundGeneratedToX := InitialGround;
      coins, dragons, fires, powerUps := [], [], [], [];
    }

    // -------------------------------------------------------------------------
    // The per-frame update
    // -------------------------------------------------------------------------

    /** One frame. The engine supplies the key states, the player's grounded
        flag, vertical velocity and x, the frame's delta, the random coin
        height tier and jitter, the positions of the dragons and fires, and
        the handles of the dragons overlapping the player. Returns the
        player's movement command, whether the debug-damage key killed the
        player, and the patrol velocity of each dragon visited. */
    method Tick(keys: Keys, damageJustDown: bool, onGround: bool, velocityY: int, playerX: int,
                delta: nat, heightType: int, coinOffset: int,
                dragonXs: seq<int>, fireXs: seq<int>, attackOverlaps: set<nat>)
      returns (cmd: PlayerCommand, died: bool, dragonVelocities: seq<int>)
      requires Valid()
      requires 1 <= heightType <= 4 && -CoinJitter <= coinOffset <= CoinJitter
      requires |dragonXs| == |dragons| && |fireXs| == |fires|
      modifies this`dragons, this`fires, this`isCrouching, this`isAttacking,
               this`playerHealth, this`isInvincible, this`deaths,
               this`groundGeneratedToX, ground, this`coinSpawnTimer, this`coins, this`nextCoinX,
               this`difficultyLevel, this`dragonSpawnTimer, this`nextDragonId,
               this`dragonsDefeated, this`score, this`powerUpSpawnTimer, this`powerUps
      ensures Valid()
      // input step
      ensures var r := ResolveInput(keys, onGround, velocityY, old(isAttacking));
        isCrouching == r.crouching && isAttacking == r.attacking && cmd == r.command
      // ground
      ensures groundGeneratedToX == NextFrontier(old(groundGeneratedToX), TileOf(playerX))
      // spawn accumulators
      ensures coinSpawnTimer == AdvanceTimer(old(coinSpawnTimer), delta, coinSpawnInterval).elapsed
      ensures dragonSpawnTimer == AdvanceTimer(old(dragonSpawnTimer), delta, dragonSpawnInterval).elapsed
      ensures powerUpSpawnTimer == AdvanceTimer(old(powerUpSpawnTimer), delta, powerUpSpawnInterval).elapsed
      // coins and difficulty
      ensures coinsCollected == old(coinsCollected)
      ensures old(coinSpawnTimer) + delta >= coinSpawnInterval ==>
        coins == old(coins) + [Coin(old(nextCoinX), CoinY(heightType, old(difficultyLevel)))] &&
        nextCoinX == NextCoinX(old(nextCoinX), coinOffset) &&
        difficultyLevel == LevelAfterCoinSpawn(old(difficultyLevel), coinsCollected)
      ensures old(coinSpawnTimer) + delta < coinSpawnInterval ==>
        coins == old(coins) && nextCoinX == old(nextCoinX) && difficultyLevel == old(difficultyLevel)
      // power-ups
      ensures powerUps == old(powerUps) +
        (if old(powerUpSpawnTimer) + delta >= powerUpSpawnInterval then [NewPowerUp(playerX)] else [])
      // dragons and the tallies
      ensures var spawned := if old(dragonSpawnTimer) + delta >= dragonSpawnInterval
                             then [NewDragon(old(nextDragonId), playerX, difficultyLevel)] else [];
        var r := AdvanceDragons(WithPositions(old(dragons), dragonXs) + spawned, isAttacking, attackOverlaps);
        dragons == r.remaining && dragonVelocities == r.velocities &&
        dragonsDefeated == old(dragonsDefeated) + r.defeated &&
        score == old(score) + DefeatBonus * r.defeated
      ensures !isAttacking ==> dragonsDefeated == old(dragonsDefeated)
      ensures fires == KeptFires(fireXs, playerX)
      // health: only the debug-damage key hurts, by one point
      ensures !damageJustDown ==> !died && playerHealth == old(playerHealth) && isInvincible == old(isInvincible)
      ensures damageJustDown && old(isInvincible) ==> !died && playerHealth == old(playerHealth) && isInvincible
      ensures damageJustDown && !old(isInvincible) ==> (died <==> old(playerHealth) <= 1)
      ensures damageJustDown && !old(isInvincible) && !died ==> playerHealth == old(playerHealth) - 1 && isInvincible
      ensures died ==> playerHealth == 0 && !isInvincible
      ensures deaths == old(deaths) + (if died then 1 else 0)
    {
      cmd, died := PlayerPhase(keys, damageJustDown, onGround, velocityY, dragonXs, fireXs);
      dragonVelocities := AdvanceWorld(playerX, delta, heightType, coinOffset, attackOverlaps);
    }

    /** The player half of a frame: the positions from the physics engine are
        taken over, then the input step and the debug-damage key. */
    method PlayerPhase(keys: Keys, damageJustDown: bool, onGround: bool, velocityY: int,
                       dragonXs: seq<int>, fireXs: seq<int>) returns (cmd: PlayerCommand, died: bool)
      requires Valid() && |dragonXs| == |dragons|
      modifies this`dragons, this`fires, this`isCrouching, this`isAttacking,
               this`playerHealth, this`isInvincible, this`deaths
      ensures Valid()
      ensures dragons == WithPositions(old(dragons), dragonXs) && fires == fireXs
      ensures var r := ResolveInput(keys, onGround, velocityY, old(isAttacking));
        isCrouching == r.crouching && isAttacking == r.attacking && cmd == r.command
      ensures !damageJustDown ==> !died && playerHealth == old(playerHealth) && isInvincible == old(isInvincible)
      ensures damageJustDown && old(isInvincible) ==> !died && playerHealth == old(playerHealth) && isInvincible
      ensures damageJustDown && !old(isInvincible) ==> (died <==> old(playerHealth) <= 1)
      ensures damageJustDown && !old(isInvincible) && !died ==> playerHealth == old(playerHealth) - 1 && isInvincible
      ensures died ==> playerHealth == 0 && !isInvincible
      ensures deaths == old(deaths) + (if died then 1 else 0)
      ensures unchanged(this`groundGeneratedToX, this`coinSpawnTimer, this`coins, this`nextCoinX,
                        this`difficultyLevel, this`dragonSpawnTimer, this`nextDragonId,
                        this`dragonsDefeated, this`score, this`powerUpSpawnTimer, this`powerUps)
    {
      PositionsKeepFormation(dragons, dragonXs, nextDragonId);
      dragons := WithPositions(dragons, dragonXs);
      fires := fireXs;
      cmd := HandleInput(keys, onGround, velocityY);
      died := false;
      if damageJustDown {
        died := TakeDamage(1);
      }
    }

    /** The world half of a frame, after the input step: ground generation,
        the coin and dragon accumulators, the dragon pass, fire culling and
        the power-up accumulator, in that order. */
    method AdvanceWorld(playerX: int, delta: nat, heightType: int, coinOffset: int, attackOverlaps: set<nat>)
      returns (dragonVelocities: seq<int>)
      requires Valid()
      requires 1 <= heightType <= 4 && -CoinJitter <= coinOffset <= CoinJitter
      modifies this`groundGeneratedToX, ground, this`coinSpawnTimer, this`coins, this`nextCoinX,
               this`difficultyLevel, this`dragonSpawnTimer, this`dragons, this`nextDragonId,
               this`dragonsDefeated, this`score, this`fires, this`powerUpSpawnTimer, this`powerUps
      ensures Valid()
      ensures groundGeneratedToX == NextFrontier(old(groundGeneratedToX), TileOf(playerX))
      ensures coinSpawnTimer == AdvanceTimer(old(coinSpawnTimer), delta, coinSpawnInterval).elapsed
      ensures dragonSpawnTimer == AdvanceTimer(old(dragonSpawnTimer), delta, dragonSpawnInterval).elapsed
      ensures powerUpSpawnTimer == AdvanceTimer(old(powerUpSpawnTimer), delta, powerUpSpawnInterval).elapsed
      ensures old(coinSpawnTimer) + delta >= coinSpawnInterval ==>
        coins == old(coins) + [Coin(old(nextCoinX), CoinY(heightType, old(difficultyLevel)))] &&
        nextCoinX == NextCoinX(old(nextCoinX), coinOffset) &&
        difficultyLevel == LevelAfterCoinSpawn(old(difficultyLevel), coinsCollected)
      ensures old(coinSpawnTimer) + delta < coinSpawnInterval ==>
        coins == old(coins) && nextCoinX == old(nextCoinX) && difficultyLevel == old(difficultyLevel)
      ensures powerUps == old(powerUps) +
        (if old(powerUpSpawnTimer) + delta >= powerUpSpawnInterval then [NewPowerUp(playerX)] else [])
      ensures var spawned := if old(dragonSpawnTimer) + delta >= dragonSpawnInterval
                             then [NewDragon(old(nextDragonId), playerX, difficultyLevel)] else [];
        var r := AdvanceDragons(old(dragons) + spawned, isAttacking, attackOverlaps);
        dragons == r.remaining && dragonVelocities == r.velocities &&
        dragonsDefeated == old(dragonsDefeated) + r.defeated &&
        score == old(score) + DefeatBonus * r.defeated
      ensures nextDragonId == old(nextDragonId) + (if old(dragonSpawnTimer) + delta >= dragonSpawnInterval then 1 else 0)
      ensures !isAttacking ==> dragonsDefeated == old(dragonsDefeated)
      ensures fires == KeptFires(old(fires), playerX)
      ensures unchanged(this`isCrouching, this`isAttacking, this`playerHealth, this`isInvincible,
                        this`deaths, this`coinsCollected)
    {
      ExtendAndSpawn(playerX, delta, heightType, coinOffset);
      dragonVelocities := ResolveDragons(playerX, delta, attackOverlaps);
    }

    /** Ground generation, then the coin and dragon accumulators. */
    method ExtendAndSpawn(playerX: int, delta: nat, heightType: int, coinOffset: int)
      requires Valid()
      requires 1 <= heightType <= 4 && -CoinJitter <= coinOffset <= CoinJitter
      modifies this`groundGeneratedToX, ground, this`coinSpawnTimer, this`coins, this`nextCoinX,
               this`difficultyLevel, this`dragonSpawnTimer, this`dragons, this`nextDragonId
      ensures Valid()
      ensures groundGeneratedToX == NextFrontier(old(groundGeneratedToX), TileOf(playerX))
      ensures coinSpawnTimer == AdvanceTimer(old(coinSpawnTimer), delta, coinSpawnInterval).elapsed
      ensures dragonSpawnTimer == AdvanceTimer(old(dragonSpawnTimer), delta, dragonSpawnInterval).elapsed
      ensures old(coinSpawnTimer) + delta >= coinSpawnInterval ==>
        coins == old(coins) + [Coin(old(nextCoinX), CoinY(heightType, old(difficultyLevel)))] &&
        nextCoinX == NextCoinX(old(nextCoinX), coinOffset) &&
        difficultyLevel == LevelAfterCoinSpawn(old(difficultyLevel), coinsCollected)
      ensures old(coinSpawnTimer) + delta < coinSpawnInterval ==>
        coins == old(coins) && nextCoinX == old(nextCoinX) && difficultyLevel == old(difficultyLevel)
      ensures dragons == old(dragons) +
        (if old(dragonSpawnTimer) + delta >= dragonSpawnInterval
         then [NewDragon(old(nextDragonId), playerX, difficultyLevel)] else [])
      ensures nextDragonId == old(nextDragonId) + (if old(dragonSpawnTimer) + delta >= dragonSpawnInterval then 1 else 0)
      ensures unchanged(this`isCrouching, this`isAttacking, this`playerHealth, this`isInvincible,
                        this`deaths, this`coinsCollected)
    {
      GenerateGround(TileOf(playerX));
      var _ := CoinTimerStep(delta, heightType, coinOffset);
      DragonTimerStep(delta, playerX);
    }

    /** The dragon pass, fire culling, then the power-up accumulator. */
    method ResolveDragons(playerX: int, delta: nat, attackOverlaps: set<nat>) returns (dragonVelocities: seq<int>)
      requires Valid()
      modifies this`dragons, this`dragonsDefeated, this`score, this`fires, this`powerUpSpawnTimer, this`powerUps
      ensures Valid()
      ensures powerUpSpawnTimer == AdvanceTimer(old(powerUpSpawnTimer), delta, powerUpSpawnInterval).elapsed
      ensures powerUps == old(powerUps) +
        (if old(powerUpSpawnTimer) + delta >= powerUpSpawnInterval then [NewPowerUp(playerX)] else [])
      ensures var r := AdvanceDragons(old(dragons), isAttacking, attackOverlaps);
        dragons == r.remaining && dragonVelocities == r.velocities &&
        dragonsDefeated == old(dragonsDefeated) + r.defeated &&
        score == old(score) + DefeatBonus * r.defeated
      ensures !isAttacking ==> dragonsDefeated == old(dragonsDefeated)
      ensures fires == KeptFires(old(fires), playerX)
      ensures unchanged(this`isCrouching, this`isAttacking, this`playerHealth, this`isInvincible,
                        this`deaths, this`coinsCollected)
    {
      dragonVelocities := UpdateDragons(attackOverlaps);
      CullFires(playerX);
      PowerUpTimerStep(delta, playerX);
    }

    /** The dragons with the positions the physics engine reports. */
    static function WithPositions(ds: seq<Dragon>, xs: seq<int>): (r: seq<Dragon>)
      requires |xs| == |ds|
      ensures |r| == |ds|
      ensures forall k :: 0 <= k < |ds| ==> r[k].x == xs[k] && r[k].(x := ds[k].x) == ds[k]
    {
      seq(|ds|, k requires 0 <= k < |ds| => ds[k].(x := xs[k]))
    }

    /** Taking over the reported positions keeps the formation. */
    static lemma PositionsKeepFormation(ds: seq<Dragon>, xs: seq<int>, bound: nat)
      requires |xs| == |ds| && Formation(ds, bound)
      ensures Formation(WithPositions(ds, xs), bound)
    {
    }

    /** The input step: movement, crouch, jump, attack and the animation. */
    method HandleInput(keys: Keys, onGround: bool, velocityY: int) returns (cmd: PlayerCommand)
      requires Valid()
      modifies this`isCrouching, this`isAttacking
      ensures Valid()
      ensures InputOutcome(isCrouching, isAttacking, cmd) == ResolveInput(keys, onGround, velocityY, old(isAttacking))
      ensures unchanged(this`groundGeneratedToX, this`coinSpawnTimer, this`coins, this`nextCoinX,
                        this`difficultyLevel, this`dragonSpawnTimer, this`nextDragonId,
                        this`dragonsDefeated, this`score, this`powerUpSpawnTimer, this`powerUps)
    {
      var moving := keys.left || keys.right;
      var vx := 0;
      var facing := Unchanged;
      if keys.left {
        vx, facing := -Speed, FaceLeft;
      } else if keys.right {
        vx, facing := Speed, FaceRight;
      }

      if keys.down && onGround && !isAttacking {
        isCrouching := true;
        vx := 0;
      } else {
        isCrouching := false;
      }

      var jump := keys.up && onGround && !isAttacking && !isCrouching;

      var anim := KeepPlaying;
      if keys.attackJustDown && onGround && !isAttacking && !isCrouching {
        isAttacking := true;
        vx := 0;
        anim := Play(Attack);
      }

      if !isAttacking {
        anim := Play(ChooseAnimation(isCrouching, onGround, velocityY, moving));
      }
      cmd := PlayerCommand(vx, facing, jump, anim);
    }

    /** Extend the ground ahead of a player on tile playerTileX, placing every
        missing tile of the lookahead window that lies inside the map. */
    method GenerateGround(playerTileX: int)
      requires Valid()
      modifies this`groundGeneratedToX, ground
      ensures Valid()
      ensures groundGeneratedToX == NextFrontier(old(groundGeneratedToX), playerTileX)
      ensures forall k :: 0 <= k < WorldWidth ==>
        (ground[k] <==> old(ground[k]) || old(groundGeneratedToX) <= k < playerTileX + GenerateAhead)
    {
      if playerTileX + GenerateAhead > groundGeneratedToX {
        var tilesToGenerate := (playerTileX + GenerateAhead) - groundGeneratedToX;
        var i := 0;
        while i < tilesToGenerate
          invariant 0 <= i <= tilesToGenerate
          invariant groundGeneratedToX == old(groundGeneratedToX)
          invariant forall k :: 0 <= k < WorldWidth ==> (ground[k] <==> k < groundGeneratedToX + i)
        {
          var x := groundGeneratedToX + i;
          if x < WorldWidth {
            ground[x] := true;
          }
          i := i + 1;
        }
        groundGeneratedToX := Min(playerTileX + GenerateAhead, WorldWidth);
      }
    }

    /** The coin accumulator: on firing, spawn a coin, restart at 0 and run
        the difficulty check against the collected-coin tally. */
    method CoinTimerStep(delta: nat, heightType: int, offset: int) returns (spawned: bool)
      requires Valid()
      requires 1 <= heightType <= 4 && -CoinJitter <= offset <= CoinJitter
      modifies this`coinSpawnTimer, this`coins, this`nextCoinX, this`difficultyLevel
      ensures Valid()
      ensures spawned <==> old(coinSpawnTimer) + delta >= coinSpawnInterval
      ensures coinSpawnTimer == AdvanceTimer(old(coinSpawnTimer), delta, coinSpawnInterval).elapsed
      ensures spawned ==>
        coins == old(coins) + [Coin(old(nextCoinX), CoinY(heightType, old(difficultyLevel)))] &&
        nextCoinX == NextCoinX(old(nextCoinX), offset) &&
        difficultyLevel == LevelAfterCoinSpawn(old(difficultyLevel), coinsCollected)
      ensures !spawned ==>
        coins == old(coins) && nextCoinX == old(nextCoinX) && difficultyLevel == old(difficultyLevel)
    {
      coinSpawnTimer := coinSpawnTimer + delta;
      spawned := coinSpawnTimer >= coinSpawnInterval;
      if spawned {
        SpawnCoin(heightType, offset);
        coinSpawnTimer := 0;
        if coinsCollected > 0 && coinsCollected % CoinsPerLevel == 0 {
          difficultyLevel := difficultyLevel + 1;
        }
      }
    }

    /** Place a coin at the next point of the coin track, at the height of
        the chosen tier, and advance the track. */
    method SpawnCoin(heightType: int, offset: int)
      requires 1 <= heightType <= 4 && -CoinJitter <= offset <= CoinJitter
      modifies this`coins, this`nextCoinX
      ensures coins == old(coins) + [Coin(old(nextCoinX), CoinY(heightType, difficultyLevel))]
      ensures nextCoinX == NextCoinX(old(nextCoinX), offset)
      ensures old(nextCoinX) + 120 <= nextCoinX <= old(nextCoinX) + 180
    {
      var x := nextCoinX;
      var y := CoinY(heightType, difficultyLevel);
      coins := coins + [Coin(x, y)];
      nextCoinX := nextCoinX + CoinStep + offset;
    }

    /** The dragon accumulator: on firing, spawn a dragon and restart at 0. */
    method DragonTimerStep(delta: nat, playerX: int)
      requires Valid()
      modifies this`dragonSpawnTimer, this`dragons, this`nextDragonId
      ensures Valid()
      ensures dragonSpawnTimer == AdvanceTimer(old(dragonSpawnTimer), delta, dragonSpawnInterval).elapsed
      ensures dragons == old(dragons) +
        (if old(dragonSpawnTimer) + delta >= dragonSpawnInterval
         then [NewDragon(old(nextDragonId), playerX, difficultyLevel)] else [])
      ensures nextDragonId == old(nextDragonId) + (if old(dragonSpawnTimer) + delta >= dragonSpawnInterval then 1 else 0)
    {
      dragonSpawnTimer := dragonSpawnTimer + delta;
      if dragonSpawnTimer >= dragonSpawnInterval {
        SpawnDragon(playerX);
        dragonSpawnTimer := 0;
      }
    }

    /** Spawn a dragon 400 units ahead of the player, with stats scaled by the
        difficulty level and a fresh handle. */
    method SpawnDragon(playerX: int)
      requires Formation(dragons, nextDragonId) && difficultyLevel >= 1
      modifies this`dragons, this`nextDragonId
      ensures Formation(dragons, nextDragonId)
      ensures dragons == old(dragons) + [NewDragon(old(nextDragonId), playerX, difficultyLevel)]
      ensures nextDragonId == old(nextDragonId) + 1
    {
      dragons := dragons + [NewDragon(nextDragonId, playerX, difficultyLevel)];
      nextDragonId := nextDragonId + 1;
    }

    /** The dragon pass: each dragon takes its patrol step and, while the
        player is attacking, is struck if it overlaps the player. The
        survivors still patrol. */
    method UpdateDragons(attackOverlaps: set<nat>) returns (velocities: seq<int>)
      requires Formation(dragons, nextDragonId)
      modifies this`dragons, this`dragonsDefeated, this`score
      ensures Formation(dragons, nextDragonId)
      ensures var r := AdvanceDragons(old(dragons), isAttacking, attackOverlaps);
        dragons == r.remaining && velocities == r.velocities &&
        dragonsDefeated == old(dragonsDefeated) + r.defeated &&
        score == old(score) + DefeatBonus * r.defeated
      ensures !isAttacking ==> dragonsDefeated == old(dragonsDefeated) && |dragons| == |old(dragons)|
      ensures unchanged(this`isCrouching, this`isAttacking, this`playerHealth, this`isInvincible,
                        this`deaths, this`coinsCollected)
    {
      velocities := VisitDragons(attackOverlaps);
      AdvanceKeepsFormation(old(dragons), |old(dragons)|, nextDragonId, isAttacking, attackOverlaps);
      if !isAttacking {
        UnstruckNoLosses(old(dragons), |old(dragons)|, isAttacking, attackOverlaps);
      }
    }

    /** The loop of the dragon pass, visiting every dragon once in order. */
    method VisitDragons(attackOverlaps: set<nat>) returns (velocities: seq<int>)
      modifies this`dragons, this`dragonsDefeated, this`score
      ensures var r := AdvanceDragons(old(dragons), isAttacking, attackOverlaps);
        dragons == r.remaining && velocities == r.velocities &&
        dragonsDefeated == old(dragonsDefeated) + r.defeated &&
        score == old(score) + DefeatBonus * r.defeated
    {
      ghost var original := dragons;
      ghost var j := 0;
      var i := 0;
      velocities := [];
      while i < |dragons|
        invariant 0 <= j <= |original|
        invariant var r := AdvancePrefix(original, j, isAttacking, attackOverlaps);
          && dragons == r.remaining + original[j..] && i == |r.remaining|
          && velocities == r.velocities
          && dragonsDefeated == old(dragonsDefeated) + r.defeated
          && score == old(score) + DefeatBonus * r.defeated
        decreases |dragons| - i
      {
        ghost var prev := AdvancePrefix(original, j, isAttacking, attackOverlaps);
        ghost var outcome := AdvanceDragon(original[j], isAttacking, attackOverlaps);
        CursorAt(prev.remaining, original, j, Survivors(outcome));
        var destroyed, vx := VisitDragon(i, attackOverlaps);
        velocities := velocities + [vx];
        if !destroyed {
          i := i + 1;
        }
        j := j + 1;
      }
      assert j == |original|;
    }

    /** One dragon of the pass: its patrol step, then a strike while the
        player is attacking and the dragon overlaps the player. Returns
        whether it was destroyed and its patrol velocity. */
    method VisitDragon(i: nat, attackOverlaps: set<nat>) returns (destroyed: bool, vx: int)
      requires i < |dragons|
      modifies this`dragons, this`dragonsDefeated, this`score
      ensures vx == PatrolVelocity(old(dragons)[i])
      ensures var outcome := AdvanceDragon(old(dragons)[i], isAttacking, attackOverlaps);
        && (destroyed <==> outcome.None?)
        && dragons == old(dragons)[..i] + Survivors(outcome) + old(dragons)[i + 1..]
      ensures dragonsDefeated == old(dragonsDefeated) + (if destroyed then 1 else 0)
      ensures score == old(score) + (if destroyed then DefeatBonus else 0)
    {
      var d := dragons[i];
      vx := PatrolVelocity(d);
      var moved := UpdateDragon(d);
      dragons := dragons[i := moved];
      destroyed := false;
      if isAttacking && moved.id in attackOverlaps {
        destroyed := AttackDragon(i);
      }
      if !destroyed {
        assert dragons == old(dragons)[..i] + [dragons[i]] + old(dragons)[i + 1..];
      }
    }

    /** The dragons after the cursor are the unvisited originals, so
        splicing a visit's survivors in at the cursor extends the front. */
    static lemma CursorAt(front: seq<Dragon>, original: seq<Dragon>, j: nat, survivors: seq<Dragon>)
      requires j < |original|
      ensures (front + original[j..])[|front|] == original[j]
      ensures (front + original[j..])[..|front|] + survivors + (front + original[j..])[|front| + 1..]
              == (front + survivors) + original[j + 1..]
    {
      var s := front + original[j..];
      assert s[..|front|] == front;
      assert s[|front| + 1..] == original[j + 1..];
    }

    /** A sword strike on dragon i (attackDragon). Returns whether it was
        destroyed; a destroyed dragon adds one defeat and 50 points. */
    method AttackDragon(i: nat) returns (destroyed: bool)
      requires i < |dragons|
      modifies this`dragons, this`dragonsDefeated, this`score
      ensures destroyed <==> StrikeDragon(old(dragons)[i]).None?
      ensures destroyed ==>
        dragons == old(dragons)[..i] + old(dragons)[i + 1..] &&
        dragonsDefeated == old(dragonsDefeated) + 1 && score == old(score) + DefeatBonus
      ensures !destroyed ==>
        dragons == old(dragons)[i := StrikeDragon(old(dragons)[i]).value] &&
        dragonsDefeated == old(dragonsDefeated) && score == old(score)
      ensures old(dragons)[i].isBeingHit ==> dragons == old(dragons) && !destroyed
    {
      destroyed := false;
      var d := dragons[i];
      if !d.isBeingHit {
        d := d.(isBeingHit := true);
        d := d.(health := d.health - 1);
        if d.health <= 0 {
          dragons := dragons[..i] + dragons[i + 1..];
          dragonsDefeated := dragonsDefeated + 1;
          score := score + DefeatBonus;
          destroyed := true;
        } else {
          dragons := dragons[i := d];
        }
      }
    }

    /** Remove the fire projectiles more than 200 units behind the player. */
    method CullFires(playerX: int)
      modifies this`fires
      ensures fires == KeptFires(old(fires), playerX)
      ensures unchanged(this`isCrouching, this`isAttacking, this`playerHealth, this`isInvincible,
                        this`deaths, this`coinsCollected)
    {
      ghost var original := fires;
      var kept: seq<int> := [];
      var i := 0;
      while i < |fires|
        invariant 0 <= i <= |fires| && fires == original
        invariant kept == KeptFires(original[..i], playerX)
      {
        assert original[..i + 1][..i] == original[..i];
        if !(fires[i] < playerX - FireCullDistance) {
          kept := kept + [fires[i]];
        }
        i := i + 1;
      }
      assert original[..i] == original;
      fires := kept;
    }

    /** The power-up accumulator: on firing, spawn a health power-up 300
        units ahead of the player and restart at 0. */
    method PowerUpTimerStep(delta: nat, playerX: int)
      requires Valid()
      modifies this`powerUpSpawnTimer, this`powerUps
      ensures Valid()
      ensures powerUpSpawnTimer == AdvanceTimer(old(powerUpSpawnTimer), delta, powerUpSpawnInterval).elapsed
      ensures powerUps == old(powerUps) +
        (if old(powerUpSpawnTimer) + delta >= powerUpSpawnInterval then [NewPowerUp(playerX)] else [])
      ensures unchanged(this`isCrouching, this`isAttacking, this`playerHealth, this`isInvincible,
                        this`deaths, this`coinsCollected)
    {
      powerUpSpawnTimer := powerUpSpawnTimer + delta;
      if powerUpSpawnTimer >= powerUpSpawnInterval {
        SpawnPowerUp(playerX);
        powerUpSpawnTimer := 0;
      }
    }

    /** Spawn a health power-up 300 units ahead of the player. */
    method SpawnPowerUp(playerX: int)
      modifies this`powerUps
      ensures powerUps == old(powerUps) + [NewPowerUp(playerX)]
    {
      powerUps := powerUps + [PowerUp(playerX + PowerUpAhead, PowerUpY, HealthRestore)];
    }

    // -------------------------------------------------------------------------
    // Collision callbacks
    // -------------------------------------------------------------------------

    /** The player touched coin i: it disappears, scoring 10 and one coin. */
    method CollectCoin(i: nat)
      requires i < |coins|
      modifies this`coins, this`score, this`coinsCollected
      ensures coins == old(coins)[..i] + old(coins)[i + 1..]
      ensures score == old(score) + 10 && coinsCollected == old(coinsCollected) + 1
    {
      coins := coins[..i] + coins[i + 1..];
      score := score + 10;
      coinsCollected := coinsCollected + 1;
    }

    /** The player touched power-up i: a health power-up restores one heart
        when below the maximum; the power-up disappears either way. */
    method CollectPowerUp(i: nat)
      requires Valid() && i < |powerUps|
      modifies this`playerHealth, this`powerUps
      ensures Valid()
      ensures powerUps == old(powerUps)[..i] + old(powerUps)[i + 1..]
      ensures playerHealth == Healed(old(playerHealth), maxHealth)
      ensures old(playerHealth) < maxHealth ==> playerHealth == old(playerHealth) + 1
      ensures old(playerHealth) == maxHealth ==> playerHealth == maxHealth
    {
      match powerUps[i].kind
      case HealthRestore =>
        if playerHealth < maxHealth {
          playerHealth := playerHealth + 1;
        }
      powerUps := powerUps[..i] + powerUps[i + 1..];
    }

    /** The player touched a dragon. */
    method HitByDragon() returns (died: bool)
      requires Valid()
      modifies this`playerHealth, this`isInvincible, this`deaths
      ensures Valid()
      ensures old(isInvincible) ==> !died && playerHealth == old(playerHealth) && isInvincible
      ensures !old(isInvincible) ==> (died <==> old(playerHealth) <= 1)
      ensures !old(isInvincible) && !died ==> playerHealth == old(playerHealth) - 1 && isInvincible
      ensures died ==> playerHealth == 0 && !isInvincible
      ensures deaths == old(deaths) + (if died then 1 else 0)
    {
      died := TakeDamage(1);
    }

    /** The player touched fire projectile i: it disappears and hurts. */
    method HitByFire(i: nat) returns (died: bool)
      requires Valid() && i < |fires|
      modifies this`fires, this`playerHealth, this`isInvincible, this`deaths
      ensures Valid()
      ensures fires == old(fires)[..i] + old(fires)[i + 1..]
      ensures old(isInvincible) ==> !died && playerHealth == old(playerHealth) && isInvincible
      ensures !old(isInvincible) ==> (died <==> old(playerHealth) <= 1)
      ensures !old(isInvincible) && !died ==> playerHealth == old(playerHealth) - 1 && isInvincible
      ensures died ==> playerHealth == 0 && !isInvincible
      ensures deaths == old(deaths) + (if died then 1 else 0)
    {
      fires := fires[..i] + fires[i + 1..];
      died := TakeDamage(1);
    }

    /** Damage: ignored while invincible; otherwise health drops by amount,
        and either the player dies or an invincibility window starts. */
    method TakeDamage(amount: nat) returns (died: bool)
      requires Valid()
      modifies this`playerHealth, this`isInvincible, this`deaths
      ensures Valid()
      ensures old(isInvincible) ==>
        !died && playerHealth == old(playerHealth) && isInvincible && deaths == old(deaths)
      ensures !old(isInvincible) ==> (died <==> old(playerHealth) - amount <= 0)
      ensures !old(isInvincible) && died ==>
        playerHealth == 0 && !isInvincible && deaths == old(deaths) + 1
      ensures !old(isInvincible) && !died ==>
        playerHealth == old(playerHealth) - amount && isInvincible && deaths == old(deaths)
      ensures unchanged(this`groundGeneratedToX, this`coinSpawnTimer, this`coins, this`nextCoinX,
                        this`difficultyLevel, this`dragonSpawnTimer, this`nextDragonId,
                        this`dragonsDefeated, this`score, this`powerUpSpawnTimer, this`powerUps)
    {
      if isInvincible {
        return false;
      }
      playerHealth := playerHealth - amount;
      if playerHealth <= 0 {
        PlayerDeath();
        return true;
      }
      isInvincible := true;
      died := false;
    }

    /** The death transition: health is set to exactly 0. */
    method PlayerDeath()
      modifies this`playerHealth, this`deaths
      ensures playerHealth == 0 && deaths == old(deaths) + 1
    {
      playerHealth := 0;
      deaths := deaths + 1;
    }

    /** Three hits at full health, each after the invincibility window of the
        previous one has closed: the first two leave 2 and 1, the third kills,
        and the death transition runs exactly once. */
    method ThreeHitsFromFullHealth() returns (died: bool)
      requires Valid() && playerHealth == maxHealth && !isInvincible
      modifies this`playerHealth, this`isInvincible, this`deaths
      ensures Valid()
      ensures died && playerHealth == 0 && deaths == old(deaths) + 1
    {
      var first := TakeDamage(1);
      assert !first && playerHealth == 2;
      InvincibilityEnded();
      var second := TakeDamage(1);
      assert !second && playerHealth == 1;
      InvincibilityEnded();
      died := TakeDamage(1);
    }

    // -------------------------------------------------------------------------
    // Deferred events
    // -------------------------------------------------------------------------

    /** A clip finished playing; only the attack clip ends the attack. */
    method AnimationComplete(clip: Anim)
      requires Valid()
      modifies this`isAttacking
      ensures Valid()
      ensures isAttacking == (old(isAttacking) && clip != Attack)
    {
      if clip == Attack {
        isAttacking := false;
      }
    }

    /** The damage flashing finished: the invincibility window closes. */
    method InvincibilityEnded()
      requires Valid()
      modifies this`isInvincible
      ensures Valid() && !isInvincible
    {
      isInvincible := false;
    }

    /** 100 ms after a strike: the dragon with this handle may be struck
        again. A dragon destroyed in the meantime is no longer in the group,
        and then nothing changes. */
    method HitCooldownEnded(id: nat)
      requires Valid()
      modifies this`dragons
      ensures Valid()
      ensures |dragons| == |old(dragons)|
      ensures forall k :: 0 <= k < |dragons| ==>
        dragons[k] == if old(dragons)[k].id == id then old(dragons)[k].(isBeingHit := false) else old(dragons)[k]
    {
      var ds := dragons;
      dragons := seq(|ds|, k requires 0 <= k < |ds| =>
        if ds[k].id == id then ds[k].(isBeingHit := false) else ds[k]);
    }
  }
}
