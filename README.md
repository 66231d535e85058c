# Oak Woods gameplay scene — a Dafny model

This project models the gameplay core of the browser platformer in
`game-standalone.js`: the `GameScene` object and its per-frame `update`.
The scene holds the player's health and posture, the score and the tallies,
the difficulty level, the ground frontier, three spawn accumulators (coins,
dragons, power-ups) and the live entity groups. Each frame it does the
following, in order:

1. It turns key states into a movement command, the crouch and attack flags
   and an animation clip.
2. It extends the ground strip ahead of the player.
3. It runs the coin and dragon accumulators. A coin spawn also runs the
   difficulty check.
4. It moves every dragon along its patrol, and strikes the ones the player
   overlaps while attacking.
5. It culls the fire projectiles behind the player.
6. It runs the power-up accumulator.

Collisions (coin, power-up, dragon, fire) and deferred events (the attack
clip ending, the damage flashing ending, the 100 ms strike cooldown) are
separate callbacks that change the same state.

Modules:

- `World`: the ground frontier rule and its tile arithmetic.
- `Spawning`: the spawn accumulators, coin placement, the difficulty check
  and the health power-up, as pure functions with lemmas.
- `Dragons`: the dragon record, spawn stats, the patrol turn rule, the sword
  strike, the dragon pass of one frame as a function, and fire culling.
- `Player`: the input step and the animation priority, as pure functions.
- `Hud`: the heart row of the on-screen display. It is filled by a loop,
  just as `updateUI` fills it.
- `Scene`: the class `GameScene`. Its fields are the scene's fields. The
  ground layer is an `array<bool>` of 500 tiles. The four entity groups are
  `seq` fields that the methods reassign. The frame and each callback are
  methods with `modifies` clauses. Each method is proved against the
  functions of the other modules and keeps the invariant `Valid()`:
  - health stays in [0, 3];
  - the level stays at 1 or more;
  - each accumulator stays below its interval;
  - the frontier stays in [0, 500], and tile k is placed exactly when k is
    below the frontier;
  - the player never attacks and crouches at once;
  - every live dragon patrols, and the group is in spawn order, with
    handles strictly increasing and below the next one to be given out.

The physics engine, the random generator and the keyboard are outside the
model. Their values enter as parameters of `Tick`:

- the key states and the player's grounded flag, vertical velocity and x;
- the frame's delta in milliseconds;
- the random coin height tier (1..4) and coin jitter (-30..30);
- the positions of the dragons and fire projectiles;
- the handles of the dragons the player overlaps.

Movement is returned as a command (horizontal velocity, facing, whether to
jump, which clip to play). A dragon pass also returns the patrol velocity
of each dragon it visits.

Four behaviours of the code are modelled as they are written:

- The difficulty check runs on every coin spawn. Within the same frame it
  raises the level exactly when the collected-coin tally is a positive
  multiple of 5. So while the tally stays at such a value, each further
  spawn raises the level again (`SpawnsAtMultipleOfFiveKeepRaising`). A
  spawn raises the level exactly when the tally is a positive multiple of 5
  at that moment (`LevelAfterCoinSpawn`). So a multiple of 5 that the tally
  reaches and then leaves between two spawns raises nothing.
- Damage taken after death (health 0, not invincible) runs the death
  transition again, because nothing blocks it (`TakeDamage`, counted by the
  ghost field `deaths`).
- `invincibilityDuration` is set to 2000 and never read. The invincibility
  window closes only when the flashing sequence completes
  (`InvincibilityEnded`).
- The spawn accumulators reset to exactly 0 and drop any time that ran past
  the interval. A policy therefore fires at most once per interval of
  elapsed time (`FiredCountBound`).

## Model

| member | source | states |
|---|---|---|
| World.TileOf | game-standalone.js:413 | the player's tile column is x divided by 24, rounded down: 24·t ≤ x < 24·(t+1) |
| World.NextFrontier | game-standalone.js:416-425 | no change once playerTile + 20 ≤ frontier; otherwise the frontier moves to min(playerTile + 20, 500); it never shrinks and never passes 500 |
| World.FrontierCoversLookahead | game-standalone.js:413-425 | after a generation step the frontier reaches min(playerTile + 20, 500), so ground exists past a player who is more than 20 tiles from the end |
| World.FrontierIdempotent | game-standalone.js:416-425 | a second generation step at the same player tile changes nothing |
| World.FrontierMonotoneInPlayer | game-standalone.js:416-425 | a player further right never gets a smaller frontier |
| Spawning.AdvanceTimer | game-standalone.js:428-432 | an accumulator fires exactly when elapsed + delta reaches the interval; on firing it restarts at 0, otherwise it keeps the sum; it stays below a positive interval |
| Spawning.FiredCountBound | game-standalone.js:428-432 | because residue is discarded, over any sequence of deltas the firings times the interval never exceed the starting value plus the total elapsed time |
| Spawning.LongFrameFiresOnce | game-standalone.js:428-432 | a single 2500 ms frame fires the coin policy once, not twice |
| Spawning.CoinY | game-standalone.js:483-499 | coin height per tier: 155, 165, 135, or 100 − 5·level for the high tier; at level ≥ 1 the high tier is exactly the one at or above y = 95 |
| Spawning.NextCoinX | game-standalone.js:518 | the next coin lies 120 to 180 units past the previous one |
| Spawning.CoinTrack | game-standalone.js:477-518 | successive coins start at the track's origin and are spaced 120 to 180 apart, independently of the player |
| Spawning.CoinTrackWithoutJitter | game-standalone.js:518 | with zero jitter, coins from the initial next-coin position 400 land at 400 and 550 |
| Spawning.HighCoinAtLevelFour | game-standalone.js:497 | the high tier at level 4 is at y = 80 |
| Spawning.LevelAfterCoinSpawn | game-standalone.js:435-437 | one coin spawn raises the level by at most 1, and by 1 exactly when the tally is a positive multiple of 5 |
| Spawning.SpawnsAtMultipleOfFiveKeepRaising | game-standalone.js:430-437 | while the tally sits at a positive multiple of 5, n coin spawns raise the level by n |
| Spawning.SpawnsOffMultipleOfFiveKeepLevel | game-standalone.js:430-437 | while the tally is not a positive multiple of 5, no number of coin spawns changes the level |
| Spawning.NewPowerUp | game-standalone.js:632-640 | a power-up spawns 300 units ahead of the player at y = 140 and restores health |
| Spawning.Healed | game-standalone.js:654-658 | a health pick-up adds one below the maximum and nothing at or above it, never passing the maximum |
| Spawning.PowerUpScenarios | game-standalone.js:654-658 | at 3 of 3 a pick-up leaves 3; at 2 of 3 it restores 3 |
| Dragons.NewDragon | game-standalone.js:548-567 | a dragon spawns 400 ahead of the player, with health 2 + ⌊level/3⌋ and speed 30 + 5·level, heading left and patrolling 200 around its start; at level ≥ 1 it is a live patrolling dragon |
| Dragons.DragonAtLevelSix | game-standalone.js:563-564 | a level-6 dragon has health 4 and speed 60 |
| Dragons.PatrolVelocity | game-standalone.js:572 | the patrol velocity is +speed for a dragon heading right and −speed for one heading left, taken from the direction before the turn |
| Dragons.UpdateDragon | game-standalone.js:570-582 | a patrol step changes only the direction; it turns right exactly when heading left at or beyond the left limit, and left exactly when heading right at or beyond the right limit; patrolling is preserved |
| Dragons.StrikeDragon | game-standalone.js:607-626 | a dragon in its hit cooldown is unaffected; otherwise it loses one health and enters the cooldown, and it is destroyed exactly when its health was 1 or less |
| Dragons.AdvanceDragon | game-standalone.js:450-456 | one dragon of the pass: it is destroyed exactly when struck (attack, overlap, no cooldown) at health 1 or less; a dragon not struck is its patrol step; a struck survivor is its patrol step with one health less and in cooldown |
| Dragons.AdvancePrefix | game-standalone.js:448-458 | the dragon pass over the first n dragons accounts for each of them once, as a survivor or a defeat, and the k-th velocity is the patrol velocity of dragon k |
| Dragons.AdvanceDragons | game-standalone.js:448-458 | the whole dragon pass of one frame: survivors plus defeats equal the dragons visited, and dragon k gets its patrol velocity |
| Dragons.AdvanceKeepsFormation | game-standalone.js:448-458 | every survivor of the dragon pass is still a live patrolling dragon with a handle already given out, and the survivors keep their order, so handles stay distinct |
| Dragons.UnstruckNoLosses | game-standalone.js:449-456 | when the sword reaches no dragon (no attack, no overlap, or all overlapping dragons in cooldown), none is destroyed, and each survivor is its dragon after one patrol step, in order |
| Dragons.KeptFires | game-standalone.js:460-465 | a projectile survives culling exactly when it is no more than 200 units behind the player; each such value keeps its multiplicity and every other value disappears |
| Dragons.KeptFiresKeepsOrder | game-standalone.js:460-465 | culling keeps the original order: culling two groups in sequence gives the culled first group followed by the culled second |
| Player.ChooseAnimation | game-standalone.js:386-404 | clip priority when not attacking: crouch, then jump while rising or fall otherwise in the air, then run while a horizontal key is held, else idle |
| Player.ResolveInput | game-standalone.js:342-379 | crouch exactly when down is held on the ground and not attacking; an attack starts only on the key-down edge, grounded, not crouching; an attack is not interrupted; a jump needs the ground and no attack or crouch; crouching and starting an attack stop the player; facing follows the held key |
| Player.JumpIsLevelTriggered | game-standalone.js:370-375 | the up key asks for a jump on every grounded frame it is held, with or without an attack edge |
| Hud.DrawHearts | game-standalone.js:772-778 | the heart row has one heart per unit of maximum health, and heart i is full exactly when i is below the health |
| Hud.FullHeartsShowClampedHealth | game-standalone.js:772-778 | the number of full hearts is the health clamped to [0, maximum] |
| Scene.GameScene.constructor | game-standalone.js:86-116 | the initial field values: health 3, not invincible, score and tallies 0, timers 0, level 1, next coin at 400, frontier 0, no entities |
| Scene.GameScene.Create | game-standalone.js:151-157 | a fresh ground layer with exactly tiles 0..19 placed, frontier 20, empty entity groups |
| Scene.GameScene.Tick | game-standalone.js:334-474 | one frame: the input step as ResolveInput; frontier as NextFrontier; timers as AdvanceTimer; coin, level and power-up changes exactly on firing; the tally of collected coins unchanged; the dragons are the engine-positioned dragons plus the one spawned on firing, after AdvanceDragons, with its velocities, defeats and 50 points per defeat; without an attack nothing is defeated; fires culled as KeptFires; health changes only through the debug-damage key: ignored while invincible, otherwise one point lost and invincibility started, or death at health 1 or less; the scene invariant kept |
| Scene.GameScene.PlayerPhase | game-standalone.js:338-384 | positions taken from the engine, the input step as ResolveInput, then the debug-damage key: no change without it or while invincible; otherwise death exactly at health 1 or less, else one point lost and invincibility started; nothing of the world changes |
| Scene.GameScene.AdvanceWorld | game-standalone.js:412-473 | ground, the three accumulators, the dragon pass and fire culling together, in source order: the dragon pass runs over the dragons plus the one just spawned and returns their patrol velocities; the player's state is untouched |
| Scene.GameScene.ExtendAndSpawn | game-standalone.js:412-446 | ground generation followed by the coin and dragon accumulators |
| Scene.GameScene.ResolveDragons | game-standalone.js:448-473 | the dragon pass, fire culling and the power-up accumulator |
| Scene.GameScene.HandleInput | game-standalone.js:342-404 | the imperative input step yields exactly ResolveInput of the keys and the attack flag before the frame |
| Scene.GameScene.GenerateGround | game-standalone.js:412-425 | the tile loop places exactly the missing tiles of the lookahead window inside the map, and the frontier becomes NextFrontier |
| Scene.GameScene.CoinTimerStep | game-standalone.js:427-438 | on firing: one coin at the next track point, the track advances, the timer restarts and the difficulty check runs; otherwise only the timer moves |
| Scene.GameScene.SpawnCoin | game-standalone.js:477-519 | one coin appended at (nextCoinX, CoinY), and nextCoinX advances by 120..180 |
| Scene.GameScene.DragonTimerStep | game-standalone.js:440-446 | on firing, exactly one new dragon is appended and the timer restarts |
| Scene.GameScene.SpawnDragon | game-standalone.js:543-568 | appends NewDragon with a fresh handle above every live one, keeping every dragon patrolling and the handles in increasing order |
| Scene.GameScene.UpdateDragons | game-standalone.js:448-458 | the dragon pass as AdvanceDragons: survivors, velocities, defeats and 50 points per defeat; survivors still patrol; without an attack nothing is lost |
| Scene.GameScene.VisitDragons | game-standalone.js:449-458 | the loop over the group visits each dragon once, in order, and ends in the state AdvanceDragons describes |
| Scene.GameScene.VisitDragon | game-standalone.js:450-456 | one dragon: its patrol velocity, then a strike while attacking and overlapping; the dragon is replaced by its survivor or removed |
| Scene.GameScene.AttackDragon | game-standalone.js:607-627 | the strike as StrikeDragon; a destroyed dragon leaves the group and adds one defeat and 50 points; a dragon in cooldown is untouched |
| Scene.GameScene.CullFires | game-standalone.js:460-465 | the projectiles left are exactly KeptFires of the projectiles before, whose order KeptFiresKeepsOrder states |
| Scene.GameScene.PowerUpTimerStep | game-standalone.js:467-473 | on firing, exactly one power-up 300 ahead is appended and the timer restarts |
| Scene.GameScene.SpawnPowerUp | game-standalone.js:630-651 | appends the power-up NewPowerUp describes |
| Scene.GameScene.CollectCoin | game-standalone.js:521-526 | the coin leaves the group, the score rises by 10, the tally by 1 |
| Scene.GameScene.CollectPowerUp | game-standalone.js:653-676 | health becomes Healed: +1 below 3, unchanged at 3; the power-up leaves the group either way |
| Scene.GameScene.HitByDragon | game-standalone.js:598-600 | one point of damage: ignored while invincible (which stays on); otherwise the player dies exactly at health 1 or less, with health 0, and otherwise loses one point and becomes invincible |
| Scene.GameScene.HitByFire | game-standalone.js:602-605 | the projectile leaves the group, then one point of damage as for a dragon, including the surviving hit: one point lost and invincibility started |
| Scene.GameScene.TakeDamage | game-standalone.js:679-705 | ignored while invincible; otherwise health drops by the amount; at or below 0 the player dies (health set to 0, not invincible, one more death, even when already dead); above 0 invincibility starts |
| Scene.GameScene.ThreeHitsFromFullHealth | game-standalone.js:679-705 | three hits from full health, with the invincibility window closing between them: health goes 3, 2, 1, 0, the third hit kills, and the death transition runs exactly once |
| Scene.GameScene.PlayerDeath | game-standalone.js:707-709 | health is set to exactly 0 and the death transition is counted |
| Scene.GameScene.AnimationComplete | game-standalone.js:275-279 | only the attack clip ending clears the attack flag |
| Scene.GameScene.InvincibilityEnded | game-standalone.js:700-703 | the flashing sequence ending closes the invincibility window |
| Scene.GameScene.HitCooldownEnded | game-standalone.js:614-617 | 100 ms after a strike, the dragon with that handle leaves its cooldown, and nothing else changes |

## Left out

- The boot scene, asset loading, sounds, parallax scrolling, tints, tweens
  (bobbing coins, sparkles, heal text, damage flashing) and the score and
  tally text of `updateUI`: presentation only. The flashing sequence is
  represented by its completion event `InvincibilityEnded`.
- `showGameOver` and the restart: the game-over screen is presentation. The
  restart runs `create` again, which is modelled by `Create`, but not the
  constructor, so it leaves health, score, tallies, timers and level as they
  were. The model does not follow the scene across a restart. The death
  impulse and the 1 s delay are represented by the `died` result and the
  `deaths` counter.
- The physics engine: gravity, collisions with the ground, velocities and
  positions. Positions enter as integer parameters (the engine uses
  floating point) and velocities leave as commands. The crouch hitbox
  resize (small exactly while crouching) is not modelled.
- `Phaser.Math.Between`: the coin height tier and the coin jitter are
  parameters within the ranges the code draws from.
- `dragonShootFire` is never called anywhere in the code, so no projectile
  is ever created. The fire group is modelled as the engine supplies it,
  together with its culling and `hitByFire`. The 3 s self-destruct timer of
  a projectile is not modelled.
- Scene.GameScene.VisitDragons: visits every dragon once. The engine iterates
  over the live children array while a destroyed dragon is spliced out of
  it, and that can skip the dragon after a destroyed one. That engine
  behaviour is not modelled.
- Scene.GameScene.CullFires: keeps exactly the projectiles within 200 units. The
  engine iterates over the live children array while a destroyed projectile
  is spliced out of it, and that can skip the projectile after a destroyed
  one, leaving it for the next frame. That engine behaviour is not
  modelled. It has no effect in this game, because no projectile is ever
  created.
- The configuration and start-up code of the game, and the keyboard: key
  states are parameters.
