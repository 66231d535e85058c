/** The player controller: how one frame's key states turn into movement,
    posture (crouching), the attack flag and the animation to play. */
module Player {
  /** Horizontal run speed and the vertical velocity of a jump. */
  const Speed: int := 100
  const JumpVelocity: int := -250

  /** Key states read in one frame. `attackJustDown` is true only on the frame
      the attack key goes down; the other keys are level-triggered. */
  datatype Keys = Keys(left: bool, right: bool, up: bool, down: bool, attackJustDown: bool)

  datatype Facing = Unchanged | FaceLeft | FaceRight

  datatype Anim = Idle | Run | Jump | Fall | Attack | Crouch

  /** Either leave the current clip playing or start the named one. */
  datatype AnimCommand = KeepPlaying | Play(clip: Anim)

  /** What the frame asks of the engine: the horizontal velocity, the facing,
      whether to set the vertical velocity to JumpVelocity, and the clip. */
  datatype PlayerCommand = PlayerCommand(velocityX: int, facing: Facing, jump: bool, anim: AnimCommand)

  /** The posture flags after the input step, and the command to the engine. */
  datatype InputOutcome = InputOutcome(crouching: bool, attacking: bool, command: PlayerCommand)

  /** The clip for a player who is not attacking, by priority: crouch, then
      airborne (jump while rising, fall otherwise), then run while a
      horizontal key is held, else idle. */
  function ChooseAnimation(crouching: bool, onGround: bool, velocityY: int, moving: bool): (a: Anim)
    ensures a != Attack
    ensures crouching ==> a == Crouch
    ensures !crouching && !onGround ==> (a == Jump <==> velocityY < 0) && (a == Fall <==> velocityY >= 0)
    ensures !crouching && onGround ==> (a == Run <==> moving) && (a == Idle <==> !moving)
  {
    if crouching then Crouch
    else if !onGround then (if velocityY < 0 then Jump else Fall)
    else if moving then Run
    else Idle
  }

  /** The input step of one frame. onGround and velocityY are the values the
      physics engine reports at the start of the frame; wasAttacking is the
      attack flag before it. */
  function ResolveInput(keys: Keys, onGround: bool, velocityY: int, wasAttacking: bool): (r: InputOutcome)
    // posture: attacking and crouching exclude each other
    ensures !(r.attacking && r.crouching)
    ensures r.crouching <==> keys.down && onGround && !wasAttacking
    // an attack starts only on a key-press edge, grounded, not attacking, not crouching
    ensures r.attacking <==> wasAttacking || (keys.attackJustDown && onGround && !r.crouching)
    // an attack in progress cannot be interrupted by crouch or jump input
    ensures wasAttacking ==> r.attacking && !r.crouching && !r.command.jump && r.command.anim == KeepPlaying
    // a jump needs the ground and no attack or crouch
    ensures r.command.jump <==> keys.up && onGround && !wasAttacking && !r.crouching
    // movement: crouching and starting an attack both stop the player
    ensures r.crouching || (r.attacking && !wasAttacking) ==> r.command.velocityX == 0
    ensures !r.crouching && !(r.attacking && !wasAttacking) ==>
      r.command.velocityX == (if keys.left then -Speed else if keys.right then Speed else 0)
    ensures r.command.facing == (if keys.left then FaceLeft else if keys.right then FaceRight else Unchanged)
    // animation: attack first, otherwise the priority of ChooseAnimation
    ensures r.attacking && !wasAttacking ==> r.command.anim == Play(Attack)
    ensures !r.attacking ==> r.command.anim == Play(ChooseAnimation(r.crouching, onGround, velocityY, keys.left || keys.right))
  {
    var crouching := keys.down && onGround && !wasAttacking;
    var starts := keys.attackJustDown && onGround && !wasAttacking && !crouching;
    var attacking := wasAttacking || starts;
    var vx := if crouching || starts then 0 else if keys.left then -Speed else if keys.right then Speed else 0;
    var facing := if keys.left then FaceLeft else if keys.right then FaceRight else Unchanged;
    var jump := keys.up && onGround && !wasAttacking && !crouching;
    var anim := if starts then Play(Attack)
                else if attacking then KeepPlaying
                else Play(ChooseAnimation(crouching, onGround, velocityY, keys.left || keys.right));
    InputOutcome(crouching, attacking, PlayerCommand(vx, facing, jump, anim))
  }

  /** Jump input is level-triggered: holding the key on consecutive grounded
      frames asks for a jump on each of them, whereas holding the attack key
      starts at most one attack. */
  lemma JumpIsLevelTriggered(keys: Keys, velocityY: int)
    requires keys.up && !keys.down
    ensures ResolveInput(keys, true, velocityY, false).command.jump
    ensures ResolveInput(keys.(attackJustDown := false), true, velocityY, false).command.jump
  {
  }
}
