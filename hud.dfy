/** The heart row of the on-screen display: heart i is drawn full exactly
    when i is below the current health. */
module Hud {
  function Clamp(x: int, lo: int, hi: int): int
  {
    if x < lo then lo else if x > hi then hi else x
  }

  /** The heart row for a health value: true for a full heart. */
  function HeartRow(health: int, maxHealth: nat): seq<bool>
  {
    seq(maxHealth, i requires 0 <= i < maxHealth => i < health)
  }

  function CountFull(hearts: seq<bool>): nat
    decreases |hearts|
  {
    if hearts == [] then 0
    else CountFull(hearts[..|hearts| - 1]) + (if hearts[|hearts| - 1] then 1 else 0)
  }

  /** Fill the heart row, one heart per unit of maximum health. */
  method DrawHearts(health: int, maxHealth: nat) returns (hearts: seq<bool>)
    ensures |hearts| == maxHealth
    ensures forall i :: 0 <= i < maxHealth ==> (hearts[i] <==> i < health)
    ensures hearts == HeartRow(health, maxHealth)
  {
    hearts := [];
    var i := 0;
    while i < maxHealth
      invariant 0 <= i <= maxHealth
      invariant |hearts| == i
      invariant forall k :: 0 <= k < i ==> (hearts[k] <==> k < health)
    {
      hearts := hearts + [i < health];
      i := i + 1;
    }
  }

  /** The number of full hearts is the health clamped to [0, maxHealth]: a
      negative health shows no full heart, and none beyond the maximum show. */
  lemma {:induction false} FullHeartsShowClampedHealth(health: int, maxHealth: nat)
    ensures CountFull(HeartRow(health, maxHealth)) == Clamp(health, 0, maxHealth)
    decreases maxHealth
  {
    if maxHealth > 0 {
      var row := HeartRow(health, maxHealth);
      FullHeartsShowClampedHealth(health, maxHealth - 1);
      assert row[..maxHealth - 1] == HeartRow(health, maxHealth - 1);
    }
  }
}
