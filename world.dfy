/** The ground strip of the gameplay scene: a single row of tiles that is
    extended ahead of the player, never beyond the width of the tile map. */
module World {
  /** Width of the ground tile map, in tiles. */
  const WorldWidth: int := 500
  /** Width of one tile, in world units. */
  const TileSize: int := 24
  /** How far ahead of the player's tile the ground is generated. */
  const GenerateAhead: int := 20
  /** Tiles laid down when the scene is created. */
  const InitialGround: int := 20

  function Min(a: int, b: int): int { if a <= b then a else b }
  function Max(a: int, b: int): int { if a >= b then a else b }

  /** The tile column under world position x, rounding down as Math.floor does. */
  function TileOf(x: int): (t: int)
    ensures TileSize * t <= x < TileSize * (t + 1)
  {
    x / TileSize
  }

  /** The new ground frontier after one generation step for a player standing
      on tile playerTileX: the strip is pushed to playerTileX + 20, capped at
      the width of the map, and never pulled back. */
  function NextFrontier(frontier: int, playerTileX: int): (r: int)
    ensures playerTileX + GenerateAhead <= frontier ==> r == frontier
    ensures frontier <= WorldWidth ==> frontier <= r <= WorldWidth
    ensures frontier <= WorldWidth ==> r == Max(frontier, Min(playerTileX + GenerateAhead, WorldWidth))
  {
    if playerTileX + GenerateAhead > frontier then Min(playerTileX + GenerateAhead, WorldWidth)
    else frontier
  }

  /** The frontier always reaches the lookahead window, up to the cap, so ground
      exists under and in front of a player on tile playerTileX. */
  lemma FrontierCoversLookahead(frontier: int, playerTileX: int)
    requires 0 <= frontier <= WorldWidth
    ensures NextFrontier(frontier, playerTileX) >= Min(playerTileX + GenerateAhead, WorldWidth)
    ensures playerTileX < WorldWidth - GenerateAhead ==> NextFrontier(frontier, playerTileX) > playerTileX
  {
  }

  /** A second generation step at the same player tile changes nothing. */
  lemma FrontierIdempotent(frontier: int, playerTileX: int)
    requires frontier <= WorldWidth
    ensures NextFrontier(NextFrontier(frontier, playerTileX), playerTileX) == NextFrontier(frontier, playerTileX)
  {
  }

  /** A player further right never gets a smaller frontier. */
  lemma FrontierMonotoneInPlayer(frontier: int, p: int, q: int)
    requires frontier <= WorldWidth && p <= q
    ensures NextFrontier(frontier, p) <= NextFrontier(frontier, q)
  {
  }
}
