/** The transient entities of a run and the spawner's fixed placement rules.
    An entity records the position and horizontal velocity it was spawned
    with; moving it afterwards is the physics engine's job. */
module Entities {

  /** Every entity appears at the right edge of the 800-pixel-wide world. */
  const SpawnX: int := 800
  /** Obstacles stand on the ground line. */
  const ObstacleY: int := 330
  const ObstacleVelocityX: int := -300
  /** Coins appear at a height drawn from this inclusive band. */
  const CoinYMin: int := 200
  const CoinYMax: int := 280
  const CoinVelocityX: int := -200

  /** A height the random draw for a coin can produce. */
  type CoinY = y: int | CoinYMin <= y <= CoinYMax witness CoinYMin

  datatype Obstacle = Obstacle(x: int, y: int, velocityX: int)

  datatype Coin = Coin(x: int, y: int, velocityX: int)

  /** The one obstacle the spawner ever creates. */
  predicate IsSpawnedObstacle(o: Obstacle) {
    o.x == SpawnX && o.y == ObstacleY && o.velocityX == ObstacleVelocityX
  }

  /** A coin the spawner could have created: right edge, height in the band,
      moving left at the coin speed. */
  predicate IsSpawnedCoin(c: Coin) {
    c.x == SpawnX && CoinYMin <= c.y <= CoinYMax && c.velocityX == CoinVelocityX
  }

  function NewObstacle(): (o: Obstacle)
    ensures IsSpawnedObstacle(o)
    ensures o.velocityX < 0
  {
    Obstacle(SpawnX, ObstacleY, ObstacleVelocityX)
  }

  /** A coin at the drawn height `y`. */
  function NewCoin(y: CoinY): (c: Coin)
    ensures IsSpawnedCoin(c) && c.y == y
    ensures c.velocityX < 0
  {
    Coin(SpawnX, y, CoinVelocityX)
  }

  /** The coins the spawner can create are exactly the coins `IsSpawnedCoin`
      describes: one for each height in the band. */
  lemma SpawnedCoinsAreExactlyNewCoins(c: Coin)
    ensures IsSpawnedCoin(c) <==> exists y: CoinY :: c == NewCoin(y)
  {
    if IsSpawnedCoin(c) {
      var y: CoinY := c.y;
      assert c == NewCoin(y);
    }
  }
}
