/** The run's bookkeeping held by the game scene: score, lives, the live
    obstacles and coins, and the two game-over flags. It changes only through
    the collision handlers, the spawn timers and a restart. */
module SessionState {
  import opened Entities
  import Pools

  const InitialLives: int := 3
  /** Points a collected coin is worth. */
  const CoinValue: int := 10

  /** `physicsPaused` records that the physics simulation was frozen;
      `restartOffered` that the restart button is on screen. */
  datatype Session = Session(
    score: int,
    lives: int,
    obstacles: seq<Obstacle>,
    coins: seq<Coin>,
    physicsPaused: bool,
    restartOffered: bool)

  /** The run is over once the lives are used up. */
  predicate IsOver(s: Session) {
    s.lives <= 0
  }

  /** The game-over flags are set exactly when the run is over. */
  predicate Consistent(s: Session) {
    s.physicsPaused == IsOver(s) && s.restartOffered == IsOver(s)
  }

  /** Every pooled entity is one the spawner creates. */
  predicate WellFormedPools(s: Session) {
    && (forall o :: o in s.obstacles ==> IsSpawnedObstacle(o))
    && (forall c :: c in s.coins ==> IsSpawnedCoin(c))
  }

  /** The state a freshly created game scene starts from. */
  function Init(): (s: Session)
    ensures s.score == 0 && s.lives == InitialLives
    ensures s.obstacles == [] && s.coins == []
    ensures !IsOver(s) && Consistent(s) && WellFormedPools(s)
  {
    Session(0, InitialLives, [], [], false, false)
  }

  /** The player overlapped coin `i`: that coin is destroyed and the score
      rises by one coin's worth; nothing else changes. */
  function CollectCoin(s: Session, i: nat): (r: Session)
    requires i < |s.coins|
    ensures r.score == s.score + CoinValue
    ensures |r.coins| == |s.coins| - 1
    ensures multiset(r.coins) + multiset{s.coins[i]} == multiset(s.coins)
    ensures forall j :: 0 <= j < i ==> r.coins[j] == s.coins[j]
    ensures forall j :: i <= j < |r.coins| ==> r.coins[j] == s.coins[j + 1]
    ensures r.lives == s.lives && r.obstacles == s.obstacles
    ensures r.physicsPaused == s.physicsPaused && r.restartOffered == s.restartOffered
  {
    s.(coins := Pools.RemoveAt(s.coins, i), score := s.score + CoinValue)
  }

  /** The player collided with obstacle `i`: that obstacle is destroyed and a
      life is lost; if none are left the physics is paused and the restart
      button shown. Score and coins are untouched. */
  function HitObstacle(s: Session, i: nat): (r: Session)
    requires i < |s.obstacles|
    ensures r.lives == s.lives - 1
    ensures |r.obstacles| == |s.obstacles| - 1
    ensures multiset(r.obstacles) + multiset{s.obstacles[i]} == multiset(s.obstacles)
    ensures forall j :: 0 <= j < i ==> r.obstacles[j] == s.obstacles[j]
    ensures forall j :: i <= j < |r.obstacles| ==> r.obstacles[j] == s.obstacles[j + 1]
    ensures r.score == s.score && r.coins == s.coins
    ensures IsOver(r) ==> r.physicsPaused && r.restartOffered
    ensures !IsOver(r) ==> r.physicsPaused == s.physicsPaused && r.restartOffered == s.restartOffered
    ensures Consistent(s) ==> Consistent(r)
  {
    var r := s.(obstacles := Pools.RemoveAt(s.obstacles, i), lives := s.lives - 1);
    if r.lives <= 0 then r.(physicsPaused := true, restartOffered := true) else r
  }

  /** The obstacle timer fired: one obstacle is added at the spawn point. */
  function SpawnObstacle(s: Session): (r: Session)
    ensures r.obstacles == s.obstacles + [NewObstacle()]
    ensures r.score == s.score && r.lives == s.lives && r.coins == s.coins
    ensures r.physicsPaused == s.physicsPaused && r.restartOffered == s.restartOffered
  {
    s.(obstacles := s.obstacles + [NewObstacle()])
  }

  /** The coin timer fired and the random draw gave height `y`. */
  function SpawnCoin(s: Session, y: CoinY): (r: Session)
    ensures r.coins == s.coins + [NewCoin(y)]
    ensures r.score == s.score && r.lives == s.lives && r.obstacles == s.obstacles
    ensures r.physicsPaused == s.physicsPaused && r.restartOffered == s.restartOffered
  {
    s.(coins := s.coins + [NewCoin(y)])
  }

  /** What the physics engine and the timers report to the scene. Contacts
      name the entity by its position in its pool. */
  datatype Event =
    | Overlap(coin: nat)
    | Collision(obstacle: nat)
    | ObstacleTimer
    | CoinTimer(y: CoinY)

  /** One event. A contact with an entity that is no longer in its pool has
      nothing to destroy and changes nothing. */
  function Handle(s: Session, e: Event): (r: Session)
    ensures r.score >= s.score && r.lives <= s.lives
    ensures (r.score - s.score) % CoinValue == 0
    ensures r.score + CoinValue * |r.coins|
            == s.score + CoinValue * |s.coins| + (if e.CoinTimer? then CoinValue else 0)
    ensures r.lives - |r.obstacles|
            == s.lives - |s.obstacles| - (if e.ObstacleTimer? then 1 else 0)
    ensures Consistent(s) ==> Consistent(r)
    ensures WellFormedPools(s) ==> WellFormedPools(r)
    ensures e.Overlap? && e.coin < |s.coins| ==> r == CollectCoin(s, e.coin)
    ensures e.Collision? && e.obstacle < |s.obstacles| ==> r == HitObstacle(s, e.obstacle)
    ensures (e.Overlap? && e.coin >= |s.coins|) || (e.Collision? && e.obstacle >= |s.obstacles|) ==> r == s
    ensures e.ObstacleTimer? ==> r == SpawnObstacle(s)
    ensures e.CoinTimer? ==> r == SpawnCoin(s, e.y)
  {
    match e
    case Overlap(i) =>
      if i < |s.coins| then
        Pools.RemoveAtSubset(s.coins, i);
        CollectCoin(s, i)
      else s
    case Collision(i) =>
      if i < |s.obstacles| then
        Pools.RemoveAtSubset(s.obstacles, i);
        HitObstacle(s, i)
      else s
    case ObstacleTimer => SpawnObstacle(s)
    case CoinTimer(y) => SpawnCoin(s, y)
  }

  /** The session after a sequence of events, first event first. */
  function HandleAll(s: Session, evs: seq<Event>): Session
    decreases |evs|
  {
    if |evs| == 0 then s else HandleAll(Handle(s, evs[0]), evs[1..])
  }

  function CoinSpawns(evs: seq<Event>): nat
    decreases |evs|
  {
    if |evs| == 0 then 0 else (if evs[0].CoinTimer? then 1 else 0) + CoinSpawns(evs[1..])
  }

  function ObstacleSpawns(evs: seq<Event>): nat
    decreases |evs|
  {
    if |evs| == 0 then 0 else (if evs[0].ObstacleTimer? then 1 else 0) + ObstacleSpawns(evs[1..])
  }

  /** Coin accounting: every coin that left the pool was collected and paid
      its ten points, so score plus ten per live coin only grows by ten per
      coin spawned. */
  lemma {:induction false} CoinConservation(s: Session, evs: seq<Event>)
    ensures var r := HandleAll(s, evs);
            r.score + CoinValue * |r.coins|
            == s.score + CoinValue * |s.coins| + CoinValue * CoinSpawns(evs)
    decreases |evs|
  {
    if |evs| > 0 {
      CoinConservation(Handle(s, evs[0]), evs[1..]);
    }
  }

  /** Obstacle accounting: every obstacle that left the pool cost one life. */
  lemma {:induction false} ObstacleConservation(s: Session, evs: seq<Event>)
    ensures var r := HandleAll(s, evs);
            r.lives - |r.obstacles| == s.lives - |s.obstacles| - ObstacleSpawns(evs)
    decreases |evs|
  {
    if |evs| > 0 {
      ObstacleConservation(Handle(s, evs[0]), evs[1..]);
    }
  }

  /** Without a restart the score only grows, in steps of ten, and the lives
      only shrink; in particular once the run is over it stays over. */
  lemma {:induction false} HandleAllMonotone(s: Session, evs: seq<Event>)
    ensures var r := HandleAll(s, evs);
            && r.score >= s.score && (r.score - s.score) % CoinValue == 0
            && r.lives <= s.lives
            && (IsOver(s) ==> IsOver(r))
    decreases |evs|
  {
    if |evs| > 0 {
      var s1 := Handle(s, evs[0]);
      HandleAllMonotone(s1, evs[1..]);
      var r := HandleAll(s1, evs[1..]);
      SumOfMultiples(s1.score - s.score, r.score - s1.score);
    }
  }

  /** Two score gains in whole coins add up to a gain in whole coins. */
  lemma SumOfMultiples(a: int, b: int)
    requires a % CoinValue == 0 && b % CoinValue == 0
    ensures (a + b) % CoinValue == 0
  {
  }

  /** The game-over flags and the shape of the pools stay right under any
      sequence of events. */
  lemma {:induction false} HandleAllPreservesInvariants(s: Session, evs: seq<Event>)
    requires Consistent(s) && WellFormedPools(s)
    ensures Consistent(HandleAll(s, evs)) && WellFormedPools(HandleAll(s, evs))
    decreases |evs|
  {
    if |evs| > 0 {
      HandleAllPreservesInvariants(Handle(s, evs[0]), evs[1..]);
    }
  }
}
