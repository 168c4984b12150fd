/** The gameplay scene as one value, and its per-frame update. */
module Game {
  import opened PlayerController
  import opened SessionState
  import opened Scroll

  datatype GameState = GameState(player: Player, session: Session, scroll: Offsets)

  /** What one frame reads: the keys held, the keys pressed since the last
      frame, and whether the physics engine reports the player's body resting
      on the ground. `enterJustDown` is read only by the menu. */
  datatype Input = Input(
    shiftDown: bool,
    upDown: bool,
    wDown: bool,
    spaceDown: bool,
    restartJustDown: bool,
    enterJustDown: bool,
    touchingDown: bool)

  /** Up, W or Space is held. */
  predicate JumpKeyDown(i: Input) {
    i.upDown || i.wDown || i.spaceDown
  }

  /** The scene's invariant: player counter in range, game-over flags in
      step with the lives, pools holding only spawned entities, and lives
      never above the starting number. */
  predicate Valid(g: GameState) {
    && PlayerController.Valid(g.player)
    && Consistent(g.session)
    && WellFormedPools(g.session)
    && g.session.lives <= InitialLives
    && g.session.score >= 0
  }

  /** Setting the scene up (also what a restart re-runs): score 0, three
      lives, empty pools, a player with a full jump budget, unscrolled
      layers. */
  function Create(): (g: GameState)
    ensures Valid(g)
    ensures g.session.score == 0 && g.session.lives == InitialLives
    ensures g.session.obstacles == [] && g.session.coins == []
    ensures !IsOver(g.session)
    ensures g.player.jumpCount == 0
  {
    GameState(PlayerController.Init(), SessionState.Init(), Scroll.Start())
  }

  /** A restart fires only on an R press while the run is over. */
  predicate RestartTriggered(g: GameState, i: Input) {
    IsOver(g.session) && i.restartJustDown
  }

  /** The jump rule of one frame: `canJump` is asked only while a jump key is
      held, and a jump is made only when it answers yes. */
  function FrameJump(p: Player, i: Input): (r: Player)
    ensures !JumpKeyDown(i) ==> r == p
    ensures JumpKeyDown(i) && i.touchingDown ==>
              r.jumpCount == 1 && r.velocityY == JumpVelocity
    ensures JumpKeyDown(i) && !i.touchingDown && p.jumpCount < MaxJumps ==>
              r.jumpCount == p.jumpCount + 1 && r.velocityY == JumpVelocity
    ensures !i.touchingDown && p.jumpCount >= MaxJumps ==> r == p
    ensures PlayerController.Valid(p) ==> PlayerController.Valid(r)
  {
    if JumpKeyDown(i) then
      var (q, ok) := CanJump(p, i.touchingDown);
      if ok then Jump(q) else q
    else p
  }

  /** One frame: scroll both layers, apply the jump rule, then restart the
      scene if R was pressed while the run is over. The session is changed
      by nothing but the restart. */
  function Tick(g: GameState, i: Input): (r: GameState)
    ensures RestartTriggered(g, i) ==> r == Create()
    ensures !RestartTriggered(g, i) ==>
              && r.session == g.session
              && r.scroll.background - g.scroll.background
                 == (if i.shiftDown then BackgroundFast else BackgroundSlow)
              && r.scroll.ground - g.scroll.ground
                 == (if i.shiftDown then GroundFast else GroundSlow)
              && r.player == FrameJump(g.player, i)
    ensures Valid(g) ==> Valid(r)
  {
    var moved := GameState(FrameJump(g.player, i), g.session, Advance(g.scroll, i.shiftDown));
    if RestartTriggered(g, i) then Create() else moved
  }

  /** The scene after one frame per input, first frame first. */
  function Ticks(g: GameState, ins: seq<Input>): GameState
    decreases |ins|
  {
    if |ins| == 0 then g else Ticks(Tick(g, ins[0]), ins[1..])
  }

  /** Whether the frame made the player jump. */
  predicate Launched(g: GameState, i: Input) {
    JumpKeyDown(i) && CanJump(g.player, i.touchingDown).1
  }

  /** How many frames of `ins` made the player jump. */
  function TickJumps(g: GameState, ins: seq<Input>): nat
    decreases |ins|
  {
    if |ins| == 0 then 0
    else (if Launched(g, ins[0]) then 1 else 0) + TickJumps(Tick(g, ins[0]), ins[1..])
  }

  /** Frames in the air without a restart: every launch adds one to the jump
      counter, and the counter does nothing else. */
  lemma {:induction false} AirborneTicksCountJumps(g: GameState, ins: seq<Input>)
    requires PlayerController.Valid(g.player)
    requires forall k :: 0 <= k < |ins| ==> !ins[k].touchingDown && !ins[k].restartJustDown
    ensures Ticks(g, ins).player.jumpCount == g.player.jumpCount + TickJumps(g, ins)
    ensures PlayerController.Valid(Ticks(g, ins).player)
    decreases |ins|
  {
    if |ins| > 0 {
      AirborneTicksCountJumps(Tick(g, ins[0]), ins[1..]);
    }
  }

  /** Once on the ground, holding or mashing a jump key over any number of
      frames in the air launches the player at most twice. */
  lemma {:induction false} AtMostTwoJumpsBeforeLanding(g: GameState, ins: seq<Input>)
    requires PlayerController.Valid(g.player)
    requires forall k :: 0 < k < |ins| ==> !ins[k].touchingDown
    requires forall k :: 0 <= k < |ins| ==> !ins[k].restartJustDown
    ensures TickJumps(g, ins) <= MaxJumps
  {
    if |ins| > 0 {
      var g1 := Tick(g, ins[0]);
      var rest := ins[1..];
      assert forall k :: 0 <= k < |rest| ==> !rest[k].touchingDown && !rest[k].restartJustDown by {
        forall k | 0 <= k < |rest|
          ensures !rest[k].touchingDown && !rest[k].restartJustDown
        {
          assert rest[k] == ins[k + 1];
        }
      }
      AirborneTicksCountJumps(g1, rest);
    }
  }

  /** Frames alone never change the session; in particular R while the run
      is still going does nothing. */
  lemma {:induction false} TicksWithoutRestartKeepSession(g: GameState, ins: seq<Input>)
    requires !IsOver(g.session)
    ensures Ticks(g, ins).session == g.session
    decreases |ins|
  {
    if |ins| > 0 {
      TicksWithoutRestartKeepSession(Tick(g, ins[0]), ins[1..]);
    }
  }
}
