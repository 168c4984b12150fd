/** The player's jump controller (class `Player` in main.js): a counter of the
    jumps taken since the last ground contact, capped so that a double jump is
    possible but a triple jump is not. */
module PlayerController {

  /** Jumps allowed between two ground contacts. */
  const MaxJumps: int := 2
  /** The vertical velocity a jump gives the sprite; negative is upward. */
  const JumpVelocity: int := -500

  /** `velocityY` is the vertical velocity the controller last set on the
      sprite (0 when it was created); integrating gravity into it afterwards
      is the physics engine's work. */
  datatype Player = Player(jumpCount: int, velocityY: int)

  /** The counter invariant. */
  predicate Valid(p: Player) {
    0 <= p.jumpCount <= MaxJumps
  }

  /** The freshly constructed player: no jumps taken, sprite at rest. */
  function Init(): (p: Player)
    ensures Valid(p)
    ensures p.jumpCount < MaxJumps
  {
    Player(0, 0)
  }

  /** A jump below the cap launches the sprite upward and uses one jump of
      the budget; at the cap the request is dropped silently. */
  function Jump(p: Player): (r: Player)
    ensures p.jumpCount < MaxJumps ==>
              r.jumpCount == p.jumpCount + 1 && r.velocityY == JumpVelocity
    ensures p.jumpCount >= MaxJumps ==> r == p
    ensures Valid(p) ==> Valid(r)
  {
    if p.jumpCount < MaxJumps then Player(p.jumpCount + 1, JumpVelocity) else p
  }

  /** Ground contact resets the jump budget; the answer is whether a jump is
      left in it. Returns the updated player and the answer. */
  function CanJump(p: Player, touchingDown: bool): (r: (Player, bool))
    ensures touchingDown ==> r.0.jumpCount == 0 && r.1
    ensures !touchingDown ==> r.0 == p
    ensures r.1 <==> r.0.jumpCount < MaxJumps
    ensures r.0.velocityY == p.velocityY
    ensures Valid(p) ==> Valid(r.0)
  {
    var q := if touchingDown then p.(jumpCount := 0) else p;
    (q, q.jumpCount < MaxJumps)
  }

  /** The two calls the game makes on the controller. */
  datatype Op = JumpOp | CanJumpOp(touchingDown: bool)

  function Apply(p: Player, op: Op): Player {
    match op
    case JumpOp => Jump(p)
    case CanJumpOp(t) => CanJump(p, t).0
  }

  /** The player after a sequence of calls, first call first. */
  function Run(p: Player, ops: seq<Op>): Player
    decreases |ops|
  {
    if |ops| == 0 then p else Run(Apply(p, ops[0]), ops[1..])
  }

  /** A call that took effect as a jump: a `jump` issued below the cap. */
  predicate Launches(p: Player, op: Op) {
    op == JumpOp && p.jumpCount < MaxJumps
  }

  /** How many calls of `ops` launched the sprite. */
  function JumpsTaken(p: Player, ops: seq<Op>): nat
    decreases |ops|
  {
    if |ops| == 0 then 0
    else (if Launches(p, ops[0]) then 1 else 0) + JumpsTaken(Apply(p, ops[0]), ops[1..])
  }

  /** The counter invariant holds after construction and after any sequence
      of `jump` and `canJump` calls. */
  lemma {:induction false} RunPreservesValid(p: Player, ops: seq<Op>)
    requires Valid(p)
    ensures Valid(Run(p, ops))
    decreases |ops|
  {
    if |ops| > 0 {
      RunPreservesValid(Apply(p, ops[0]), ops[1..]);
    }
  }

  /** While airborne (no call sees ground contact) the counter never goes
      down, and every launch raises it by one. */
  lemma {:induction false} AirborneJumpsAreCounted(p: Player, ops: seq<Op>)
    requires Valid(p)
    requires forall i :: 0 <= i < |ops| ==> ops[i] != CanJumpOp(true)
    ensures Run(p, ops).jumpCount == p.jumpCount + JumpsTaken(p, ops)
    decreases |ops|
  {
    if |ops| > 0 {
      AirborneJumpsAreCounted(Apply(p, ops[0]), ops[1..]);
    }
  }

  /** While airborne at most the remaining budget of jumps take effect. */
  lemma AirborneJumpBound(p: Player, ops: seq<Op>)
    requires Valid(p)
    requires forall i :: 0 <= i < |ops| ==> ops[i] != CanJumpOp(true)
    ensures JumpsTaken(p, ops) <= MaxJumps - p.jumpCount
  {
    AirborneJumpsAreCounted(p, ops);
    RunPreservesValid(p, ops);
  }

  /** Starting from a ground contact, at most two jumps take effect before
      the next ground contact. */
  lemma {:induction false} AtMostTwoJumpsPerGroundContact(p: Player, ops: seq<Op>)
    requires Valid(p)
    requires |ops| > 0 && ops[0] == CanJumpOp(true)
    requires forall i :: 0 < i < |ops| ==> ops[i] != CanJumpOp(true)
    ensures JumpsTaken(p, ops) <= MaxJumps
  {
    var q := Apply(p, ops[0]);
    assert q.jumpCount == 0;
    var rest := ops[1..];
    assert forall i :: 0 <= i < |rest| ==> rest[i] != CanJumpOp(true) by {
      forall i | 0 <= i < |rest|
        ensures rest[i] != CanJumpOp(true)
      {
        assert rest[i] == ops[i + 1];
      }
    }
    AirborneJumpBound(q, rest);
  }

  /** Ground, jump, jump, jump: the first two launch the sprite, the third
      changes neither the counter nor the velocity. */
  lemma ThirdAirborneJumpIsDropped(p: Player)
    requires Valid(p)
    ensures var q := Jump(Jump(CanJump(p, true).0));
            q.jumpCount == MaxJumps && q.velocityY == JumpVelocity && Jump(q) == q
  {
  }
}
