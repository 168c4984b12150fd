# Horse runner gameplay rules in Dafny

This project models the gameplay rules of a small browser side-scroller written for the
Phaser engine: a horse runs along a scrolling ground, jumps (double jump at most) over
obstacles and collects coins, with a score, three lives, a game over and a restart. The
engine is not part of the model. Its signals are inputs: key held, key just pressed, the
body touching the ground, a collision or overlap with a named entity, a spawn timer firing,
and a random coin height. Everything is immutable records and pure transition functions.

Modules, following the classes of `main.js`:

- `PlayerController` (`Player`): the jump counter, `Jump`, `CanJump`, and sequences of those calls.
- `Entities`: the spawn constants (x 800, obstacle y 330 at -300, coin y in 200..280 at -200).
- `Pools`: an entity group as a sequence in spawn order; destroying removes one element.
- `SessionState` (fields of `GameScene`): score, lives, the two pools, the game-over flags
  "physics paused" and "restart offered", the two contact handlers and the two spawns.
- `Scroll`: the background and ground texture offsets.
- `Game` (`GameScene.create` and `update`): the whole scene state and the per-frame tick.
- `Scenes` (`BootScene`, `UIScene`, and the scene manager): the flow Boot → Menu → Game,
  with restarts, as one event dispatcher.

Three behaviours of main.js the model keeps on purpose:

- Lives can go below zero. Collisions reported in the same physics step after the pause are
  still handled, and main.js:139-140 displays the lives value as it is, negative values included.
- `canJump` is evaluated only while a jump key is held. So ground contact resets the jump
  budget only in a frame where Up, W or Space is down.
- Pausing the physics does not stop the scene clock, so both spawn timers keep firing after
  game over.

## Model

| member | source | states |
|---|---|---|
| PlayerController.Init | main.js:158-159 | a new player satisfies the counter invariant 0 <= jumpCount <= 2 and has a jump available |
| PlayerController.Jump | main.js:162-167 | below the cap a jump sets vertical velocity to -500 and raises the counter by exactly one; at the cap nothing changes; the invariant is kept |
| PlayerController.CanJump | main.js:169-174 | on ground contact the counter becomes 0 and the answer is yes; otherwise the player is unchanged; the answer is exactly "counter below 2"; velocity is untouched |
| PlayerController.RunPreservesValid | main.js:158-174 | the counter invariant holds after any sequence of jump and canJump calls |
| PlayerController.AirborneJumpsAreCounted | main.js:162-174 | without ground contact the counter equals its start plus the number of jumps that took effect |
| PlayerController.AirborneJumpBound | main.js:162-174 | without ground contact at most 2 - jumpCount further jumps take effect |
| PlayerController.AtMostTwoJumpsPerGroundContact | main.js:162-174 | from a ground contact, at most two jumps take effect before the next ground contact |
| PlayerController.ThirdAirborneJumpIsDropped | main.js:162-174 | ground, jump, jump leaves the counter at 2 with velocity -500, and a third jump is a no-op |
| Entities.NewObstacle | main.js:118-123 | an obstacle is created at (800, 330) moving left at 300 |
| Entities.NewCoin | main.js:125-129 | a coin is created at x 800 with the drawn height, which lies in 200..280, moving left at 200 |
| Entities.SpawnedCoinsAreExactlyNewCoins | main.js:126 | the coins the spawner can create are exactly those with x 800, height in 200..280 and speed -200 |
| SessionState.Init | main.js:49-51 | a new session has score 0, 3 lives, empty pools, and is not over |
| Pools.RemoveAt | main.js:132 | destroying an entity removes exactly that element of its group: one fewer, the others kept in order, the multiset reduced by that entity |
| SessionState.CollectCoin | main.js:131-135 | the score rises by exactly 10; exactly the overlapped coin leaves the pool, the others keep their order; lives, obstacles and flags are unchanged |
| SessionState.HitObstacle | main.js:137-149 | lives fall by exactly 1; exactly the hit obstacle leaves the pool; score and coins are unchanged; physics is paused and restart offered once lives <= 0, and from a consistent state paused holds if and only if lives <= 0 |
| SessionState.SpawnObstacle | main.js:118-123 | the obstacle timer appends one spawned obstacle and changes nothing else |
| SessionState.SpawnCoin | main.js:125-129 | the coin timer appends one coin at the drawn height and changes nothing else |
| SessionState.Handle | main.js:78-93 | an overlap with a live coin runs collectCoin, a collision with a live obstacle runs hitObstacle, a contact with an entity no longer pooled changes nothing, and the timers run the matching spawn; every event never lowers the score or raises the lives, pays 10 per removed coin, costs one life per removed obstacle, and keeps the flags consistent and the pools well formed |
| SessionState.CoinConservation | main.js:125-135 | over any event sequence, score + 10 x live coins grows by exactly 10 per coin spawned |
| SessionState.ObstacleConservation | main.js:118-139 | over any event sequence, lives - live obstacles falls by exactly 1 per obstacle spawned |
| SessionState.HandleAllMonotone | main.js:131-149 | without a restart the score only grows and in multiples of 10, lives only fall, and a finished run stays finished |
| SessionState.HandleAllPreservesInvariants | main.js:118-149 | the game-over flags match "lives <= 0" and the pools hold only spawned entities after any event sequence |
| Scroll.Start | main.js:53-54 | both layers start with offset 0 |
| Scroll.Advance | main.js:97-102 | one frame moves the background by 5 with Shift and 2 without, the ground by 10 or 6, so both strictly increase |
| Scroll.AdvanceAllDistance | main.js:97-102 | over n frames with k of them fast, the background moves 2n + 3k and the ground 6n + 4k |
| Scroll.AdvanceAllBounds | main.js:97-102 | over n frames the background moves between 2n and 5n and the ground between 6n and 10n, strictly for n > 0 |
| Game.Create | main.js:49-66 | the scene starts with score 0, 3 lives, empty pools, jump counter 0, and satisfies the scene invariant |
| Game.FrameJump | main.js:105-110 | without a jump key the player is untouched; with one, on the ground the player jumps with counter 1, in the air it jumps only below the cap, and at the cap in the air nothing changes |
| Game.Tick | main.js:96-116 | a frame restarts the scene when lives <= 0 and R was just pressed; in every other frame the session is unchanged, the offsets grow by the Shift-dependent steps, and the jump rule applies; the scene invariant is kept |
| Game.AirborneTicksCountJumps | main.js:105-110 | over frames without ground contact or restart, the counter rises by exactly the number of frames that launched the player |
| Game.AtMostTwoJumpsBeforeLanding | main.js:105-110 | over frames with ground contact at most in the first, and no restart, at most two frames launch the player |
| Game.TicksWithoutRestartKeepSession | main.js:113-115 | while the run is not over, frames never change the session, whatever keys are pressed |
| Scenes.Step | main.js:16-41 | Boot moves to the menu exactly on load completion; the menu moves to a fresh game exactly on a start click or an Enter press; a game stays a game: a frame runs the per-frame update, a contact or timer runs the session handler and leaves player and scroll alone, a restart trigger gives a fresh game, and any other event (including a click on a restart button that does not exist) changes nothing |
| Scenes.RunPreservesValid | main.js:49-149 | after any event sequence from Boot, a running game satisfies the scene invariant |
| Scenes.MenuOnlyAfterLoad | main.js:16-18 | the game leaves Boot only after a load-complete event |
| Scenes.GameOnlyAfterLoadAndStart | main.js:16-41 | gameplay is reached only after load completion followed later by a start click or Enter press |
| Scenes.RestartOnlyFromGameOver | main.js:113-147 | both restart triggers (R key and restart button) need lives <= 0, and restart gives score 0, 3 lives and empty pools |
| Scenes.ScenarioGameOverAndRestart | main.js:113-149 | coin, then three collisions: score 10 and lives 3, 2, 1, 0 with physics paused; R then restarts the scene |

## Left out

- Rendering, tile sprites, text, the run animation and its stop on game over. These are engine
  side effects. Only "physics paused" and "restart offered" are kept, as flags.
- Arcade physics: gravity, motion of entities after they spawn, collision and overlap detection,
  world bounds, the immovable and no-gravity body flags. Ground contact and contacts are inputs.
  The model accepts every contact sequence, including the contacts the engine reports in the
  same step after the pause.
- Entities that scroll off screen are never removed by the source, and they are not removed here.
- Asset loading, the game configuration and the engine bootstrap. The load is one
  `LoadComplete` event.
- The 2000 ms and 3000 ms timer periods. Spawns are explicit events in any order.
- Keyboard internals. Phaser latches a key's "just down" edge until it is read. The Space key
  is polled through `checkDown` on a key object added every frame. Both are reduced to booleans.
- Phaser's random generator. The coin height is a parameter of type `CoinY` (200..280 inclusive).
- JavaScript numbers are doubles. Score, lives and offsets are unbounded integers here, so
  precision loss past 2^53 is not modelled.
- Vertical velocity: `velocityY` is the last velocity the controller set. Gravity changes
  it in the engine, so the model says nothing about it between jumps.
