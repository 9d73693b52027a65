# Pong: the game state machine, its paddles and its first version

This project models the logic of a two-player Pong game written in Rust on
top of a 2D physics library. The model covers three parts.

- **The game state machine** (`src/game.rs`). It covers the set of held keys
  and the two one-byte score counters. It covers goal detection at x > 800
  and x < 0, the ball respawn at (50, 50) with velocity (18, 10), the
  construction of a new game, and the order of a tick: paddles, then goal
  detection, then the physics step.
- **The paddles over the physics registry.** These are `src/game/player.rs`
  and the older `src/player.rs`. Each move looks up the paddle's own body by
  handle and shifts its y by 5. A dead handle makes the move do nothing. The
  two versions use opposite signs for "up".
- **The first standalone version** (`src/main.rs`). Paddles and ball are plain
  coordinates there. The ball advances by its velocity on every event, and a
  fixed key-to-move dispatch handles presses of A, S, K and L.

The physics library's world is modelled as a registry (`Registry.World`). It
is a map from handles to bodies. Each body has a position, a velocity, a
motion status, a shape and a material; orientation and angular velocity are
not modelled (see "Left out"). A counter makes sure that every
inserted body gets a handle that was not live before. Coordinates are `real`.

Modules: `Options` (optional values), `Registry`, `Input` (keys and button
events), `GamePlayer`, `LegacyPlayer`, `PongGame`, `Standalone`.

The model follows the code on three points where a cleaner design might differ:
- a goal for player one needs x strictly greater than 800 (`src/game.rs:99`), not x ≥ 800;
- "up" decreases y in `src/game/player.rs` but increases it in `src/player.rs` and `src/main.rs`;
- the first version moves a paddle once per key press (`src/main.rs:107-120`), not continuously while the key is held.

## Model

| member | source | states |
|---|---|---|
| Registry.Empty | src/game.rs:44 | a new world holds no bodies |
| Registry.Lookup | src/game/ball.rs:33-38 | a lookup yields the body exactly when the handle is live, and None otherwise |
| Registry.Insert | src/game.rs:130-131 | building a body registers it under a handle that was not live before; all earlier bodies are kept unchanged |
| Registry.Remove | src/game.rs:110 | removal drops exactly the given handle and keeps every other body; removing a dead handle changes nothing |
| Registry.ShiftY | src/game/player.rs:49-57 | the body at the handle moves by dy in y only; every other body and the set of handles are unchanged; a dead handle is a no-op |
| Registry.ShiftYInverse | src/game/player.rs:48-72 | shifting by dy and then by -dy restores the registry exactly |
| GamePlayer.New | src/game/player.rs:41-46 | the player wraps the handle it is given |
| GamePlayer.MoveUp | src/game/player.rs:48-59 | the player's body goes to (x, y - 5) with every other attribute (velocity, status, shape, material) kept; other bodies, the handle set and the player's handle are unchanged; a dead handle leaves the world as it was |
| GamePlayer.MoveDown | src/game/player.rs:61-72 | the player's body goes to (x, y + 5); same framing as the move up |
| GamePlayer.UpThenDownRestores | src/game/player.rs:48-72 | over the reals, a move up followed by a move down gives back the same player and world |
| GamePlayer.DownThenUpRestores | src/game/player.rs:48-72 | over the reals, a move down followed by a move up gives back the same player and world |
| LegacyPlayer.New | src/player.rs:39-44 | the player wraps the handle it is given |
| LegacyPlayer.MoveUp | src/player.rs:46-56 | the player's body goes to (x, y + 5) with every other attribute kept; other bodies and the handle are unchanged; a dead handle is a no-op |
| LegacyPlayer.MoveDown | src/player.rs:58-68 | the player's body goes to (x, y - 5) with every other attribute kept; same framing |
| LegacyPlayer.UpThenDownRestores | src/player.rs:46-68 | over the reals, a move up then a move down is the identity |
| LegacyPlayer.DownThenUpRestores | src/player.rs:46-68 | over the reals, a move down then a move up is the identity |
| LegacyPlayer.OppositeToLaterVersion | src/player.rs:46-68 | this version's move up has the same effect on the world as the later version's move down, and the other way round |
| PongGame.InitBall | src/game.rs:116-134 | adds one fresh dynamic disc of radius 20 at (50, 50) with velocity (18, 10), restitution 2 and friction 0; earlier bodies are kept |
| PongGame.InitPlayer | src/game.rs:136-154 | adds one fresh kinematic 7.5 x 25 half-extent box at the given position, at rest, with restitution 0 and friction 0, bound to the given keys; earlier bodies are kept |
| PongGame.New | src/game.rs:43-60 | scores 0 and 0, no held keys; the world holds exactly the spawn ball (a dynamic disc of radius 20 at (50, 50) moving at (18, 10), material (2, 0)), player one's paddle body (a kinematic 7.5 x 25 half-extent box at rest, material (0, 0)) at (50, 200) on W/S and player two's at (735, 300) on Up/Down; the three handles are live and distinct |
| PongGame.HandleKeyboardEvent | src/game.rs:70-83 | a key press adds the key to the held set and a release removes it; a non-keyboard button changes nothing; only the held set ever changes |
| PongGame.PressHeldKeyIsNoop | src/game.rs:72-75 | pressing a key already held leaves the game unchanged |
| PongGame.ReleaseUnheldKeyIsNoop | src/game.rs:77-80 | releasing a key that is not held leaves the game unchanged |
| PongGame.PressThenReleaseRestores | src/game.rs:70-83 | a press then a release of a key that was not held gives back the same game |
| PongGame.HandleEvents | src/game.rs:70-83 | after a run of events, a key is held exactly when the last keyboard event for it was a press, or when there was none and it was held before |
| PongGame.BallPosition | src/game.rs:98 | the ball's position is present exactly when its handle is live, and is then that body's position |
| PongGame.ResetBall | src/game.rs:109-112 | the old ball body is removed; the new ball's handle, distinct from every surviving body's and possibly a reused one, holds the spawn body; all other bodies, paddles, scores and held keys are unchanged |
| PongGame.CheckGoal | src/game.rs:97-107 | a live ball past x = 800 gives player one one point and a respawn; past x = 0, player two; inside [0, 800] or with a dead handle nothing changes; the byte counter must have room for the point |
| PongGame.GoalIff | src/game.rs:99-105 | each score rises by one exactly when its goal condition holds and otherwise stays; at most one score changes per check |
| PongGame.ResetBallKeepsWellFormed | src/game.rs:109-112 | after a respawn the ball and both paddles are still live and distinct, and the paddle bodies are unchanged |
| PongGame.CheckGoalKeepsWellFormed | src/game.rs:97-107 | goal detection keeps the three handles live and distinct, never touches a paddle body and keeps the held keys |
| PongGame.Update | src/game.rs:62-68 | a tick updates player one then player two, decides the goal from the ball position left by the paddle updates, and runs the physics step last, on the registry after any respawn; on a tick without a goal the scores and ball are unchanged and only the step's registry differs; keys and paddles are unchanged |
| PongGame.UpdateScoresThenRespawns | src/game.rs:62-68 | with idle paddles and an idle step, a scoring tick leaves the fresh ball at (50, 50) and raises the total score by exactly one |
| Standalone.NewPlayer | src/main.rs:29-35 | a paddle starts at the given coordinates |
| Standalone.MoveUp | src/main.rs:37-39 | y rises by 5 and x is unchanged |
| Standalone.MoveDown | src/main.rs:41-43 | y falls by 5 and x is unchanged |
| Standalone.MovesCancel | src/main.rs:37-43 | over the reals, up then down and down then up are both the identity |
| Standalone.NewBall | src/main.rs:55-63 | the ball starts at the given point with velocity (0.05, 0) |
| Standalone.UpdatePos | src/main.rs:65-68 | the position moves by the velocity and the velocity is unchanged |
| Standalone.AdvanceDisplacement | src/main.rs:65-68 | n position updates move the ball by n times its velocity and keep the velocity |
| Standalone.Initial | src/main.rs:83-85 | the paddles start at (50, 380) and (750, 380) and the ball at (400, 400) |
| Standalone.Dispatch | src/main.rs:107-120 | press A moves player 1 down, S moves it up, K moves player 2 up, L moves it down; any other event changes neither paddle; the ball is untouched |
| Standalone.Frame | src/main.rs:96-120 | one pass of the loop advances the ball by its velocity and leaves the paddles exactly as the key dispatch of the event does, independent of the ball |
| Standalone.Run | src/main.rs:96-122 | over a run of events the ball moves by one velocity per event; each paddle's y changes by 5 times (up presses minus down presses) and its x stays the same |

## Left out

- The physics step (`world.step()`) and all collision, restitution and depenetration behaviour: these belong to the physics library. `PongGame.Update` takes the step as a function parameter.
- `PongPlayer::update`, which `src/game.rs:63` calls: it is not defined in the player file of this model. `PongGame.Update` takes it as a function parameter, and nothing is stated about its body. The player is assumed to keep its own handle and bindings.
- The three-argument `PongPlayer::new` that `src/game.rs:153` calls takes only a handle in `src/game/player.rs`. The key bindings are therefore kept next to the player in `PongGame.Paddle`.
- `PongBall::get_position`, which `src/game.rs:98` calls, is not defined in `src/game/ball.rs`. It is modelled by `PongGame.BallPosition` as a lookup of the ball's handle.
- The `body` field of `PongBall` exists (`src/game/ball.rs:18`) but is private, so `src/game.rs:110` cannot reach it as written. The model reads the handle directly, as that line intends.
- The walls (`src/game.rs:156-182`) are colliders attached to the ground, not registry bodies. They only matter to collisions, which are left out.
- Collider density: the ball's density of 1.0 and the library default for paddles are not recorded on bodies, since only the physics step reads them.
- All rendering (`render`, `render_walls`, `draw`, `clear`), and the window and event loop of `src/main.rs`: these are graphics and I/O. The loop appears only as a sequence of events in `Standalone.Run`.
- `src/game/ball.rs` beyond its constants: it holds only a handle wrapper and a renderer.
- Floating point: coordinates are reals. `f32` is used in `src/game/player.rs` and `f64` elsewhere, and that split is not modelled. The "move up then down restores" lemmas hold over the reals, not necessarily over IEEE floats.
- PongGame.CheckGoal: requires that the counter that would rise is below 255. A one-byte increment past 255 panics in a debug build and wraps in a release build; neither outcome is modelled.
- PongGame.Update: requires the same one-byte headroom as `PongGame.CheckGoal`, for the goal the tick would score on the registry left by the paddle updates; a tick whose goal would push a score past 255 is not modelled.
- Orientation and angular velocity of bodies are not modelled. The paddle moves write a pure translation, which in the physics library also resets the body's rotation to zero; here the paddles are kinematic with no angular velocity and the ball is frictionless, so the rotation stays zero anyway. "Every other attribute kept" in the move rows refers to the modelled attributes only.
- Registry.Insert: promises only a handle that is not live. The physics library may reuse the slot of a removed body, so the model does not promise that a respawned ball's handle differs from the old one.
