# Portrait Pong — the per-frame game logic, modelled in Dafny

This project models the game logic of the portrait Pong page in `game.js`.
The canvas is 400 wide and 600 high. The player's paddle sits near the bottom
edge and the computer's paddle near the top. Four module-level records hold
the state:

- `ball`: centre, velocity, size 10 and target speed 3;
- `playerPaddle` and `computerPaddle`: 80×10 paddles that move 5 and 4 units
  a frame, each with its score;
- `keys`: the flags of the `a` and `d` keys.

The model covers these operations:

- the keydown and keyup listeners;
- `handlePlayerInput`;
- `movePaddles`, which holds the computer's dead-zone tracking and the clamp
  onto the canvas;
- `checkPaddleCollision`;
- `moveBall`, which runs in order:
  - advance the ball;
  - reflect it off the side walls;
  - make at most one guarded paddle rebound, with speed renormalisation;
  - apply the guarded scoring rule, then serve again;
- `resetBall`;
- the order of one `gameLoop` frame.

The project has three modules:

- `Input` (`input.dfy`): the key flags, the `toLowerCase()` test the listeners
  apply to `e.key`, and sequences of key events.
- `Physics` (`physics.dfy`): the rules on values.
  - The constants, and datatypes for the ball, a paddle and the whole world.
  - One function per step, taking the state before and giving the state after.
  - The lemmas about those functions, for one frame and over any run of frames.
  - Coordinates are exact `real`s.
- `Game` (`game.dfy`): the page's records as classes whose methods update
  fields in place, in the page's own order.
  - `Pong` holds the four objects.
  - Each method's postcondition states that the new `Model()` of the objects
    equals the matching `Physics` or `Input` function of the old `Model()`.
    Everything proved about those functions therefore holds of the methods.

Some things the page gets from its host are passed in as parameters:

- `Math.sqrt` is an argument `sqrt: real -> real` that `IsSqrt` requires to
  be an exact square root. A non-negative argument gets a non-negative root
  whose square is the argument, and a positive argument gets a positive root.
- The two `Math.random()` draws and `Math.sin`/`Math.cos` of the serve angle
  are a `Serve(sin, cos, coin)` value given to `ResetBall`, `MoveBall` and
  `Step`.

Some consequences of `game.js` as written, each stated by a lemma or contract:

- **Serve speed.** A serve's speed is not always `ball.speed`: the 1.5 minimum
  raises one component without lowering the other.
  - `Physics.ResetKeepsSpeed` proves the speed is 3 when no component is raised.
  - `Physics.StraightServeIsFaster` shows a straight serve leaves with
    dx² + dy² = 11.25, not 9.
- **Rebound speed.** A rebound sets the speed to `ball.speed`, whatever the
  speed before the hit, so the faster serve above is slowed to 3 by its first
  rebound (`Physics.Bounce`).
- **AI paddle direction.** Outside the dead zone the computer's paddle always
  steps toward the ball, on both sides, and each step brings its centre
  exactly one step closer (`Physics.Track`).
- **Division by zero.** The renormalisation divides by
  `Math.sqrt(dx * dx + dy * dy)`, and the direction guard (`dy > 0` or
  `dy < 0`) already makes `dy` non-zero, so the divisor is positive
  (`Physics.Rescale`).

## Model

| member | source | states |
|---|---|---|
| `Input.Lower` | game.js:205-206 | The model's `toLowerCase()`: the length is kept, each ASCII capital becomes its lower-case partner, every other character is unchanged, and no capital remains. |
| `Input.LowerIdempotent` | game.js:205-206 | Lower-casing twice is lower-casing once. |
| `Input.Names` | game.js:205-211 | The listeners' test `e.key.toLowerCase() === c` holds exactly for a one-character key whose character lowers to c. |
| `Input.NamesLetter` | game.js:205-206 | For a lower-case letter c, the model's `Names(key, c)` accepts exactly the one-character keys c and its ASCII capital; for `a` and `d`, the letters the listeners test, this is what `toLowerCase()` accepts. |
| `Input.KeyDown` | game.js:204-207 | keydown of `a`/`A` sets only `a`, of `d`/`D` sets only `d`, and any other key leaves the flags unchanged. |
| `Input.KeyUp` | game.js:209-212 | keyup of `a`/`A` clears only `a`, of `d`/`D` clears only `d`, and any other key leaves the flags unchanged. |
| `Input.ReleaseUndoesPress` | game.js:204-212 | A keyup after a keydown of the same key leaves the flags as the keyup alone would. |
| `Input.DeliverAll` | game.js:204-212 | Delivering a batch of events in which none names `a` or `d` leaves the flags as they were. |
| `Input.DeliverAllAppend` | game.js:204-212 | Delivering two batches one after the other is delivering them together. |
| `Input.DeliverAllIsLatest` | game.js:199-212 | After any sequence of key events, each flag is true exactly when the latest event naming its key was a keydown, and keeps its old value when no event names it. |
| `Physics.HandleInput` | game.js:214-217 | Only the player's x changes. It is unchanged with no key held or both held, falls by the step with only `a`, and rises by the step with only `d`. |
| `Physics.Track` | game.js:82-89 | Inside the 35-unit dead zone the computer's paddle stays put. Outside it, the paddle moves one step toward the ball, which brings its centre exactly one step closer. |
| `Physics.Clamp` | game.js:92-93 | The result lies in [0, 400 - 80]. It equals x when x is already there, and otherwise the nearer bound. |
| `Physics.MovePaddles` | game.js:80-94 | Ball and keys are unchanged, the player is clamped, and the computer is tracked and then clamped. Both paddles end on the canvas whatever their positions before. |
| `Physics.Collides` | game.js:158-161 | The four strict inequalities hold exactly when the ball's centre is within 10 + 40 of the paddle's centre across and within 10 + 5 of it vertically. |
| `Physics.CollidesIffSharedPoint` | game.js:156-162 | The four strict inequalities hold exactly when the ball's open bounding square and the open paddle rectangle share a point. |
| `Physics.HitBy` | game.js:106-122 | A player hit happens exactly on overlap with the player while dy > 0, and a computer hit exactly on overlap with the computer while dy < 0. The two exclude each other. |
| `Physics.Deflection` | game.js:111-112 | `(hitPoint - 0.5) * 6` is zero exactly at the paddle's centre and positive exactly to its right. It lies within [-3, 3] exactly when the ball's centre is over the paddle. |
| `Physics.Rescale` | game.js:115-118 | For dy ≠ 0 the divisor is positive. The rescaled velocity has squared length 3², keeps the sign of dy, and keeps the direction of (dx, dy). |
| `Physics.Bounce` | game.js:107-137 | A rebound keeps x. Off the player, dy < 0 and y = paddle.y - 10 - 1. Off the computer, dy > 0 and y = paddle.y + 10 + 10 + 1. In both cases dx² + dy² = 3², and dx : abs(dy) follows the hit offset. |
| `Physics.Advance` | game.js:97-98 | The ball moves by exactly its velocity, and the velocity is kept. |
| `Physics.BounceWalls` | game.js:100-103 | Only dx changes. It is negated when either edge of the ball is past a side wall and unchanged when the ball is inside. |
| `Physics.Deflect` | game.js:105-138 | At most one paddle rebound per call, each only toward the paddle struck, with the new dy sign, position and squared speed 3²; a hit gives exactly `Physics.Bounce` off the paddle struck, so the re-angle carries through. Without a hit the ball is unchanged. |
| `Physics.Travel` | game.js:97-138 | x always moves by dx. Without a paddle hit, y moves by dy, dy is kept and abs(dx) is kept. After a hit, dx² + dy² = 3². |
| `Physics.ScoredBy` | game.js:140-153 | The player scores exactly when the top edge is past 0 while dy < 0. The computer scores exactly when the bottom edge is past 600 while dy > 0. |
| `Physics.AtLeastMin` | game.js:176-183 | The result's magnitude is the larger of abs(v) and 1.5, with the sign of v, zero counting as positive. |
| `Physics.Reset` | game.js:164-196 | The ball is re-centred at (200, 300) with abs(dx) ≥ 1.5 and abs(dy) ≥ 1.5 for any draws. Each component is at most 3 when the draws are a sine and a cosine. dx has the sign of the sine, and for a positive cosine dy is positive exactly when the coin exceeds 0.5. |
| `Physics.ResetKeepsSpeed` | game.js:168-195 | When sin² + cos² = 1 and neither component is raised to 1.5, the serve's speed is exactly 3. |
| `Physics.StraightServeIsFaster` | game.js:169-195 | A straight serve (sine 0) leaves with velocity (1.5, 3), whose squared speed is 11.25 rather than 9. |
| `Physics.MoveBall` | game.js:96-154 | Keys and paddle positions are unchanged. Scores never fall and rise by at most one in total. A score rises by exactly one iff its side scored, and then the ball is served again; otherwise the ball is the travelled one. |
| `Physics.BounceNeverScores` | game.js:105-153 | With the paddles on their rows, a call that rebounds off a paddle never scores. |
| `Physics.Frame` | game.js:220-223 | After input, paddles and ball, keys are unchanged and both paddles are on the canvas. Scores never fall and rise by at most one in total. The paddles keep their rows and steps. |
| `Physics.StillBallStays` | game.js:220-223 | A still ball at the centre, with no key held, stays where it is for a frame and no one scores. |
| `Physics.Run` | game.js:204-226 | Over any run of frames with key events between them, frames never touch the flags: the final flags are those of all the run's events delivered in one go. |
| `Physics.RunScores` | game.js:220-226 | Over any run of frames, neither score falls and the total rises by at most one per frame. |
| `Physics.RunInBounds` | game.js:220-226 | After at least one frame both paddles are on the canvas, and paddle rows and steps never change. |
| `Game.Ball.constructor` | game.js:10-18 | The ball starts at the canvas centre with zero velocity. |
| `Game.Paddle.constructor` | game.js:22-38 | A paddle starts at x = 400/2 - 80/2 on its row with its step and score 0. |
| `Game.Keys.constructor` | game.js:199-202 | Both flags start false. |
| `Game.Pong.constructor` | game.js:9-38 | Builds the fresh records as declared and then serves once, as the page does before its first frame. The result is a standard world whose ball is `Reset` of the draws. |
| `Game.Pong.KeyDown` | game.js:204-207 | Updates the `keys` object in place to `Input.KeyDown` of its old flags. Nothing else changes. |
| `Game.Pong.KeyUp` | game.js:209-212 | Updates the `keys` object in place to `Input.KeyUp` of its old flags. Nothing else changes. |
| `Game.Pong.HandlePlayerInput` | game.js:214-217 | The new state is `Physics.HandleInput` of the old one. |
| `Game.Pong.MovePaddles` | game.js:80-94 | The new state is `Physics.MovePaddles` of the old one, and both paddle objects end on the canvas. |
| `Game.Pong.CheckPaddleCollision` | game.js:156-162 | Reads only the ball and the paddle. It is true exactly when the ball's bounding square and the paddle share a point. |
| `Game.Pong.Rebound` | game.js:107-137 | Updating the ball field by field yields `Physics.Bounce` of the old ball and the paddle struck. |
| `Game.Pong.MoveBall` | game.js:96-154 | The new state is `Physics.MoveBall` of the old state, the square root and the draws. |
| `Game.Pong.ResetBall` | game.js:164-196 | The ball object becomes `Physics.Reset` of the draws. |
| `Game.Pong.Step` | game.js:220-223 | One frame in place gives `Physics.Frame` of the old state. |

## Left out

- Rendering and the DOM (game.js:1-7, 41-77): the canvas context calls and the score text carry no game logic.
- `requestAnimationFrame` (game.js:225) and the `addEventListener` registrations (game.js:204, 209). They are host scheduling. The listeners' bodies are `Game.Pong.KeyDown` and `Game.Pong.KeyUp`.
- The initial `resetBall(); gameLoop();` at game.js:229-230 is folded into `Game.Pong.constructor` (the serve) and `Game.Pong.Step` (a frame).
- `Math.random`, `Math.sin` and `Math.cos` (game.js:169, 173, 185) are non-deterministic and transcendental. Their values arrive as a `Serve`, and `Physics.Reset` holds for every value, not only for angles in [-π/4, π/4].
- `Math.sqrt` (game.js:115, 131) is an exact square root given as a parameter. The model does not compute one.
- IEEE-754 rounding: positions and velocities are exact reals. The exact squared speed 3² after a rebound holds in JavaScript only up to rounding.
- `ball.maxSpeed` (game.js:17) is declared but never read.
- `Input.Lower` lower-cases only ASCII `A`-`Z`; the rest of the Unicode case mapping of `toLowerCase()` is not modelled.
- The landscape and "simple mode" variants, with their unguarded collisions and ×1.1 speed ramp, are not part of this model.
