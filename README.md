# Breakout simulation core, modelled in Dafny

This project models the per-frame simulation of a browser Breakout game written in Rust
for WebAssembly (`src/lib.rs`). It covers three things:

- The brick field: 15 bricks in a 3 x 5 grid, each 75 x 20, with padding 10 and offsets (30, 30).
- The brick scan: it kills every alive brick whose open rectangle contains the ball centre,
  negates `dy` and adds one to the score per kill, then tests for a win.
- One tick of the game loop: the scan, then the side walls, the top wall or the bottom (a
  paddle bounce, or a lost life followed by game over or a new round), then the keys and
  the pointer moving the paddle, then the ball moving.

Files and modules:

- `int32.dfy` (`Int32`): Rust's `i32` and `u16`. `saturating_add` and `saturating_sub`
  clamp. The plain `+`, `-` and unary `-` wrap around, as in a release build. `/ 2`
  truncates toward zero. Every such operation in the source is written out with one of
  these, so the tick is total on all `i32` inputs.
- `bricks.dfy` (`Bricks`): the `Brick` datatype, `Bricks::new` as the method `New`
  (nested loops pushing onto a sequence), and the scan as the function `Collide` with
  hit and alive counts.
- `input.dfy` (`Input`): the `UserInput` class and its setters.
- `game.dfy` (`Breakout`): the `Game` class.
  - Its fields are the source's: ball, paddle, bricks, score, lives, canvas size and input.
  - `Step` is one tick as a function of the state. `Game.GameLoop` does the same tick in
    place, step by step, and is proved equal to `Step`.
  - `Inv` is what every reachable state satisfies: radius 10, speed 2 on each axis, paddle
    75 x 10, the grid's rectangles, and score + alive bricks == 15.
- `properties.dfy` (`Properties`): lemmas about `Step`, for states satisfying `Inv`.
  Most of them assume a canvas of positive width and height.

The browser's `alert` and `reload` become a returned `Status(won, round)`, where `round` is
`Continue`, `RoundReset` or `Lost`. The Rust code keeps running after each alert, and the
model does the same: the rest of the tick still happens. So one tick can report a win and a
round outcome together. After game over, lives stay at 0 and every later miss reports
`Lost` again. The canvas's `offset_left()` is a parameter of `GameLoop`.

Three facts about the code that the lemmas make explicit:

- The brick scan never stops early. On this grid it hits at most one brick per tick
  anyway (`Bricks.GridHitsAtMostOne`).
- The ball moves with `saturating_add`.
- The pointer override is not clamped, so the paddle can leave the canvas
  (`Properties.PointerCanPushPaddleOff`).

## Model

| member | source | states |
|---|---|---|
| `Bricks.New` | src/lib.rs:60-86 | builds exactly 15 bricks; brick k is row k / 5, column k % 5 of the grid, alive |
| `Bricks.BrickAtPosition` | src/lib.rs:63-79 | brick r*5+c has x = 85c+30, y = 30r+30, size 75 x 20, and is alive |
| `Bricks.GridRectsDisjoint` | src/lib.rs:63-79 | no point is strictly inside two different grid bricks |
| `Bricks.CollideKillsExactlyHits` | src/lib.rs:296-311 | after a scan, a brick keeps its rectangle and is alive iff it was alive and the centre was outside it |
| `Bricks.CollideAccounting` | src/lib.rs:296-311 | the scan lowers the alive count by exactly the number of bricks it hits |
| `Bricks.GridHitsAtMostOne` | src/lib.rs:296-312 | on the grid, one scan hits at most one brick, although it never stops early |
| `Input.UserInput.constructor` | src/lib.rs:185-190 | input starts with no key held and the pointer at (0, 0) |
| `Input.UserInput.SetKeyboardRight` | src/lib.rs:124-126 | sets the right-key flag; nothing else changes |
| `Input.UserInput.SetKeyboardLeft` | src/lib.rs:127-129 | sets the left-key flag; nothing else changes |
| `Input.UserInput.SetMousePosition` | src/lib.rs:130-133 | sets the pointer coordinates; the keys are unchanged |
| `Breakout.Game.constructor` | src/lib.rs:171-206 | ball at (w/2, h-30) with velocity (2, -2), radius 10; paddle 75 x 10 at x = (w-10)/2 as written (see Findings); full grid; score 0; lives 3; `Valid` holds |
| `Breakout.InitialInv` | src/lib.rs:171-202 | the initial state satisfies `Inv`: 15 alive bricks and score 0 |
| `Breakout.Game.CollisionDetection` | src/lib.rs:295-324 | the new state is the scan's result; the win flag holds iff the score equals the brick count as a `u16`; a valid game stays valid |
| `Breakout.Game.Bounce` | src/lib.rs:233-269 | the wall and bottom handling leave the state and round outcome given by `BouncePhase`; a valid game stays valid |
| `Breakout.Game.MovePaddle` | src/lib.rs:271-286 | only the paddle changes, to the key move followed by the pointer override; a valid game stays valid |
| `Breakout.Game.GameLoop` | src/lib.rs:230-290 | the new state and status are exactly those of `Step`, and `Valid` is kept |
| `Breakout.CollisionPhaseKeepsInv` | src/lib.rs:296-311 | the scan adds to the score exactly the number of bricks it kills, keeping score + alive == 15 |
| `Breakout.StepPreservesInv` | src/lib.rs:230-290 | every tick keeps `Inv`; in particular dx and dy stay 2 or -2, since they are only negated or reset to (2, -2) |
| `Breakout.BouncePhaseKeepsInv` | src/lib.rs:233-269 | the wall and bottom handling keep `Inv` and leave the bricks and score as they were |
| `Breakout.PaddlePhaseKeepsInv` | src/lib.rs:271-286 | the key and pointer handling change only the paddle's x and keep `Inv` |
| `Properties.TickKillsExactlyHits` | src/lib.rs:296-311 | a tick kills exactly the alive bricks whose open rectangle contains the ball centre; no rectangle changes; dead bricks stay dead |
| `Properties.TickScore` | src/lib.rs:296-311 | the score rises by the number of hits, never decreases, stays at most 15, and score + alive bricks == 15 |
| `Properties.WonIffCleared` | src/lib.rs:315 | a win is reported iff the scan leaves no brick alive, iff the score is then 15 |
| `Properties.ScanFlipsDyPerKill` | src/lib.rs:296-311 | the scan negates dy once per kill: dy is turned around iff the hit count is odd |
| `Properties.BrickBounce` | src/lib.rs:296-311 | at most one brick is hit per tick; dy turns around iff some alive brick contains the ball centre |
| `Properties.SideWallBounce` | src/lib.rs:234-240 | unless a new round started, dx flips iff the projected x is greater than w - 10 or less than 10 |
| `Properties.TopWallBounce` | src/lib.rs:242-245 | a projected y below 10 flips dy and excludes the bottom handling; lives unchanged |
| `Properties.PaddleBounce` | src/lib.rs:245-248 | at the bottom with ball.x strictly inside (paddle.x, paddle.x + 75), only dy flips and lives are unchanged |
| `Properties.NoVerticalBounce` | src/lib.rs:242-269 | with the projected y between the walls, dy keeps the scan's value and lives are unchanged |
| `Properties.RoundOutcome` | src/lib.rs:245-267 | lives change only on a miss. `Lost` iff a miss with at most 1 life left. `RoundReset` iff a miss with more than 1 life left |
| `Properties.BallMissed` | src/lib.rs:249-267 | a miss makes lives max(lives - 1, 0). With lives left, the ball restarts at (w/2, h-30) with velocity (2, -2) and has made its first move. Otherwise it is not repositioned |
| `Properties.KeyboardMoveSteps` | src/lib.rs:271-279 | for any paddle x, off the canvas included: right held gives min(x+7, w-75), so a paddle beyond w-75 is pulled back to w-75. Else left held gives max(x-7, 0). Neither held leaves x |
| `Properties.KeyboardMoveInBounds` | src/lib.rs:271-279 | a paddle in [0, w-75] stays in [0, w-75] whatever keys are held |
| `Properties.PointerOverridesKeys` | src/lib.rs:281-286 | when 0 < mouse_x - offset_left < w, paddle.x is that value minus 37, whatever the keys say. Otherwise the keys alone decide |
| `Properties.PointerCanPushPaddleOff` | src/lib.rs:283-286 | the pointer just inside the left edge puts the paddle at x = -36, outside the canvas |
| `Properties.BallAdvances` | src/lib.rs:288-290 | unless a new round started, the ball moves from its old position by its new velocity (saturating) |
| `Properties.PaddleStartOffCentre` | src/lib.rs:179-183 | as written, the first paddle's left margin exceeds its right margin by 64-65 pixels (235 vs 170 on a 480-pixel canvas, where the centred start is 202) |
| `Properties.CenteredXIsCentred` | src/lib.rs:266 | (w - 75) / 2 leaves left and right margins that differ by at most one pixel |

## Left out

- Drawing is not modelled: `Ball::draw`, `Brick::draw`, `Bricks::draw`, `Paddle::draw`, `draw_score`, `draw_lives` and `clear_rect` (src/lib.rs:15-27, 39-52, 88-113, 212-228, 327-348). These are canvas calls with floating-point conversions.
- The DOM and canvas lookup in `Game::new` (src/lib.rs:152-169) is not modelled. The canvas width and height are constructor parameters, and the canvas's page offset is a `GameLoop` parameter.
- `alert_with_message` and `reload` (src/lib.rs:255-259, 316-322) are browser side effects. The model returns a `Status` in their place.
- `requestAnimationFrame` scheduling and the closures are not modelled: `start_game_loop`, `set_game_loop`, `set_game_loop_and_start` and `run` (src/lib.rs:292, 352-375, 423-429). They are calls into the browser through shared `Rc<RefCell>` handles.
- The keyboard and mouse event handlers (src/lib.rs:379-420) are left out. Only their effect, calls to the `UserInput` setters, is modelled.
- Overflow panics of a debug build are not modelled. Plain `+`, `-` and unary `-` on `i32` and `u16` wrap, as in a release build. Under `Inv` and a positive canvas, the ball and brick arithmetic never leaves the range.
- The model takes the canvas size as `i32` values. The source's `u32`-to-`i32` cast of the DOM sizes is not modelled.
- The lemmas in `Properties` assume a canvas of positive width and height. `Step` and the `Game` methods work for any size.
- No lemma says the paddle always stays within the canvas: the pointer override is not clamped, so that is false (`Properties.PointerCanPushPaddleOff`).

## Findings

| source | as written | input that shows it | evidently intended | confidence | as-written member | corrected member |
|---|---|---|---|---|---|---|
| src/lib.rs:182 | the first paddle starts at x = (canvas_width - 10) / 2 | a 480-pixel canvas: the paddle starts at 235, leaving 235 pixels on the left and 170 on the right | (canvas_width - paddle.width) / 2 = 202, the centre that the round reset at src/lib.rs:266 uses | medium, not executed | `Properties.PaddleStartOffCentre` | `Properties.CenteredXIsCentred` |
