/**
 What one tick of the game guarantees, stated about `Step` for any state that satisfies
 `Inv` (every state the game reaches does: see `InitialInv` and `StepPreservesInv`) on a
 canvas of positive width and height.
 */
module Properties {
  import opened Int32
  import opened Bricks
  import opened Input
  import opened Breakout

  predicate CanvasOk(w: I32, h: I32) {
    0 < w && 0 < h
  }

  /** The ball's projected y, taken after the brick scan may have turned it around. */
  function ProjectedY(g: GameState): I32 {
    SatAdd(g.ball.y, CollisionPhase(g).ball.dy)
  }

  /** The ball is headed out through the bottom and the paddle is not under it. */
  predicate Missed(g: GameState, h: I32)
    requires Inv(g)
  {
    var movedY := ProjectedY(g);
    movedY >= BALL_RADIUS && movedY > h - BALL_RADIUS && !OverPaddle(g.ball.x, g.paddle)
  }

  // ---------------------------------------------------------------- bricks and score

  /** A tick kills exactly the alive bricks whose open rectangle contains the ball
      centre; no rectangle moves and no dead brick comes back. */
  lemma TickKillsExactlyHits(g: GameState, w: I32, h: I32, input: Intent, offsetLeft: I32, k: nat)
    requires k < |g.bricks|
    ensures var next := Step(g, w, h, input, offsetLeft).next;
      && |next.bricks| == |g.bricks|
      && SameRect(next.bricks[k], g.bricks[k])
      && (next.bricks[k].status <==> g.bricks[k].status && !Inside(g.bricks[k], g.ball.x, g.ball.y))
  {
    CollideKillsExactlyHits(g.bricks, g.ball.x, g.ball.y, k);
  }

  /** The score rises by the number of bricks hit, so score plus alive bricks stays 15
      and the score never passes the number of bricks. */
  lemma TickScore(g: GameState, w: I32, h: I32, input: Intent, offsetLeft: I32)
    requires Inv(g)
    ensures var next := Step(g, w, h, input, offsetLeft).next;
      && next.score == g.score + HitCount(g.bricks, g.ball.x, g.ball.y)
      && next.score + AliveCount(next.bricks) == COUNT
      && g.score <= next.score <= COUNT
  {
    CollisionPhaseKeepsInv(g);
  }

  /** The win is signalled exactly when the scan leaves no brick alive. */
  lemma WonIffCleared(g: GameState, w: I32, h: I32, input: Intent, offsetLeft: I32)
    requires Inv(g)
    ensures var o := Step(g, w, h, input, offsetLeft);
      && (o.status.won <==> AliveCount(o.next.bricks) == 0)
      && (o.status.won <==> o.next.score == COUNT)
  {
    CollisionPhaseKeepsInv(g);
  }

  /** The scan negates `dy` once per brick it kills, so `dy` ends turned around exactly
      when an odd number of bricks was hit. */
  lemma ScanFlipsDyPerKill(g: GameState)
    requires Inv(g)
    ensures var n := HitCount(g.bricks, g.ball.x, g.ball.y);
      CollisionPhase(g).ball.dy == if n % 2 == 1 then -g.ball.dy else g.ball.dy
  {
  }

  /** On the grid the scan hits at most one brick, and the ball turns around vertically
      exactly when some alive brick contains its centre. */
  lemma BrickBounce(g: GameState)
    requires Inv(g)
    ensures HitCount(g.bricks, g.ball.x, g.ball.y) <= 1
    ensures CollisionPhase(g).ball.dy == -g.ball.dy
        <==> exists k :: 0 <= k < |g.bricks| && Hit(g.bricks[k], g.ball.x, g.ball.y)
  {
    GridHitsAtMostOne(g.bricks, g.ball.x, g.ball.y, |g.bricks|);
    NoHitsIff(g.bricks, g.ball.x, g.ball.y, |g.bricks|);
  }

  // ---------------------------------------------------------------- walls and bottom

  /** `dx` flips exactly when the projected x is past the right or left wall, unless the
      ball was put back at its start, which moves it right again. */
  lemma SideWallBounce(g: GameState, w: I32, h: I32, input: Intent, offsetLeft: I32)
    requires Inv(g) && CanvasOk(w, h)
    ensures var o := Step(g, w, h, input, offsetLeft);
      var movedX := SatAdd(g.ball.x, g.ball.dx);
      && (o.status.round != RoundReset ==>
            (o.next.ball.dx == -g.ball.dx <==> movedX > w - BALL_RADIUS || movedX < BALL_RADIUS))
      && (o.status.round == RoundReset ==> o.next.ball.dx == BALL_SPEED)
  {
  }

  /** Past the top wall `dy` flips and nothing happens at the bottom. */
  lemma TopWallBounce(g: GameState, w: I32, h: I32, input: Intent, offsetLeft: I32)
    requires Inv(g) && CanvasOk(w, h)
    requires ProjectedY(g) < BALL_RADIUS
    ensures var o := Step(g, w, h, input, offsetLeft);
      && o.status.round == Continue && o.next.lives == g.lives
      && o.next.ball.dy == -CollisionPhase(g).ball.dy
  {
  }

  /** At the bottom, a paddle strictly under the ball centre sends it back up; no life
      is lost. */
  lemma PaddleBounce(g: GameState, w: I32, h: I32, input: Intent, offsetLeft: I32)
    requires Inv(g) && CanvasOk(w, h)
    requires BALL_RADIUS <= ProjectedY(g) && ProjectedY(g) > h - BALL_RADIUS
    requires OverPaddle(g.ball.x, g.paddle)
    ensures var o := Step(g, w, h, input, offsetLeft);
      && o.status.round == Continue && o.next.lives == g.lives
      && o.next.ball.dy == -CollisionPhase(g).ball.dy
  {
  }

  /** Between the walls the vertical direction is the scan's and no life is lost. */
  lemma NoVerticalBounce(g: GameState, w: I32, h: I32, input: Intent, offsetLeft: I32)
    requires Inv(g) && CanvasOk(w, h)
    requires BALL_RADIUS <= ProjectedY(g) <= h - BALL_RADIUS
    ensures var o := Step(g, w, h, input, offsetLeft);
      && o.status.round == Continue && o.next.lives == g.lives
      && o.next.ball.dy == CollisionPhase(g).ball.dy
  {
  }

  /** Lives change only on a miss. The game is lost exactly on a miss with at most one
      life left (lives saturate at 0); any other miss starts a new round. */
  lemma RoundOutcome(g: GameState, w: I32, h: I32, input: Intent, offsetLeft: I32)
    requires Inv(g) && CanvasOk(w, h)
    ensures var o := Step(g, w, h, input, offsetLeft);
      && (o.status.round == Lost <==> Missed(g, h) && g.lives <= 1)
      && (o.status.round == RoundReset <==> Missed(g, h) && g.lives > 1)
      && (!Missed(g, h) ==> o.next.lives == g.lives)
  {
  }

  /** A miss costs one life, saturating at 0. With lives left the ball restarts at
      (w / 2, h - 30) with velocity (2, -2) and has made its first move by the end of the
      tick; with none left the ball is not repositioned and just moves on. */
  lemma BallMissed(g: GameState, w: I32, h: I32, input: Intent, offsetLeft: I32)
    requires Inv(g) && CanvasOk(w, h)
    requires Missed(g, h)
    ensures var o := Step(g, w, h, input, offsetLeft);
      && o.next.lives == (if g.lives > 0 then g.lives - 1 else 0)
      && (o.next.lives > 0 ==>
            o.next.ball == Ball(Half(w) + BALL_SPEED, h - BALL_START_RISE - BALL_SPEED,
                                BALL_RADIUS, BALL_SPEED, -BALL_SPEED))
      && (o.next.lives == 0 ==>
            o.next.ball.x == SatAdd(g.ball.x, o.next.ball.dx)
            && o.next.ball.y == SatAdd(g.ball.y, o.next.ball.dy))
  {
  }

  // ---------------------------------------------------------------- paddle and ball

  /** The arrow keys move the paddle 7 pixels, right taking priority, and stop it at the
      edges, from any x, including the off-canvas ones the pointer leaves: holding right
      from beyond w - 75 pulls the paddle back to w - 75 and holding left from below 0
      pushes it to 0. */
  lemma KeyboardMoveSteps(x: I32, w: I32, right: bool, left: bool)
    requires I32_MIN + PADDLE_WIDTH <= w
    ensures var r := KeyboardMove(x, PADDLE_WIDTH, w, right, left);
      && (right ==> r == (if x + PADDLE_STEP <= w - PADDLE_WIDTH then x + PADDLE_STEP else w - PADDLE_WIDTH))
      && (!right && left ==> r == (if x >= PADDLE_STEP then x - PADDLE_STEP else 0))
      && (!right && !left ==> r == x)
  {
  }

  /** A paddle inside the canvas stays inside whatever keys are held. */
  lemma KeyboardMoveInBounds(x: I32, w: I32, right: bool, left: bool)
    requires PADDLE_WIDTH <= w && 0 <= x <= w - PADDLE_WIDTH
    ensures 0 <= KeyboardMove(x, PADDLE_WIDTH, w, right, left) <= w - PADDLE_WIDTH
  {
    KeyboardMoveSteps(x, w, right, left);
  }

  /** A pointer over the canvas centres the paddle under it whatever the keys say;
      otherwise the keys alone move the paddle, from the centre after a new round. */
  lemma PointerOverridesKeys(g: GameState, w: I32, h: I32, input: Intent, offsetLeft: I32)
    requires Inv(g) && CanvasOk(w, h)
    ensures var o := Step(g, w, h, input, offsetLeft);
      var relativeX := SatSub(input.mouseX, offsetLeft);
      && (0 < relativeX < w ==> o.next.paddle.x == relativeX - PADDLE_WIDTH / 2)
      && (!(0 < relativeX < w) && o.status.round != RoundReset ==>
            o.next.paddle.x == KeyboardMove(g.paddle.x, PADDLE_WIDTH, w, input.right, input.left))
      && (!(0 < relativeX < w) && o.status.round == RoundReset ==>
            o.next.paddle.x == KeyboardMove(CenteredX(w, PADDLE_WIDTH), PADDLE_WIDTH, w, input.right, input.left))
  {
  }

  /** The pointer is not clamped: just inside the canvas's left edge it puts the paddle
      partly off the canvas, so the paddle does not always stay within the canvas. */
  lemma PointerCanPushPaddleOff(g: GameState, w: I32, h: I32, input: Intent, offsetLeft: I32)
    requires Inv(g) && CanvasOk(w, h) && 1 < w
    requires input.mouseX == offsetLeft + 1
    ensures Step(g, w, h, input, offsetLeft).next.paddle.x == 1 - PADDLE_WIDTH / 2 < 0
  {
  }

  /** Unless a new round started, the ball moves from where it was by its new
      velocity, saturating at the `i32` range. */
  lemma BallAdvances(g: GameState, w: I32, h: I32, input: Intent, offsetLeft: I32)
    requires Inv(g)
    ensures var o := Step(g, w, h, input, offsetLeft);
      o.status.round != RoundReset ==>
        o.next.ball.x == SatAdd(g.ball.x, o.next.ball.dx)
        && o.next.ball.y == SatAdd(g.ball.y, o.next.ball.dy)
        && o.next.ball.radius == g.ball.radius
  {
  }

  // ---------------------------------------------------------------- initial paddle

  /** As written, the first paddle leaves a left margin 64 to 65 pixels wider than the
      right one on any canvas at least as wide as the paddle: on a 480-pixel canvas it
      starts at 235 (margins 235 and 170) instead of the centred 202. */
  lemma PaddleStartOffCentre(w: I32)
    requires PADDLE_WIDTH <= w
    ensures var x := PaddleStartAsWritten(w);
      64 <= x - (w - (x + PADDLE_WIDTH)) <= 65
    ensures PaddleStartAsWritten(480) == 235 && CenteredX(480, PADDLE_WIDTH) == 202
  {
  }

  /** The centred start, which a new round uses and the first round evidently should,
      leaves margins on the two sides that differ by at most one pixel. */
  lemma CenteredXIsCentred(w: I32)
    requires PADDLE_WIDTH <= w
    ensures var x := CenteredX(w, PADDLE_WIDTH);
      0 <= x && -1 <= x - (w - (x + PADDLE_WIDTH)) <= 0
  {
  }
}
