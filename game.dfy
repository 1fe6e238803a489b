/**
 One game session: ball, paddle, brick field, score and lives on a canvas of fixed size,
 advanced one tick at a time. `Step` is the tick as a function of the state, the canvas
 size, the input snapshot and the canvas's left offset on the page; `Game.GameLoop`
 performs the same tick in place on the fields of a `Game` object and is proved to
 agree with `Step`.
 */
module Breakout {
  import opened Int32
  import opened Bricks
  import opened Input

  datatype Ball = Ball(x: I32, y: I32, radius: I32, dx: I32, dy: I32)

  /** The paddle moves only horizontally; it is drawn `height` above the canvas bottom. */
  datatype Paddle = Paddle(x: I32, width: I32, height: I32)

  const BALL_RADIUS := 10
  const BALL_SPEED := 2
  /** A new ball starts this far above the canvas bottom. */
  const BALL_START_RISE := 30
  const PADDLE_WIDTH := 75
  const PADDLE_HEIGHT := 10
  const PADDLE_STEP := 7
  const INITIAL_LIVES := 3

  /** Everything a tick changes. */
  datatype GameState = GameState(ball: Ball, paddle: Paddle, bricks: seq<Brick>, score: U16, lives: U16)

  /** What happened at the bottom of the canvas this tick. */
  datatype Round = Continue | RoundReset | Lost

  /** What a tick reports in place of the browser's alert and reload. The tick goes on
      after signalling a win, so one tick may report a win together with a round outcome. */
  datatype Status = Status(won: bool, round: Round)

  datatype Outcome = Outcome(next: GameState, status: Status)

  /** The paddle x that centres a paddle of `width` on a canvas `w` wide. */
  function CenteredX(w: I32, width: I32): I32 {
    Half(WrapSub(w, width))
  }

  /** The initial paddle x as `Game::new` computes it, `(canvas_width - 10) / 2`; a new
      round uses `CenteredX` instead. */
  function PaddleStartAsWritten(w: I32): I32 {
    Half(WrapSub(w, 10))
  }

  /** The session as created for a canvas `w` x `h`. */
  function Initial(w: I32, h: I32): GameState {
    GameState(Ball(Half(w), WrapSub(h, BALL_START_RISE), BALL_RADIUS, BALL_SPEED, -BALL_SPEED),
              Paddle(PaddleStartAsWritten(w), PADDLE_WIDTH, PADDLE_HEIGHT),
              Layout(), 0, INITIAL_LIVES)
  }

  /** `d` negated `n` times. */
  function Flip(d: I32, n: nat): I32 {
    if n % 2 == 0 then d else WrapNeg(d)
  }

  /** The brick scan: every alive brick containing the ball centre dies, adding one to the
      score and negating `dy` for each. */
  function CollisionPhase(g: GameState): GameState {
    var n := HitCount(g.bricks, g.ball.x, g.ball.y);
    g.(bricks := Collide(g.bricks, g.ball.x, g.ball.y),
       score := WrapAddU16(g.score, n),
       ball := g.ball.(dy := Flip(g.ball.dy, n)))
  }

  /** The win test after the scan: the score equals the number of bricks (as a `u16`). */
  predicate IsWin(g: GameState) {
    g.score == |g.bricks| % U16_MODULUS
  }

  /** The side walls: `dx` flips when the projected x is past either wall. */
  function WallBounce(b: Ball, w: I32): Ball {
    var movedX := SatAdd(b.x, b.dx);
    if movedX > WrapSub(w, b.radius) || movedX < b.radius then b.(dx := WrapNeg(b.dx)) else b
  }

  /** The ball centre is strictly between the paddle's ends. */
  predicate OverPaddle(x: I32, p: Paddle) {
    x > p.x && x < WrapAdd(p.x, p.width)
  }

  /** A ball back at its start: centre bottom, moving up and right. */
  function ResetBall(b: Ball, w: I32, h: I32): Ball {
    b.(x := Half(w), y := WrapSub(h, BALL_START_RISE), dx := BALL_SPEED, dy := -BALL_SPEED)
  }

  datatype Bounced = Bounced(state: GameState, round: Round)

  /** The top wall, or else the bottom: a paddle bounce, or a lost life followed by game
      over or a new round. `movedY` is the projected y. */
  function VerticalBounce(g: GameState, movedY: I32, w: I32, h: I32): Bounced {
    if movedY < g.ball.radius then
      Bounced(g.(ball := g.ball.(dy := WrapNeg(g.ball.dy))), Continue)
    else if movedY > WrapSub(h, g.ball.radius) then
      if OverPaddle(g.ball.x, g.paddle) then
        Bounced(g.(ball := g.ball.(dy := WrapNeg(g.ball.dy))), Continue)
      else
        var lives := SatSubU16(g.lives, 1);
        if lives == 0 then
          Bounced(g.(lives := lives), Lost)
        else
          Bounced(g.(lives := lives, ball := ResetBall(g.ball, w, h),
                     paddle := g.paddle.(x := CenteredX(w, g.paddle.width))), RoundReset)
    else
      Bounced(g, Continue)
  }

  /** The arrow keys: right takes priority; the paddle stops at either edge. */
  function KeyboardMove(x: I32, width: I32, w: I32, right: bool, left: bool): I32 {
    if right then Min(SatAdd(x, PADDLE_STEP), SatSub(w, width))
    else if left then Max(SatSub(x, PADDLE_STEP), 0)
    else x
  }

  /** The pointer, while over the canvas, places the paddle's centre under it. */
  function FollowMouse(x: I32, width: I32, w: I32, mouseX: I32, offsetLeft: I32): I32 {
    var relativeX := SatSub(mouseX, offsetLeft);
    if relativeX > 0 && relativeX < w then SatSub(relativeX, Half(width)) else x
  }

  function Integrate(b: Ball): Ball {
    b.(x := SatAdd(b.x, b.dx), y := SatAdd(b.y, b.dy))
  }

  /** The walls and the bottom, all decided on the ball's projected position. */
  function BouncePhase(g: GameState, w: I32, h: I32): Bounced {
    var movedY := SatAdd(g.ball.y, g.ball.dy);
    VerticalBounce(g.(ball := WallBounce(g.ball, w)), movedY, w, h)
  }

  /** The paddle after the keys and then the pointer have moved it. */
  function PaddlePhase(p: Paddle, w: I32, input: Intent, offsetLeft: I32): Paddle {
    var keyed := KeyboardMove(p.x, p.width, w, input.right, input.left);
    p.(x := FollowMouse(keyed, p.width, w, input.mouseX, offsetLeft))
  }

  /** One tick on a canvas `w` x `h` whose left edge is at `offsetLeft` on the page. */
  function Step(g: GameState, w: I32, h: I32, input: Intent, offsetLeft: I32): Outcome {
    var scanned := CollisionPhase(g);
    var bounced := BouncePhase(scanned, w, h);
    var s := bounced.state;
    Outcome(s.(paddle := PaddlePhase(s.paddle, w, input, offsetLeft), ball := Integrate(s.ball)),
            Status(IsWin(scanned), bounced.round))
  }

  /** What every tick keeps: the ball's radius and speed 2 on each axis, the paddle's size,
      the brick grid's rectangles, and one point of score per dead brick. */
  predicate Inv(g: GameState) {
    && g.ball.radius == BALL_RADIUS
    && (g.ball.dx == BALL_SPEED || g.ball.dx == -BALL_SPEED)
    && (g.ball.dy == BALL_SPEED || g.ball.dy == -BALL_SPEED)
    && g.paddle.width == PADDLE_WIDTH && g.paddle.height == PADDLE_HEIGHT
    && IsGrid(g.bricks)
    && g.score + AliveCount(g.bricks) == COUNT
  }

  lemma InitialInv(w: I32, h: I32)
    ensures Inv(Initial(w, h))
  {
    var bs := Layout();
    forall k | 0 <= k < |bs| ensures SameRect(bs[k], BrickAt(k)) && bs[k].status {
    }
    AllAliveCount(bs, |bs|);
  }

  lemma FlipOnceMore(d: I32, n: nat)
    ensures Flip(d, n + 1) == WrapNeg(Flip(d, n))
  {
  }

  class Game {
    const canvasWidth: I32
    const canvasHeight: I32
    const userInput: UserInput
    var ball: Ball
    var paddle: Paddle
    var bricks: seq<Brick>
    var score: U16
    var lives: U16

    function Model(): GameState
      reads this
    {
      GameState(ball, paddle, bricks, score, lives)
    }

    predicate Valid()
      reads this
    {
      Inv(Model())
    }

    /** `Game::new` for a canvas `canvasWidth` x `canvasHeight`. */
    constructor (canvasWidth: I32, canvasHeight: I32)
      ensures this.canvasWidth == canvasWidth && this.canvasHeight == canvasHeight
      ensures Model() == Initial(canvasWidth, canvasHeight) && Valid()
      ensures fresh(userInput) && userInput.Snapshot() == Intent(false, false, 0, 0)
    {
      var grid := New();
      this.canvasWidth := canvasWidth;
      this.canvasHeight := canvasHeight;
      ball := Ball(Half(canvasWidth), WrapSub(canvasHeight, BALL_START_RISE), BALL_RADIUS, BALL_SPEED, -BALL_SPEED);
      paddle := Paddle(PaddleStartAsWritten(canvasWidth), PADDLE_WIDTH, PADDLE_HEIGHT);
      userInput := new UserInput();
      bricks := grid;
      score := 0;
      lives := INITIAL_LIVES;
      new;
      assert bricks == Layout();
      InitialInv(canvasWidth, canvasHeight);
    }

    /** `Game::collision_detection`: scans every brick, without stopping at the first hit,
        then reports whether the score has reached the number of bricks. */
    method CollisionDetection() returns (won: bool)
      modifies this
      ensures Model() == CollisionPhase(old(Model()))
      ensures won == IsWin(Model())
      ensures old(Valid()) ==> Valid()
    {
      ghost var bs, x, y, dy := bricks, ball.x, ball.y, ball.dy;
      var i := 0;
      while i < |bricks|
        invariant 0 <= i <= |bricks| == |bs|
        invariant ball == old(ball).(dy := Flip(dy, HitsIn(bs, x, y, i)))
        invariant score == WrapAddU16(old(score), HitsIn(bs, x, y, i))
        invariant forall k :: 0 <= k < i ==> bricks[k] == Collide(bs, x, y)[k]
        invariant forall k :: i <= k < |bricks| ==> bricks[k] == bs[k]
        invariant paddle == old(paddle) && lives == old(lives)
      {
        var brick := bricks[i];
        if brick.status && ball.x > brick.x && ball.x < WrapAdd(brick.x, brick.width)
           && ball.y > brick.y && ball.y < WrapAdd(brick.y, brick.height)
        {
          FlipOnceMore(dy, HitsIn(bs, x, y, i));
          ball := ball.(dy := WrapNeg(ball.dy));
          bricks := bricks[i := brick.(status := false)];
          score := WrapAddU16(score, 1);
        }
        i := i + 1;
      }
      assert bricks == Collide(bs, x, y);
      won := score == |bricks| % U16_MODULUS;
      if old(Valid()) {
        CollisionPhaseKeepsInv(old(Model()));
      }
    }

    /** The simulation part of `Game::game_loop`, for a canvas whose left edge is at
        `offsetLeft` on the page. */
    method GameLoop(offsetLeft: I32) returns (status: Status)
      requires Valid()
      modifies this
      ensures Valid()
      ensures Outcome(Model(), status) == Step(old(Model()), canvasWidth, canvasHeight, userInput.Snapshot(), offsetLeft)
    {
      var won := CollisionDetection();
      var round := Bounce();
      MovePaddle(offsetLeft);
      ball := ball.(x := SatAdd(ball.x, ball.dx), y := SatAdd(ball.y, ball.dy));
      status := Status(won, round);
      StepPreservesInv(old(Model()), canvasWidth, canvasHeight, userInput.Snapshot(), offsetLeft);
    }

    /** The wall, paddle and bottom handling of `Game::game_loop`. */
    method Bounce() returns (round: Round)
      modifies this
      ensures Bounced(Model(), round) == BouncePhase(old(Model()), canvasWidth, canvasHeight)
      ensures old(Valid()) ==> Valid()
    {
      var movedX := SatAdd(ball.x, ball.dx);
      var movedY := SatAdd(ball.y, ball.dy);

      if movedX > WrapSub(canvasWidth, ball.radius) || movedX < ball.radius {
        ball := ball.(dx := WrapNeg(ball.dx));
      }

      round := Continue;
      if movedY < ball.radius {
        ball := ball.(dy := WrapNeg(ball.dy));
      } else if movedY > WrapSub(canvasHeight, ball.radius) {
        if ball.x > paddle.x && ball.x < WrapAdd(paddle.x, paddle.width) {
          ball := ball.(dy := WrapNeg(ball.dy));
        } else {
          lives := SatSubU16(lives, 1);
          if lives == 0 {
            round := Lost;
          } else {
            ball := ball.(x := Half(canvasWidth), y := WrapSub(canvasHeight, BALL_START_RISE),
                          dx := BALL_SPEED, dy := -BALL_SPEED);
            paddle := paddle.(x := CenteredX(canvasWidth, paddle.width));
            round := RoundReset;
          }
        }
      }
    }

    /** The keyboard and pointer handling of `Game::game_loop`. */
    method MovePaddle(offsetLeft: I32)
      modifies this
      ensures Model() == old(Model()).(paddle := PaddlePhase(old(paddle), canvasWidth, userInput.Snapshot(), offsetLeft))
      ensures old(Valid()) ==> Valid()
    {
      if userInput.keyboardRight {
        paddle := paddle.(x := Min(SatAdd(paddle.x, PADDLE_STEP), SatSub(canvasWidth, paddle.width)));
      } else if userInput.keyboardLeft {
        paddle := paddle.(x := Max(SatSub(paddle.x, PADDLE_STEP), 0));
      }

      var relativeX := SatSub(userInput.mouseX, offsetLeft);
      if relativeX > 0 && relativeX < canvasWidth {
        paddle := paddle.(x := SatSub(relativeX, Half(paddle.width)));
      }
    }
  }

  /** The brick scan keeps `Inv`: it kills as many bricks as it adds to the score. */
  lemma CollisionPhaseKeepsInv(g: GameState)
    requires Inv(g)
    ensures Inv(CollisionPhase(g))
    ensures CollisionPhase(g).score == g.score + HitCount(g.bricks, g.ball.x, g.ball.y)
  {
    var scanned := CollisionPhase(g);
    CollideAccounting(g.bricks, g.ball.x, g.ball.y, |g.bricks|);
    forall k | 0 <= k < |scanned.bricks| ensures SameRect(scanned.bricks[k], BrickAt(k)) {
      CollideKillsExactlyHits(g.bricks, g.ball.x, g.ball.y, k);
    }
  }

  /** Every tick keeps `Inv`; in particular the ball's speed stays 2 on each axis and
      the score stays the number of dead bricks. */
  lemma StepPreservesInv(g: GameState, w: I32, h: I32, input: Intent, offsetLeft: I32)
    requires Inv(g)
    ensures Inv(Step(g, w, h, input, offsetLeft).next)
  {
    CollisionPhaseKeepsInv(g);
    var bounced := BouncePhase(CollisionPhase(g), w, h).state;
    BouncePhaseKeepsInv(CollisionPhase(g), w, h);
    PaddlePhaseKeepsInv(bounced, w, input, offsetLeft);
  }

  /** The walls and the bottom keep `Inv`: they only negate the velocity components, or
      reset them to (2, -2) together with the ball's position and the paddle's x. */
  lemma BouncePhaseKeepsInv(g: GameState, w: I32, h: I32)
    requires Inv(g)
    ensures Inv(BouncePhase(g, w, h).state)
    ensures BouncePhase(g, w, h).state.bricks == g.bricks
    ensures BouncePhase(g, w, h).state.score == g.score
  {
  }

  /** Moving the paddle keeps `Inv`: only its x changes, never its size. */
  lemma PaddlePhaseKeepsInv(g: GameState, w: I32, input: Intent, offsetLeft: I32)
    requires Inv(g)
    ensures var p := PaddlePhase(g.paddle, w, input, offsetLeft);
      && p == g.paddle.(x := p.x)
      && Inv(g.(paddle := p))
  {
  }
}
