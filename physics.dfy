/** The per-frame rules of portrait Pong on exact reals: player input, the
    computer's tracking, the paddle clamp, collision, rebound, scoring and the
    serve. Each function takes the state before a step and gives the state after. */
module Physics {
  import opened Input

  // canvas.width and canvas.height
  const Width: real := 400.0
  const Height: real := 600.0
  // ball.size (half the side of the ball's bounding square) and ball.speed
  const BallSize: real := 10.0
  const BallSpeed: real := 3.0
  // paddleWidth and paddleHeight, shared by both paddles
  const PaddleWidth: real := 80.0
  const PaddleHeight: real := 10.0
  // the rows the paddles sit on and the distance each moves in one frame
  const PlayerY: real := Height - 30.0
  const ComputerY: real := 30.0
  const PlayerStep: real := 5.0
  const ComputerStep: real := 4.0
  // half-width of the band around ball.x in which the computer's paddle rests
  const DeadZone: real := 35.0
  // a rebound's dx before rescaling runs over [-Spread/2, Spread/2] across the paddle
  const Spread: real := 6.0
  // the least |dx| and |dy| a serve leaves the ball with
  const MinSpeed: real := 1.5
  // the right-most x a paddle may take
  const MaxX: real := Width - PaddleWidth

  /** The mutable part of the `ball` record: centre and velocity. */
  datatype Ball = Ball(x: real, y: real, dx: real, dy: real)

  /** A paddle record: `x` moves, `y` and `step` (its `dx`) are fixed, `score` counts its side's points. */
  datatype Paddle = Paddle(x: real, y: real, step: real, score: nat)

  datatype World = World(ball: Ball, player: Paddle, computer: Paddle, keys: Keys)

  /** What one serve draws from the host: `Math.sin(angle)`, `Math.cos(angle)`
      and the second `Math.random()` that picks the vertical direction. */
  datatype Serve = Serve(sin: real, cos: real, coin: real)

  /** `Math.sqrt`, taken as exact: a non-negative root of every non-negative
      real, positive for a positive argument. */
  ghost predicate IsSqrt(sqrt: real -> real)
  {
    forall v :: 0.0 <= v ==> 0.0 <= sqrt(v) && sqrt(v) * sqrt(v) == v && (0.0 < v ==> 0.0 < sqrt(v))
  }

  function Abs(v: real): real
  {
    if v < 0.0 then -v else v
  }

  function Min(a: real, b: real): real
  {
    if a <= b then a else b
  }

  function Max(a: real, b: real): real
  {
    if a <= b then b else a
  }

  /** The paddles on the rows and with the steps the page gives them. */
  predicate Standard(w: World)
  {
    w.player.y == PlayerY && w.player.step == PlayerStep &&
    w.computer.y == ComputerY && w.computer.step == ComputerStep
  }

  predicate InBounds(p: Paddle)
  {
    0.0 <= p.x <= MaxX
  }

  // ---------------------------------------------------------------- paddles

  /** handlePlayerInput: each held key applies its own step; only the player's x changes. */
  function HandleInput(w: World): (r: World)
    ensures r == w.(player := w.player.(x := r.player.x))
    ensures !w.keys.a && !w.keys.d ==> r.player.x == w.player.x
    ensures w.keys.a && !w.keys.d ==> r.player.x == w.player.x - w.player.step
    ensures !w.keys.a && w.keys.d ==> r.player.x == w.player.x + w.player.step
    ensures w.keys.a && w.keys.d ==> r.player.x == w.player.x
  {
    var x := if w.keys.a then w.player.x - w.player.step else w.player.x;
    var x' := if w.keys.d then x + w.player.step else x;
    w.(player := w.player.(x := x'))
  }

  function Centre(p: Paddle): real
  {
    p.x + PaddleWidth / 2.0
  }

  /** The computer's move before the clamp: rest inside the dead zone around
      `ballX`, otherwise one step toward it, which brings the centre exactly one
      step closer. */
  function Track(p: Paddle, ballX: real): (r: Paddle)
    ensures r == p.(x := r.x)
    ensures Abs(Centre(p) - ballX) <= DeadZone ==> r == p
    ensures Centre(p) < ballX - DeadZone ==> r.x == p.x + p.step
    ensures ballX + DeadZone < Centre(p) ==> r.x == p.x - p.step
    ensures 0.0 <= p.step <= DeadZone && DeadZone < Abs(Centre(p) - ballX) ==>
              Abs(Centre(r) - ballX) == Abs(Centre(p) - ballX) - p.step
  {
    if Centre(p) < ballX - DeadZone then p.(x := p.x + p.step)
    else if ballX + DeadZone < Centre(p) then p.(x := p.x - p.step)
    else p
  }

  /** `Math.max(0, Math.min(canvas.width - width, x))`: the nearest position that keeps the paddle on the canvas. */
  function Clamp(x: real): (r: real)
    ensures 0.0 <= r <= MaxX
    ensures 0.0 <= x <= MaxX ==> r == x
    ensures x < 0.0 ==> r == 0.0
    ensures MaxX < x ==> r == MaxX
  {
    Max(0.0, Min(MaxX, x))
  }

  /** movePaddles: the computer tracks the ball, then both paddles are clamped;
      afterwards both lie on the canvas whatever they were before. */
  function MovePaddles(w: World): (r: World)
    ensures r.ball == w.ball && r.keys == w.keys
    ensures r.player == w.player.(x := Clamp(w.player.x))
    ensures r.computer == w.computer.(x := Clamp(Track(w.computer, w.ball.x).x))
    ensures InBounds(r.player) && InBounds(r.computer)
  {
    var computer := Track(w.computer, w.ball.x);
    w.(player := w.player.(x := Clamp(w.player.x)),
       computer := computer.(x := Clamp(computer.x)))
  }

  // -------------------------------------------------------------- collision

  /** checkPaddleCollision: strict overlap of the ball's bounding square and the
      paddle, which is the ball's centre lying strictly within BallSize plus the
      paddle's half-extent of the paddle's centre on each axis. */
  predicate Collides(b: Ball, p: Paddle)
    ensures Collides(b, p) <==>
              Abs(b.x - Centre(p)) < BallSize + PaddleWidth / 2.0 &&
              Abs(b.y - (p.y + PaddleHeight / 2.0)) < BallSize + PaddleHeight / 2.0
  {
    b.y + BallSize > p.y && b.y - BallSize < p.y + PaddleHeight &&
    b.x + BallSize > p.x && b.x - BallSize < p.x + PaddleWidth
  }

  /** The point lies strictly inside the ball's bounding square. */
  ghost predicate InSquare(b: Ball, qx: real, qy: real)
  {
    b.x - BallSize < qx < b.x + BallSize && b.y - BallSize < qy < b.y + BallSize
  }

  /** The point lies strictly inside the paddle. */
  ghost predicate InPaddle(p: Paddle, qx: real, qy: real)
  {
    p.x < qx < p.x + PaddleWidth && p.y < qy < p.y + PaddleHeight
  }

  /** Collision means the two open rectangles share a point. */
  lemma CollidesIffSharedPoint(b: Ball, p: Paddle)
    ensures Collides(b, p) <==> exists qx, qy :: InSquare(b, qx, qy) && InPaddle(p, qx, qy)
  {
    if Collides(b, p) {
      var qx := (Max(b.x - BallSize, p.x) + Min(b.x + BallSize, p.x + PaddleWidth)) / 2.0;
      var qy := (Max(b.y - BallSize, p.y) + Min(b.y + BallSize, p.y + PaddleHeight)) / 2.0;
      assert InSquare(b, qx, qy) && InPaddle(p, qx, qy);
    }
  }

  // ---------------------------------------------------------------- rebound

  /** Which paddle, if any, the ball rebounds from in one call. */
  datatype Hit = PlayerHit | ComputerHit | NoHit

  /** The guarded `if ... else if`: a hit counts only when the ball moves toward
      that paddle, so the two guards exclude each other. */
  function HitBy(b: Ball, player: Paddle, computer: Paddle): (h: Hit)
    ensures h == PlayerHit <==> Collides(b, player) && 0.0 < b.dy
    ensures h == ComputerHit <==> Collides(b, computer) && b.dy < 0.0
  {
    if Collides(b, player) && 0.0 < b.dy then PlayerHit
    else if Collides(b, computer) && b.dy < 0.0 then ComputerHit
    else NoHit
  }

  /** `(hitPoint - 0.5) * 6`: zero at the paddle's centre, positive to its right,
      and within [-3, 3] exactly when the ball's centre is over the paddle. */
  function Deflection(ballX: real, paddleX: real): (r: real)
    ensures r == 0.0 <==> ballX == paddleX + PaddleWidth / 2.0
    ensures 0.0 < r <==> paddleX + PaddleWidth / 2.0 < ballX
    ensures -Spread / 2.0 <= r <= Spread / 2.0 <==> paddleX <= ballX <= paddleX + PaddleWidth
  {
    ((ballX - paddleX) / PaddleWidth - 0.5) * Spread
  }

  lemma PositiveSum(a: real, b: real)
    requires b != 0.0
    ensures 0.0 < a * a + b * b
  {
  }

  /** Multiplying by a positive factor keeps the sign and scales the magnitude. */
  lemma ScaledSign(v: real, f: real)
    requires 0.0 < f
    ensures 0.0 < v * f <==> 0.0 < v
    ensures v * f < 0.0 <==> v < 0.0
    ensures Abs(v * f) == Abs(v) * f
  {
    if v < 0.0 {
      assert v * f < 0.0;
    } else if v == 0.0 {
      assert v * f == 0.0;
    } else {
      assert 0.0 < v * f;
    }
  }

  /** Scaling a velocity by `BallSpeed / |v|` gives it length BallSpeed. */
  lemma Rescaled(vx: real, vy: real, root: real, factor: real)
    requires 0.0 < root && root * root == vx * vx + vy * vy
    requires factor == BallSpeed / root
    ensures 0.0 < factor
    ensures (vx * factor) * (vx * factor) + (vy * factor) * (vy * factor) == BallSpeed * BallSpeed
  {
    assert factor * root == BallSpeed;
    calc {
      (vx * factor) * (vx * factor) + (vy * factor) * (vy * factor);
      (vx * vx + vy * vy) * (factor * factor);
      (root * root) * (factor * factor);
      (factor * root) * (factor * root);
    }
  }

  /** The renormalisation `speedFactor = ball.speed / Math.sqrt(dx * dx + dy * dy)`
      applied to both components: the result has length BallSpeed and points the
      same way as the input. A non-zero dy keeps the divisor positive. */
  function Rescale(vx: real, vy: real, sqrt: real -> real): (r: (real, real))
    requires IsSqrt(sqrt)
    requires vy != 0.0
    ensures r.0 * r.0 + r.1 * r.1 == BallSpeed * BallSpeed
    ensures 0.0 < r.1 <==> 0.0 < vy
    ensures r.1 < 0.0 <==> vy < 0.0
    ensures r.0 * Abs(vy) == Abs(r.1) * vx
  {
    PositiveSum(vx, vy);
    var currentSpeed := sqrt(vx * vx + vy * vy);
    var speedFactor := BallSpeed / currentSpeed;
    Rescaled(vx, vy, currentSpeed, speedFactor);
    ScaledSign(vy, speedFactor);
    (vx * speedFactor, vy * speedFactor)
  }

  /** The rebound from `p`: dy is forced up (off the player) or down (off the
      computer), dx is re-angled from where the ball struck, the velocity is
      rescaled to BallSpeed, and the ball is placed one unit clear of the face it
      struck. The guard's `dy != 0` keeps the divisor `currentSpeed` positive. */
  function Bounce(b: Ball, p: Paddle, upward: bool, sqrt: real -> real): (r: Ball)
    requires IsSqrt(sqrt)
    requires b.dy != 0.0
    ensures r.x == b.x
    ensures upward ==> r.dy < 0.0 && r.y == p.y - BallSize - 1.0
    ensures !upward ==> 0.0 < r.dy && r.y == p.y + PaddleHeight + BallSize + 1.0
    ensures r.dx * r.dx + r.dy * r.dy == BallSpeed * BallSpeed
    ensures r.dx * Abs(b.dy) == Abs(r.dy) * Deflection(b.x, p.x)
  {
    var dy := if upward then -Abs(b.dy) else Abs(b.dy);
    var v := Rescale(Deflection(b.x, p.x), dy, sqrt);
    Ball(b.x, if upward then p.y - BallSize - 1.0 else p.y + PaddleHeight + BallSize + 1.0, v.0, v.1)
  }

  // ------------------------------------------------------------ ball motion

  /** The first two lines of moveBall: the ball moves by exactly its velocity, which is kept. */
  function Advance(b: Ball): (r: Ball)
    ensures r.dx == b.dx && r.dy == b.dy
    ensures r.x - b.x == b.dx && r.y - b.y == b.dy
  {
    b.(x := b.x + b.dx, y := b.y + b.dy)
  }

  /** Side walls: an edge past either wall reverses dx, with no repositioning. */
  function BounceWalls(b: Ball): (r: Ball)
    ensures r == b.(dx := r.dx)
    ensures b.x + BallSize > Width || b.x - BallSize < 0.0 ==> r.dx == -b.dx
    ensures BallSize <= b.x <= Width - BallSize ==> r == b
  {
    if b.x + BallSize > Width || b.x - BallSize < 0.0 then b.(dx := b.dx * -1.0) else b
  }

  /** The paddle rebound of one call: at most one, and only toward the paddle struck. */
  function Deflect(b: Ball, player: Paddle, computer: Paddle, sqrt: real -> real): (r: Ball)
    requires IsSqrt(sqrt)
    ensures r.x == b.x
    ensures HitBy(b, player, computer) == PlayerHit ==>
              0.0 < b.dy && r.dy < 0.0 && r.y == player.y - BallSize - 1.0 &&
              r.dx * r.dx + r.dy * r.dy == BallSpeed * BallSpeed
    ensures HitBy(b, player, computer) == ComputerHit ==>
              b.dy < 0.0 && 0.0 < r.dy && r.y == computer.y + PaddleHeight + BallSize + 1.0 &&
              r.dx * r.dx + r.dy * r.dy == BallSpeed * BallSpeed
    ensures HitBy(b, player, computer) == NoHit ==> r == b
    ensures HitBy(b, player, computer) == PlayerHit ==> r == Bounce(b, player, true, sqrt)
    ensures HitBy(b, player, computer) == ComputerHit ==> r == Bounce(b, computer, false, sqrt)
  {
    match HitBy(b, player, computer)
    case PlayerHit => Bounce(b, player, true, sqrt)
    case ComputerHit => Bounce(b, computer, false, sqrt)
    case NoHit => b
  }

  /** The ball after moving, the side walls and the paddles, before scoring:
      x always moves by dx; without a paddle hit y moves by dy, dy is kept and dx
      keeps its size; after a hit the speed is BallSpeed. */
  function Travel(w: World, sqrt: real -> real): (r: Ball)
    requires IsSqrt(sqrt)
    ensures r.x == w.ball.x + w.ball.dx
    ensures HitBy(BounceWalls(Advance(w.ball)), w.player, w.computer) == NoHit ==>
              r.y == w.ball.y + w.ball.dy && r.dy == w.ball.dy && Abs(r.dx) == Abs(w.ball.dx)
    ensures HitBy(BounceWalls(Advance(w.ball)), w.player, w.computer) != NoHit ==>
              r.dx * r.dx + r.dy * r.dy == BallSpeed * BallSpeed
  {
    Deflect(BounceWalls(Advance(w.ball)), w.player, w.computer, sqrt)
  }

  /** Which side, if any, a ball scores for. */
  datatype Scoring = PlayerScores | ComputerScores | NoScore

  /** The scoring test: past the top edge while moving up scores for the player,
      past the bottom edge while moving down scores for the computer. */
  function ScoredBy(b: Ball): (s: Scoring)
    ensures s == PlayerScores <==> b.y - BallSize < 0.0 && b.dy < 0.0
    ensures s == ComputerScores <==> b.y + BallSize > Height && 0.0 < b.dy
  {
    if b.y - BallSize < 0.0 then (if b.dy < 0.0 then PlayerScores else NoScore)
    else if b.y + BallSize > Height then (if 0.0 < b.dy then ComputerScores else NoScore)
    else NoScore
  }

  /** The `minHorizontalSpeed` / `minVerticalSpeed` adjustment: a component
      smaller than MinSpeed in size is raised to MinSpeed, keeping its sign
      (zero counts as positive). */
  function AtLeastMin(v: real): (r: real)
    ensures Abs(r) == Max(Abs(v), MinSpeed)
    ensures 0.0 <= r <==> 0.0 <= v
  {
    if Abs(v) < MinSpeed then (if v >= 0.0 then MinSpeed else -MinSpeed) else v
  }

  /** resetBall: the ball goes back to the centre of the canvas; each velocity
      component is at least MinSpeed in size, and at most BallSpeed whenever the
      drawn sine and cosine are sines and cosines. */
  function Reset(s: Serve): (r: Ball)
    ensures r.x == Width / 2.0 && r.y == Height / 2.0
    ensures MinSpeed <= Abs(r.dx) && MinSpeed <= Abs(r.dy)
    ensures -1.0 <= s.sin <= 1.0 ==> Abs(r.dx) <= BallSpeed
    ensures -1.0 <= s.cos <= 1.0 ==> Abs(r.dy) <= BallSpeed
    ensures 0.0 <= r.dx <==> 0.0 <= s.sin
    ensures 0.0 < s.cos ==> (0.0 < r.dy <==> 0.5 < s.coin)
  {
    Ball(Width / 2.0, Height / 2.0,
         AtLeastMin(BallSpeed * s.sin),
         AtLeastMin(BallSpeed * s.cos * (if 0.5 < s.coin then 1.0 else -1.0)))
  }

  /** When neither component needs raising, a serve keeps the speed BallSpeed. */
  lemma ResetKeepsSpeed(s: Serve)
    requires s.sin * s.sin + s.cos * s.cos == 1.0
    requires MinSpeed <= Abs(BallSpeed * s.sin) && MinSpeed <= Abs(BallSpeed * s.cos)
    ensures Reset(s).dx * Reset(s).dx + Reset(s).dy * Reset(s).dy == BallSpeed * BallSpeed
  {
    var sign := if 0.5 < s.coin then 1.0 else -1.0;
    assert Abs(BallSpeed * s.cos * sign) == Abs(BallSpeed * s.cos);
    assert Reset(s).dx == BallSpeed * s.sin;
    assert Reset(s).dy == BallSpeed * s.cos * sign;
    calc {
      Reset(s).dx * Reset(s).dx + Reset(s).dy * Reset(s).dy;
      (BallSpeed * s.sin) * (BallSpeed * s.sin) + (BallSpeed * s.cos * sign) * (BallSpeed * s.cos * sign);
      BallSpeed * BallSpeed * (s.sin * s.sin + s.cos * s.cos) * (sign * sign);
    }
  }

  /** A straight serve (angle 0) is faster than BallSpeed: dx is raised from 0 to MinSpeed while dy stays BallSpeed. */
  lemma StraightServeIsFaster()
    ensures Reset(Serve(0.0, 1.0, 0.75)) == Ball(Width / 2.0, Height / 2.0, MinSpeed, BallSpeed)
    ensures MinSpeed * MinSpeed + BallSpeed * BallSpeed == 11.25
  {
  }

  /** moveBall: travel, then at most one side gains exactly one point and the
      ball is served again; otherwise the travelled ball stays and no score
      changes. Nothing else changes. */
  function MoveBall(w: World, sqrt: real -> real, s: Serve): (r: World)
    requires IsSqrt(sqrt)
    ensures r.keys == w.keys
    ensures r.player == w.player.(score := r.player.score)
    ensures r.computer == w.computer.(score := r.computer.score)
    ensures w.player.score <= r.player.score && w.computer.score <= r.computer.score
    ensures r.player.score + r.computer.score <= w.player.score + w.computer.score + 1
    ensures r.player.score == w.player.score + 1 <==> ScoredBy(Travel(w, sqrt)) == PlayerScores
    ensures r.computer.score == w.computer.score + 1 <==> ScoredBy(Travel(w, sqrt)) == ComputerScores
    ensures r.ball == if ScoredBy(Travel(w, sqrt)) == NoScore then Travel(w, sqrt) else Reset(s)
  {
    var b := Travel(w, sqrt);
    match ScoredBy(b)
    case PlayerScores => w.(ball := Reset(s), player := w.player.(score := w.player.score + 1))
    case ComputerScores => w.(ball := Reset(s), computer := w.computer.(score := w.computer.score + 1))
    case NoScore => w.(ball := b)
  }

  /** With the paddles on their rows, a rebound never scores in the same call. */
  lemma BounceNeverScores(w: World, sqrt: real -> real)
    requires IsSqrt(sqrt)
    requires Standard(w)
    requires HitBy(BounceWalls(Advance(w.ball)), w.player, w.computer) != NoHit
    ensures ScoredBy(Travel(w, sqrt)) == NoScore
  {
  }

  // ------------------------------------------------------------------ frame

  /** One pass of gameLoop without drawing: input, then paddles, then ball. */
  function Frame(w: World, sqrt: real -> real, s: Serve): (r: World)
    requires IsSqrt(sqrt)
    ensures r.keys == w.keys
    ensures InBounds(r.player) && InBounds(r.computer)
    ensures w.player.score <= r.player.score && w.computer.score <= r.computer.score
    ensures r.player.score + r.computer.score <= w.player.score + w.computer.score + 1
    ensures Standard(w) ==> Standard(r)
  {
    MoveBall(MovePaddles(HandleInput(w)), sqrt, s)
  }

  /** A still ball at the centre stays there for a frame with no key held, and no one scores. */
  lemma StillBallStays(w: World, sqrt: real -> real, s: Serve)
    requires IsSqrt(sqrt)
    requires w.ball == Ball(Width / 2.0, Height / 2.0, 0.0, 0.0)
    requires !w.keys.a && !w.keys.d
    ensures Frame(w, sqrt, s).ball == w.ball
    ensures Frame(w, sqrt, s).player.score == w.player.score
    ensures Frame(w, sqrt, s).computer.score == w.computer.score
  {
  }

  /** What happens between two frames, and the serve the frame draws if a point is scored. */
  datatype Tick = Tick(events: seq<KeyEvent>, serve: Serve)

  /** Every key event of a run of frames, in order. */
  function Events(ticks: seq<Tick>): seq<KeyEvent>
    decreases |ticks|
  {
    if ticks == [] then [] else ticks[0].events + Events(ticks[1..])
  }

  /** The game loop over a finite run of frames, each preceded by its key
      events. Frames never touch the flags, so the flags at the end are those
      of all the run's key events delivered in one go. */
  function Run(w: World, sqrt: real -> real, ticks: seq<Tick>): (r: World)
    requires IsSqrt(sqrt)
    ensures r.keys == DeliverAll(w.keys, Events(ticks))
    decreases |ticks|
  {
    if ticks == [] then w
    else
      var next := Frame(w.(keys := DeliverAll(w.keys, ticks[0].events)), sqrt, ticks[0].serve);
      DeliverAllAppend(w.keys, ticks[0].events, Events(ticks[1..]));
      Run(next, sqrt, ticks[1..])
  }

  /** Over any run, neither score falls, and the two together rise by at most one a frame. */
  lemma {:induction false} RunScores(w: World, sqrt: real -> real, ticks: seq<Tick>)
    requires IsSqrt(sqrt)
    ensures w.player.score <= Run(w, sqrt, ticks).player.score
    ensures w.computer.score <= Run(w, sqrt, ticks).computer.score
    ensures Run(w, sqrt, ticks).player.score + Run(w, sqrt, ticks).computer.score
            <= w.player.score + w.computer.score + |ticks|
    decreases |ticks|
  {
    if ticks != [] {
      var next := Frame(w.(keys := DeliverAll(w.keys, ticks[0].events)), sqrt, ticks[0].serve);
      RunScores(next, sqrt, ticks[1..]);
    }
  }

  /** After at least one frame both paddles are on the canvas, and the paddles keep their rows and steps. */
  lemma {:induction false} RunInBounds(w: World, sqrt: real -> real, ticks: seq<Tick>)
    requires IsSqrt(sqrt)
    ensures 0 < |ticks| ==> InBounds(Run(w, sqrt, ticks).player) && InBounds(Run(w, sqrt, ticks).computer)
    ensures Standard(w) ==> Standard(Run(w, sqrt, ticks))
    decreases |ticks|
  {
    if ticks != [] {
      var next := Frame(w.(keys := DeliverAll(w.keys, ticks[0].events)), sqrt, ticks[0].serve);
      RunInBounds(next, sqrt, ticks[1..]);
    }
  }
}
