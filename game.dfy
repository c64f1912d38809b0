/** The page's mutable game objects: the `ball`, the two paddle records and
    the `keys` flags, updated field by field as the listeners and the frame
    functions do. Each method is proved to leave the objects in the state that
    the matching rule of `Physics` or `Input` gives for the state before. */
module Game {
  import Input
  import Physics

  /** The `ball` record. Its size and target speed never change. */
  class Ball {
    var x: real
    var y: real
    var dx: real
    var dy: real
    const size: real := Physics.BallSize
    const speed: real := Physics.BallSpeed

    function State(): Physics.Ball
      reads this
    {
      Physics.Ball(x, y, dx, dy)
    }

    /** The ball as the page declares it: at the centre, standing still. */
    constructor ()
      ensures State() == Physics.Ball(Physics.Width / 2.0, Physics.Height / 2.0, 0.0, 0.0)
    {
      x := Physics.Width / 2.0;
      y := Physics.Height / 2.0;
      dx := 0.0;
      dy := 0.0;
    }
  }

  /** A paddle record: only `x` and `score` change. */
  class Paddle {
    var x: real
    const y: real
    const width: real := Physics.PaddleWidth
    const height: real := Physics.PaddleHeight
    const step: real
    var score: nat

    function State(): Physics.Paddle
      reads this
    {
      Physics.Paddle(x, y, step, score)
    }

    /** A paddle centred across the canvas on row `y`, with no points. */
    constructor (y: real, step: real)
      ensures State() == Physics.Paddle(Physics.Width / 2.0 - Physics.PaddleWidth / 2.0, y, step, 0)
    {
      x := Physics.Width / 2.0 - Physics.PaddleWidth / 2.0;
      this.y := y;
      this.step := step;
      score := 0;
    }
  }

  /** The `keys` record. */
  class Keys {
    var a: bool
    var d: bool

    function State(): Input.Keys
      reads this
    {
      Input.Keys(a, d)
    }

    constructor ()
      ensures State() == Input.Keys(false, false)
    {
      a := false;
      d := false;
    }
  }

  /** The four objects the page keeps at module level, and the functions that update them. */
  class Pong {
    const ball: Ball
    const player: Paddle
    const computer: Paddle
    const keys: Keys

    /** Two distinct paddles on the rows and with the steps the page gives them. */
    ghost predicate Valid()
    {
      player != computer &&
      player.y == Physics.PlayerY && player.step == Physics.PlayerStep &&
      computer.y == Physics.ComputerY && computer.step == Physics.ComputerStep
    }

    function Model(): Physics.World
      reads ball, player, computer, keys
    {
      Physics.World(ball.State(), player.State(), computer.State(), keys.State())
    }

    /** Creates the objects as the page declares them, then serves once, as the
        page does before its first frame. */
    constructor (s: Physics.Serve)
      ensures Valid() && Physics.Standard(Model())
      ensures fresh(ball) && fresh(player) && fresh(computer) && fresh(keys)
      ensures Model() == Physics.World(
                Physics.Reset(s),
                Physics.Paddle(Physics.Width / 2.0 - Physics.PaddleWidth / 2.0, Physics.PlayerY, Physics.PlayerStep, 0),
                Physics.Paddle(Physics.Width / 2.0 - Physics.PaddleWidth / 2.0, Physics.ComputerY, Physics.ComputerStep, 0),
                Input.Keys(false, false))
    {
      ball := new Ball();
      player := new Paddle(Physics.PlayerY, Physics.PlayerStep);
      computer := new Paddle(Physics.ComputerY, Physics.ComputerStep);
      keys := new Keys();
      new;
      ResetBall(s);
    }

    /** The keydown listener: sets the flag of `a`/`A` or `d`/`D`; nothing else changes. */
    method KeyDown(key: string)
      modifies keys
      ensures Model() == old(Model()).(keys := Input.KeyDown(old(Model()).keys, key))
    {
      if Input.Lower(key) == "a" {
        keys.a := true;
      }
      if Input.Lower(key) == "d" {
        keys.d := true;
      }
    }

    /** The keyup listener: clears the flag of `a`/`A` or `d`/`D`; nothing else changes. */
    method KeyUp(key: string)
      modifies keys
      ensures Model() == old(Model()).(keys := Input.KeyUp(old(Model()).keys, key))
    {
      if Input.Lower(key) == "a" {
        keys.a := false;
      }
      if Input.Lower(key) == "d" {
        keys.d := false;
      }
    }

    /** handlePlayerInput: each held key moves the player's paddle by its step. */
    method HandlePlayerInput()
      requires Valid()
      modifies player
      ensures Model() == Physics.HandleInput(old(Model()))
    {
      if keys.a {
        player.x := player.x - player.step;
      }
      if keys.d {
        player.x := player.x + player.step;
      }
    }

    /** movePaddles: the computer's paddle tracks the ball, then both paddles are
        clamped onto the canvas. */
    method MovePaddles()
      requires Valid()
      modifies player, computer
      ensures Model() == Physics.MovePaddles(old(Model()))
      ensures Physics.InBounds(player.State()) && Physics.InBounds(computer.State())
    {
      var paddleCenter := computer.x + computer.width / 2.0;
      var ballCenter := ball.x;
      if paddleCenter < ballCenter - Physics.DeadZone {
        computer.x := computer.x + computer.step;
      } else if paddleCenter > ballCenter + Physics.DeadZone {
        computer.x := computer.x - computer.step;
      }
      player.x := Physics.Max(0.0, Physics.Min(Physics.Width - player.width, player.x));
      computer.x := Physics.Max(0.0, Physics.Min(Physics.Width - computer.width, computer.x));
    }

    /** checkPaddleCollision: true exactly when the ball's bounding square and the
        paddle share a point; it reads the two objects and changes nothing. */
    function CheckPaddleCollision(p: Paddle): (r: bool)
      reads ball, p
      ensures r <==> exists qx, qy :: Physics.InSquare(ball.State(), qx, qy) && Physics.InPaddle(p.State(), qx, qy)
    {
      Physics.CollidesIffSharedPoint(ball.State(), p.State());
      Physics.Collides(ball.State(), p.State())
    }

    /** The body of either paddle branch of moveBall: force the direction of dy,
        re-angle dx from the hit point, rescale to the ball's speed (the
        currentSpeed / speedFactor lines, as `Physics.Rescale`), and set the
        ball one unit clear of the paddle. */
    method Rebound(p: Paddle, upward: bool, sqrt: real -> real)
      requires Physics.IsSqrt(sqrt)
      requires ball.dy != 0.0
      modifies ball
      ensures ball.State() == Physics.Bounce(old(ball.State()), p.State(), upward, sqrt)
    {
      ball.dy := if upward then -Physics.Abs(ball.dy) else Physics.Abs(ball.dy);
      var hitPoint := (ball.x - p.x) / p.width;
      ball.dx := (hitPoint - 0.5) * Physics.Spread;
      var scaled := Physics.Rescale(ball.dx, ball.dy, sqrt);
      ball.dx := scaled.0;
      ball.dy := scaled.1;
      if upward {
        ball.y := p.y - ball.size - 1.0;
      } else {
        ball.y := p.y + p.height + ball.size + 1.0;
      }
    }

    /** moveBall: advance, reflect off the side walls, rebound off at most one
        paddle, then score and serve again if the ball has left the field. */
    method MoveBall(sqrt: real -> real, s: Physics.Serve)
      requires Valid() && Physics.IsSqrt(sqrt)
      modifies ball, player, computer
      ensures Model() == Physics.MoveBall(old(Model()), sqrt, s)
    {
      ball.x := ball.x + ball.dx;
      ball.y := ball.y + ball.dy;
      if ball.x + ball.size > Physics.Width || ball.x - ball.size < 0.0 {
        ball.dx := ball.dx * -1.0;
      }
      assert ball.State() == Physics.BounceWalls(Physics.Advance(old(ball.State())));

      if CheckPaddleCollision(player) && ball.dy > 0.0 {
        Rebound(player, true, sqrt);
      } else if CheckPaddleCollision(computer) && ball.dy < 0.0 {
        Rebound(computer, false, sqrt);
      }
      assert ball.State() == Physics.Travel(old(Model()), sqrt);

      if ball.y - ball.size < 0.0 {
        if ball.dy < 0.0 {
          player.score := player.score + 1;
          ResetBall(s);
        }
      } else if ball.y + ball.size > Physics.Height {
        if ball.dy > 0.0 {
          computer.score := computer.score + 1;
          ResetBall(s);
        }
      }
    }

    /** resetBall: back to the centre with a velocity built from the drawn sine,
        cosine and coin, each component raised to at least MinSpeed. */
    method ResetBall(s: Physics.Serve)
      modifies ball
      ensures ball.State() == Physics.Reset(s)
    {
      ball.x := Physics.Width / 2.0;
      ball.y := Physics.Height / 2.0;
      ball.dx := ball.speed * s.sin;
      if Physics.Abs(ball.dx) < Physics.MinSpeed {
        if ball.dx >= 0.0 {
          ball.dx := Physics.MinSpeed;
        } else {
          ball.dx := -Physics.MinSpeed;
        }
      }
      ball.dy := ball.speed * s.cos * (if s.coin > 0.5 then 1.0 else -1.0);
      if Physics.Abs(ball.dy) < Physics.MinSpeed {
        if ball.dy >= 0.0 {
          ball.dy := Physics.MinSpeed;
        } else {
          ball.dy := -Physics.MinSpeed;
        }
      }
    }

    /** One frame of gameLoop without drawing: input, then paddles, then ball. */
    method Step(sqrt: real -> real, s: Physics.Serve)
      requires Valid() && Physics.IsSqrt(sqrt)
      modifies ball, player, computer
      ensures Model() == Physics.Frame(old(Model()), sqrt, s)
    {
      HandlePlayerInput();
      MovePaddles();
      MoveBall(sqrt, s);
    }
  }
}
