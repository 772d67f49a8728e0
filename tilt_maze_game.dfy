/**
 * TiltMazeGame.java: a ball steered through a fixed maze by tilting the device. Each PLAY frame
 * reads the accelerometer (remapped by screen rotation, offset by a calibration, normalised to g,
 * dead-zoned and low-pass filtered), turns the tilt into velocity, and moves the ball one axis at
 * a time, undoing an axis move that would overlap a wall. The sensor sample, the screen rotation,
 * the touch flags and the frame time are parameters.
 */
module TiltMaze {
  import opened Shapes
  import opened MathUtils

  const WorldW: real := 800.0
  const WorldH: real := 480.0

  /** Standard gravity, m/s^2: the accelerometer reading of one g. */
  const G: real := 9.81
  const LpfAlpha: real := 0.18
  /** Tilts below this many g are ignored. */
  const DeadZoneG: real := 0.05
  const Sensitivity: real := 1500.0
  const Damping: real := 0.90

  /** The thickness of the border walls, and the distance from the edge that counts as touching. */
  const Border: real := 20.0

  const BallRadius: real := 14.0
  const StartBall: Circle := Circle(80.0, 240.0, 14.0)

  /** The four border walls followed by the inner obstacles and the corridor towards the goal. */
  const MazeWalls: seq<Rect> := [
    Rect(0.0, 0.0, 800.0, 20.0),
    Rect(0.0, 460.0, 800.0, 20.0),
    Rect(0.0, 0.0, 20.0, 480.0),
    Rect(780.0, 0.0, 20.0, 480.0),
    Rect(150.0, 100.0, 500.0, 20.0),
    Rect(150.0, 360.0, 500.0, 20.0),
    Rect(150.0, 120.0, 20.0, 240.0),
    Rect(630.0, 120.0, 20.0, 240.0),
    Rect(700.0, 120.0, 20.0, 80.0),
    Rect(700.0, 260.0, 20.0, 100.0)
  ]

  const GoalRect: Rect := Rect(700.0, 200.0, 60.0, 80.0)

  datatype GameState = Start | Play | GameOver | Goal

  /** An accelerometer sample in m/s^2, gravity included (the z axis is never used). */
  datatype Accel = Accel(ax: real, ay: real)

  /** A tilt in screen axes: positive x is right, positive y is up. */
  datatype Tilt = Tilt(x: real, y: real)

  /** What a frame reads from the outside world. */
  datatype Frame = Frame(dt: real, touched: bool, twoFingers: bool, rotation: int, accel: Accel)

  /** Everything update reads or writes. */
  datatype Maze = Maze(ball: Circle, vx: real, vy: real, zeroX: real, zeroY: real,
                       filtX: real, filtY: real, state: GameState, playTime: real)

  // ---------------------------------------------------------------- tilt reading

  /** The device axes seen in screen axes, for each screen rotation in degrees. */
  function Remap(rotation: int, a: Accel): (t: Tilt)
    ensures t.x * t.x + t.y * t.y == a.ax * a.ax + a.ay * a.ay
  {
    if rotation == 90 then Tilt(a.ay, a.ax)
    else if rotation == 180 then Tilt(a.ax, -a.ay)
    else if rotation == 270 then Tilt(-a.ay, -a.ax)
    else Tilt(-a.ax, a.ay)
  }

  /** Upside-down rotations see the opposite tilt; unknown rotations are treated as portrait. */
  lemma RemapSymmetries(rotation: int, a: Accel)
    ensures Remap(180, a) == Tilt(-Remap(0, a).x, -Remap(0, a).y)
    ensures Remap(270, a) == Tilt(-Remap(90, a).x, -Remap(90, a).y)
    ensures rotation !in {0, 90, 180, 270} ==> Remap(rotation, a) == Remap(0, a)
  {
  }

  /** Small tilts are cut to zero; the rest pass unchanged. */
  function DeadZone(t: real): (r: real)
    ensures Abs(t) < DeadZoneG ==> r == 0.0
    ensures Abs(t) >= DeadZoneG ==> r == t
    ensures Abs(r) <= Abs(t)
  {
    if Abs(t) < DeadZoneG then 0.0 else t
  }

  /** The low-pass step: moves the filter a fixed fraction of the way towards the input. */
  function LowPass(filt: real, t: real): (r: real)
    ensures filt <= t ==> filt <= r <= t
    ensures t <= filt ==> t <= r <= filt
    ensures r - filt == LpfAlpha * (t - filt)
    ensures r == filt <==> t == filt
  {
    filt + LpfAlpha * (t - filt)
  }

  /** One axis of the filtered tilt: offset by the calibration, normalised to g, dead-zoned, filtered. */
  function FilterAxis(filt: real, raw: real, zero: real): real
  {
    LowPass(filt, DeadZone((raw - zero) / G))
  }

  /** The tilt reading: only the filters change. */
  function ReadTilt(m: Maze, rotation: int, a: Accel): Maze
  {
    var t := Remap(rotation, a);
    m.(filtX := FilterAxis(m.filtX, t.x, m.zeroX), filtY := FilterAxis(m.filtY, t.y, m.zeroY))
  }

  /** Calibration: the current remapped sample becomes the zero, and the filters restart. */
  function Calibrate(m: Maze, rotation: int, a: Accel): Maze
  {
    var t := Remap(rotation, a);
    m.(zeroX := t.x, zeroY := t.y, filtX := 0.0, filtY := 0.0)
  }

  /** Reading the very sample just calibrated on yields no tilt. */
  lemma CalibratedReadsLevel(m: Maze, rotation: int, a: Accel)
    ensures ReadTilt(Calibrate(m, rotation, a), rotation, a).filtX == 0.0
    ensures ReadTilt(Calibrate(m, rotation, a), rotation, a).filtY == 0.0
  {
    var c := Calibrate(m, rotation, a);
    var t := Remap(rotation, a);
    assert (t.x - c.zeroX) / G == 0.0;
    assert (t.y - c.zeroY) / G == 0.0;
  }

  /** The filter never leaves the range between its old value and the input it is fed. */
  lemma FilterStaysInRange(filt: real, t: real, lo: real, hi: real)
    requires lo <= filt <= hi && lo <= t <= hi
    ensures lo <= LowPass(filt, t) <= hi
  {
  }

  // ---------------------------------------------------------------- geometry

  /** The point of the rectangle nearest to the centre, one axis at a time. */
  function ClosestX(c: Circle, r: Rect): real { Clamp(c.x, r.x, r.x + r.width) }
  function ClosestY(c: Circle, r: Rect): real { Clamp(c.y, r.y, r.y + r.height) }

  function SqDist(x0: real, y0: real, x1: real, y1: real): real
  {
    (x0 - x1) * (x0 - x1) + (y0 - y1) * (y0 - y1)
  }

  predicate InRect(r: Rect, px: real, py: real)
  {
    r.x <= px <= r.x + r.width && r.y <= py <= r.y + r.height
  }

  /** The circle-rectangle test: the nearest point of the rectangle lies within the radius. */
  predicate CircleIntersectsRect(c: Circle, r: Rect)
  {
    SqDist(c.x, c.y, ClosestX(c, r), ClosestY(c, r)) <= c.radius * c.radius
  }

  /** Along one axis, the clamped coordinate is the nearest coordinate of the interval. */
  lemma ClampIsNearest(v: real, lo: real, hi: real, p: real)
    requires lo <= p <= hi
    ensures (v - Clamp(v, lo, hi)) * (v - Clamp(v, lo, hi)) <= (v - p) * (v - p)
  {
    var d := Abs(v - Clamp(v, lo, hi));
    var e := Abs(v - p);
    assert d <= e;
    SquareMonotone(d, e);
    assert d * d == (v - Clamp(v, lo, hi)) * (v - Clamp(v, lo, hi));
    assert e * e == (v - p) * (v - p);
  }

  /** The clamped point is the point of the rectangle nearest to the centre. */
  lemma ClosestIsNearest(c: Circle, r: Rect, px: real, py: real)
    requires InRect(r, px, py)
    ensures SqDist(c.x, c.y, ClosestX(c, r), ClosestY(c, r)) <= SqDist(c.x, c.y, px, py)
  {
    ClampIsNearest(c.x, r.x, r.x + r.width, px);
    ClampIsNearest(c.y, r.y, r.y + r.height, py);
  }

  /** The test is exact: it holds precisely when some point of the rectangle lies within the radius. */
  lemma IntersectsIffPointWithin(c: Circle, r: Rect)
    requires r.width >= 0.0 && r.height >= 0.0
    ensures CircleIntersectsRect(c, r) <==>
      exists px, py :: InRect(r, px, py) && SqDist(c.x, c.y, px, py) <= c.radius * c.radius
  {
    if CircleIntersectsRect(c, r) {
      assert InRect(r, ClosestX(c, r), ClosestY(c, r));
    } else {
      forall px, py | InRect(r, px, py)
        ensures SqDist(c.x, c.y, px, py) > c.radius * c.radius
      {
        ClosestIsNearest(c, r, px, py);
      }
    }
  }

  /** A centre inside the rectangle always intersects it. */
  lemma CentreInsideIntersects(c: Circle, r: Rect)
    requires InRect(r, c.x, c.y)
    ensures CircleIntersectsRect(c, r)
  {
    assert ClosestX(c, r) == c.x && ClosestY(c, r) == c.y;
    assert SqDist(c.x, c.y, c.x, c.y) == 0.0;
  }

  /** Whether the circle intersects one of the walls. */
  predicate Collides(walls: seq<Rect>, c: Circle)
  {
    exists i :: 0 <= i < |walls| && CircleIntersectsRect(c, walls[i])
  }

  /** The defeat test: the ball reaches within the border's thickness of an edge of the world. */
  predicate TouchesBorder(c: Circle)
  {
    c.x - c.radius <= Border || c.x + c.radius >= WorldW - Border ||
    c.y - c.radius <= Border || c.y + c.radius >= WorldH - Border
  }

  /** The victory test: the ball's bounding box overlaps the goal with positive area. */
  predicate OverlapsGoal(c: Circle, goal: Rect)
  {
    c.x + c.radius > goal.x && c.x - c.radius < goal.x + goal.width &&
    c.y + c.radius > goal.y && c.y - c.radius < goal.y + goal.height
  }

  /** The goal test is an axis-wise nearness test: on each axis the goal lies within the radius. */
  lemma OverlapsGoalIffNear(c: Circle, goal: Rect)
    requires goal.width >= 0.0 && goal.height >= 0.0 && c.radius > 0.0
    ensures OverlapsGoal(c, goal) <==>
      Abs(c.x - ClosestX(c, goal)) < c.radius && Abs(c.y - ClosestY(c, goal)) < c.radius
  {
  }

  // ---------------------------------------------------------------- the frame

  /** resetGame: the ball back at its start, at rest, with the clock at zero. */
  function Reset(m: Maze): Maze
  {
    m.(ball := StartBall, vx := 0.0, vy := 0.0, playTime := 0.0)
  }

  /** The speed gained over dt from a tilt of the given number of g. */
  function Gain(tilt: real, dt: real): real
  {
    tilt * Sensitivity * dt
  }

  /** The distance covered over dt at speed v. */
  function Travel(v: real, dt: real): real
  {
    v * dt
  }

  /** The tilt, cut to [-1, 1] g, accelerates the ball; then the speed is damped. */
  function Steer(m: Maze, dt: real): Maze
  {
    var tiltX := Clamp(m.filtX, -1.0, 1.0);
    var tiltY := Clamp(m.filtY, -1.0, 1.0);
    m.(vx := (m.vx + Gain(tiltX, dt)) * Damping, vy := (m.vy + Gain(tiltY, dt)) * Damping)
  }

  /** The horizontal move, kept inside the world; a move onto a wall is undone and stops the ball. */
  function MoveX(m: Maze, dt: real, walls: seq<Rect>): Maze
  {
    var moved := m.ball.(x := Clamp(m.ball.x + Travel(m.vx, dt), m.ball.radius, WorldW - m.ball.radius));
    if Collides(walls, moved) then m.(vx := 0.0) else m.(ball := moved)
  }

  /** The vertical move, likewise. */
  function MoveY(m: Maze, dt: real, walls: seq<Rect>): Maze
  {
    var moved := m.ball.(y := Clamp(m.ball.y + Travel(m.vy, dt), m.ball.radius, WorldH - m.ball.radius));
    if Collides(walls, moved) then m.(vy := 0.0) else m.(ball := moved)
  }

  /** The end of a PLAY frame: reaching the goal wins, even on a frame that also touches the border. */
  function Judge(m: Maze, goal: Rect): Maze
  {
    if OverlapsGoal(m.ball, goal) then m.(state := Goal)
    else if TouchesBorder(m.ball) then m.(state := GameOver)
    else m
  }

  function PlayFrame(m: Maze, f: Frame, walls: seq<Rect>, goal: Rect): Maze
  {
    var timed := m.(playTime := m.playTime + f.dt);
    var calibrated := if f.twoFingers then Calibrate(timed, f.rotation, f.accel) else timed;
    var read := ReadTilt(calibrated, f.rotation, f.accel);
    Judge(MoveY(MoveX(Steer(read, f.dt), f.dt, walls), f.dt, walls), goal)
  }

  /** One call of update. */
  function Advance(m: Maze, f: Frame, walls: seq<Rect>, goal: Rect): Maze
  {
    match m.state
    case Start => if f.touched then Reset(Calibrate(m, f.rotation, f.accel)).(state := Play) else m
    case GameOver => if f.touched then Reset(m).(state := Start) else m
    case Goal => if f.touched then Reset(m).(state := Start) else m
    case Play => PlayFrame(m, f, walls, goal)
  }

  // ---------------------------------------------------------------- properties of a frame

  /** A touch on the title screen calibrates on the current sample and starts a fresh game. */
  lemma StartTouchStartsPlay(m: Maze, f: Frame, walls: seq<Rect>, goal: Rect)
    requires m.state == Start && f.touched
    ensures var r := Advance(m, f, walls, goal);
      && r.state == Play && r.ball == StartBall && r.vx == 0.0 && r.vy == 0.0 && r.playTime == 0.0
      && Tilt(r.zeroX, r.zeroY) == Remap(f.rotation, f.accel) && r.filtX == 0.0 && r.filtY == 0.0
  {
  }

  /** A touch after a win or a defeat resets the ball and returns to the title screen. */
  lemma EndTouchReturnsToStart(m: Maze, f: Frame, walls: seq<Rect>, goal: Rect)
    requires (m.state == GameOver || m.state == Goal) && f.touched
    ensures var r := Advance(m, f, walls, goal);
      && r.state == Start && r.ball == StartBall && r.vx == 0.0 && r.vy == 0.0 && r.playTime == 0.0
      && r.zeroX == m.zeroX && r.zeroY == m.zeroY
  {
  }

  /** Outside PLAY, a frame without a touch changes nothing. */
  lemma IdleWithoutTouch(m: Maze, f: Frame, walls: seq<Rect>, goal: Rect)
    requires m.state != Play && !f.touched
    ensures Advance(m, f, walls, goal) == m
  {
  }

  /**
   * In PLAY the clock advances by dt, the radius stays, and the frame ends in the goal state when
   * the final ball overlaps the goal, whether or not it also touches the border.
   */
  lemma PlayFrameOutcome(m: Maze, f: Frame, walls: seq<Rect>, goal: Rect)
    requires m.state == Play
    ensures var r := Advance(m, f, walls, goal);
      && r.playTime == m.playTime + f.dt
      && r.ball.radius == m.ball.radius
      && (OverlapsGoal(r.ball, goal) ==> r.state == Goal)
      && (!OverlapsGoal(r.ball, goal) && TouchesBorder(r.ball) ==> r.state == GameOver)
      && (!OverlapsGoal(r.ball, goal) && !TouchesBorder(r.ball) ==> r.state == Play)
  {
  }

  /**
   * An axis move that would overlap a wall is undone: that coordinate keeps its value and that
   * speed drops to zero; otherwise the coordinate is the clamped target.
   */
  lemma MoveXRevertsOnCollision(m: Maze, dt: real, walls: seq<Rect>)
    ensures var moved := m.ball.(x := Clamp(m.ball.x + Travel(m.vx, dt), m.ball.radius, WorldW - m.ball.radius));
      var r := MoveX(m, dt, walls);
      && (Collides(walls, moved) ==> r.ball == m.ball && r.vx == 0.0)
      && (!Collides(walls, moved) ==> r.ball == moved && r.vx == m.vx)
      && r.vy == m.vy
  {
  }

  lemma MoveYRevertsOnCollision(m: Maze, dt: real, walls: seq<Rect>)
    ensures var moved := m.ball.(y := Clamp(m.ball.y + Travel(m.vy, dt), m.ball.radius, WorldH - m.ball.radius));
      var r := MoveY(m, dt, walls);
      && (Collides(walls, moved) ==> r.ball == m.ball && r.vy == 0.0)
      && (!Collides(walls, moved) ==> r.ball == moved && r.vy == m.vy)
      && r.vx == m.vx
  {
  }

  /** The ball's centre lies in the part of the world it can be clamped to. */
  predicate InArena(c: Circle)
  {
    c.radius <= c.x <= WorldW - c.radius && c.radius <= c.y <= WorldH - c.radius
  }

  /** A ball of the game's size, inside the world, overlapping no wall. */
  predicate Clear(walls: seq<Rect>, c: Circle)
  {
    c.radius == BallRadius && InArena(c) && !Collides(walls, c)
  }

  /** The ball starts clear of every wall of the maze. */
  lemma StartBallClear()
    ensures Clear(MazeWalls, StartBall)
  {
    forall i | 0 <= i < |MazeWalls|
      ensures !CircleIntersectsRect(StartBall, MazeWalls[i])
    {
      var w := MazeWalls[i];
      var dx := StartBall.x - ClosestX(StartBall, w);
      var dy := StartBall.y - ClosestY(StartBall, w);
      assert dx * dx > 196.0 || dy * dy > 196.0;
    }
  }

  /** A PLAY frame keeps a ball of the game's size inside the world, walls or no walls. */
  lemma PlayFrameStaysInArena(m: Maze, f: Frame, walls: seq<Rect>, goal: Rect)
    requires m.ball.radius == BallRadius && InArena(m.ball)
    ensures InArena(PlayFrame(m, f, walls, goal).ball)
  {
  }

  /** A PLAY frame keeps a clear ball clear, whatever the walls, the tilt and the frame time. */
  lemma PlayFrameKeepsClear(m: Maze, f: Frame, walls: seq<Rect>, goal: Rect)
    requires Clear(walls, m.ball)
    ensures Clear(walls, PlayFrame(m, f, walls, goal).ball)
  {
  }

  /** A ball centred in the world sees each border wall within the radius as an intersection. */
  lemma NearBorderWallIntersects(c: Circle, w: Rect)
    requires c.radius >= 0.0
    requires w.y <= c.y <= w.y + w.height || w.x <= c.x <= w.x + w.width
    requires w.y <= c.y <= w.y + w.height ==> Abs(c.x - ClosestX(c, w)) <= c.radius
    requires w.x <= c.x <= w.x + w.width ==> Abs(c.y - ClosestY(c, w)) <= c.radius
    ensures CircleIntersectsRect(c, w)
  {
    var dx := Abs(c.x - ClosestX(c, w));
    var dy := Abs(c.y - ClosestY(c, w));
    SquareMonotone(dx, c.radius);
    SquareMonotone(dy, c.radius);
    if w.y <= c.y <= w.y + w.height {
      assert ClosestY(c, w) == c.y;
      assert dx * dx == (c.x - ClosestX(c, w)) * (c.x - ClosestX(c, w));
    } else {
      assert ClosestX(c, w) == c.x;
      assert dy * dy == (c.y - ClosestY(c, w)) * (c.y - ClosestY(c, w));
    }
  }

  /**
   * A ball clear of the maze's walls never touches the border: the border walls are exactly as
   * thick as the distance the border test allows.
   */
  lemma ClearNeverTouchesBorder(c: Circle)
    requires Clear(MazeWalls, c)
    ensures !TouchesBorder(c)
  {
    if c.x - c.radius <= Border {
      NearBorderWallIntersects(c, MazeWalls[2]);
      assert false;
    }
    if c.x + c.radius >= WorldW - Border {
      NearBorderWallIntersects(c, MazeWalls[3]);
      assert false;
    }
    if c.y - c.radius <= Border {
      NearBorderWallIntersects(c, MazeWalls[0]);
      assert false;
    }
    if c.y + c.radius >= WorldH - Border {
      NearBorderWallIntersects(c, MazeWalls[1]);
      assert false;
    }
  }

  /** Every frame keeps the ball clear of the maze, in every state. */
  lemma AdvanceKeepsClear(m: Maze, f: Frame)
    requires Clear(MazeWalls, m.ball)
    ensures Clear(MazeWalls, Advance(m, f, MazeWalls, GoalRect).ball)
  {
    StartBallClear();
    if m.state == Play {
      PlayFrameKeepsClear(m, f, MazeWalls, GoalRect);
    }
  }

  /** With the ball clear of the maze, no frame ends in defeat: the border walls stop it first. */
  lemma NoDefeatFromClear(m: Maze, f: Frame)
    requires Clear(MazeWalls, m.ball) && m.state != GameOver
    ensures Advance(m, f, MazeWalls, GoalRect).state != GameOver
  {
    if m.state == Play {
      PlayFrameKeepsClear(m, f, MazeWalls, GoalRect);
      ClearNeverTouchesBorder(PlayFrame(m, f, MazeWalls, GoalRect).ball);
    }
  }

  /** The state after n frames. */
  function Run(m: Maze, frames: seq<Frame>): Maze
    decreases |frames|
  {
    if frames == [] then m else Run(Advance(m, frames[0], MazeWalls, GoalRect), frames[1..])
  }

  /** From a clear ball in any state but defeat, no sequence of frames ever reaches defeat. */
  lemma {:induction false} DefeatUnreachable(m: Maze, frames: seq<Frame>)
    requires Clear(MazeWalls, m.ball) && m.state != GameOver
    ensures Run(m, frames).state != GameOver
    ensures Clear(MazeWalls, Run(m, frames).ball)
    decreases |frames|
  {
    if frames != [] {
      AdvanceKeepsClear(m, frames[0]);
      NoDefeatFromClear(m, frames[0]);
      DefeatUnreachable(Advance(m, frames[0], MazeWalls, GoalRect), frames[1..]);
    }
  }

  // ---------------------------------------------------------------- the game object

  class TiltMazeGame {
    const walls: seq<Rect>
    const goal: Rect

    var ball: Circle
    var vx: real
    var vy: real
    var zeroX: real
    var zeroY: real
    var filtX: real
    var filtY: real
    var state: GameState
    var playTime: real

    function Snapshot(): Maze
      reads this
    {
      Maze(ball, vx, vy, zeroX, zeroY, filtX, filtY, state, playTime)
    }

    /** create: builds the maze, places the ball and calibrates on the sample at hand. */
    constructor (rotation: int, a: Accel)
      ensures walls == MazeWalls && goal == GoalRect
      ensures ball == StartBall && vx == 0.0 && vy == 0.0 && state == Start && playTime == 0.0
      ensures Tilt(zeroX, zeroY) == Remap(rotation, a) && filtX == 0.0 && filtY == 0.0
    {
      walls := MazeWalls;
      goal := GoalRect;
      ball := StartBall;
      vx, vy := 0.0, 0.0;
      zeroX, zeroY, filtX, filtY := 0.0, 0.0, 0.0, 0.0;
      state := Start;
      playTime := 0.0;
      new;
      CalibrateZero(rotation, a);
    }

    /** readTiltG: the filtered tilt in g for this sample. */
    method ReadTiltG(rotation: int, a: Accel) returns (tiltX: real, tiltY: real)
      modifies this
      ensures Snapshot() == ReadTilt(old(Snapshot()), rotation, a)
      ensures tiltX == filtX && tiltY == filtY
    {
      var tx, ty;
      if rotation == 0 {
        tx, ty := -a.ax, a.ay;
      } else if rotation == 90 {
        tx, ty := a.ay, a.ax;
      } else if rotation == 180 {
        tx, ty := a.ax, -a.ay;
      } else if rotation == 270 {
        tx, ty := -a.ay, -a.ax;
      } else {
        tx, ty := -a.ax, a.ay;
      }
      assert Tilt(tx, ty) == Remap(rotation, a);

      tx := tx - zeroX;
      ty := ty - zeroY;

      tx := tx / G;
      ty := ty / G;

      if Abs(tx) < DeadZoneG { tx := 0.0; }
      if Abs(ty) < DeadZoneG { ty := 0.0; }

      filtX := filtX + LpfAlpha * (tx - filtX);
      filtY := filtY + LpfAlpha * (ty - filtY);

      tiltX, tiltY := filtX, filtY;
    }

    /** calibrateZero: the remapped sample becomes the zero, and the filters restart. */
    method CalibrateZero(rotation: int, a: Accel)
      modifies this
      ensures Snapshot() == Calibrate(old(Snapshot()), rotation, a)
    {
      if rotation == 0 {
        zeroX, zeroY := -a.ax, a.ay;
      } else if rotation == 90 {
        zeroX, zeroY := a.ay, a.ax;
      } else if rotation == 180 {
        zeroX, zeroY := a.ax, -a.ay;
      } else if rotation == 270 {
        zeroX, zeroY := -a.ay, -a.ax;
      } else {
        zeroX, zeroY := -a.ax, a.ay;
      }
      filtX := 0.0;
      filtY := 0.0;
    }

    method ResetGame()
      modifies this
      ensures Snapshot() == Reset(old(Snapshot()))
    {
      ball := StartBall;
      vx, vy := 0.0, 0.0;
      playTime := 0.0;
    }

    /** collidesAny: scans the walls in order and stops at the first one the circle intersects. */
    method CollidesAny(c: Circle) returns (hit: bool)
      ensures hit <==> Collides(walls, c)
    {
      for i := 0 to |walls|
        invariant forall j :: 0 <= j < i ==> !CircleIntersectsRect(c, walls[j])
      {
        if CircleIntersectsRect(c, walls[i]) {
          return true;
        }
      }
      return false;
    }

    /** update: one frame of the state machine and, in PLAY, of the physics. */
    method Update(f: Frame)
      modifies this
      ensures Snapshot() == Advance(old(Snapshot()), f, walls, goal)
    {
      if state == Start {
        if f.touched {
          CalibrateZero(f.rotation, f.accel);
          ResetGame();
          state := Play;
        }
        return;
      }

      if state == GameOver || state == Goal {
        if f.touched {
          ResetGame();
          state := Start;
        }
        return;
      }

      PlayStep(f);
    }

    /** The PLAY part of update: clock, optional recalibration, tilt, speed, movement, outcome. */
    method PlayStep(f: Frame)
      requires state == Play
      modifies this
      ensures Snapshot() == PlayFrame(old(Snapshot()), f, walls, goal)
    {
      ghost var m0 := Snapshot();
      playTime := playTime + f.dt;
      ghost var timed := Snapshot();
      assert timed == m0.(playTime := m0.playTime + f.dt);

      // recalibration on a two-finger touch
      if f.twoFingers {
        CalibrateZero(f.rotation, f.accel);
      }
      ghost var calibrated := Snapshot();
      assert calibrated == if f.twoFingers then Calibrate(timed, f.rotation, f.accel) else timed;

      var filteredX, filteredY := ReadTiltG(f.rotation, f.accel);
      ghost var read := Snapshot();
      assert read == ReadTilt(calibrated, f.rotation, f.accel);
      var tiltX := Clamp(filteredX, -1.0, 1.0);
      var tiltY := Clamp(filteredY, -1.0, 1.0);

      Accelerate(tiltX, tiltY, f.dt);
      ghost var steered := Snapshot();
      assert steered == Steer(read, f.dt);

      MoveBall(f.dt);
      ghost var moved := Snapshot();

      // defeat by touching the border, then victory
      if TouchesBorder(ball) {
        state := GameOver;
      }
      if OverlapsGoal(ball, goal) {
        state := Goal;
      }
      assert Snapshot() == Judge(moved, goal);
      assert PlayFrame(m0, f, walls, goal) == Judge(MoveY(MoveX(steered, f.dt, walls), f.dt, walls), goal);
    }

    /** The speed update of update: acceleration by the tilt, then damping. */
    method Accelerate(tiltX: real, tiltY: real, dt: real)
      modifies this
      ensures Snapshot() == old(Snapshot()).(vx := (old(vx) + Gain(tiltX, dt)) * Damping,
                                             vy := (old(vy) + Gain(tiltY, dt)) * Damping)
    {
      vx := vx + Gain(tiltX, dt);
      vy := vy + Gain(tiltY, dt);
      vx := vx * Damping;
      vy := vy * Damping;
    }

    /** The per-axis movement of update: each axis move is clamped to the world and undone on a wall. */
    method MoveBall(dt: real)
      modifies this
      ensures Snapshot() == MoveY(MoveX(old(Snapshot()), dt, walls), dt, walls)
    {
      ghost var m0 := Snapshot();
      var nextX := ball.x + Travel(vx, dt);
      var nextY := ball.y + Travel(vy, dt);

      var prevX := ball.x;
      ball := ball.(x := Clamp(nextX, ball.radius, WorldW - ball.radius));
      var hit := CollidesAny(ball);
      if hit {
        ball := ball.(x := prevX);
        vx := 0.0;
      }
      assert Snapshot() == MoveX(m0, dt, walls);

      var prevY := ball.y;
      ball := ball.(y := Clamp(nextY, ball.radius, WorldH - ball.radius));
      hit := CollidesAny(ball);
      if hit {
        ball := ball.(y := prevY);
        vy := 0.0;
      }
    }
  }
}
