/**
 * Player.java: a rectangle and a vertical speed. Each frame moves the player sideways by the
 * steering input (wrapping around the screen edges), applies gravity, and, while falling, lands
 * on the first platform whose top the player's bottom edge crossed, bouncing off again.
 */
module Players {
  import opened Shapes
  import opened GameConfig

  /** The state update changes: the player's rectangle and vertical speed. */
  datatype Body = Body(rect: Rect, vy: real)

  /**
   * The side wrap: a player fully past the left edge reappears at the right edge, one past the
   * right edge reappears just outside the left edge; a player on screen is not moved.
   */
  function WrapX(x: real, width: real): (r: real)
    ensures width >= 0.0 ==> -width <= r <= WorldWidth
    ensures -width <= x <= WorldWidth ==> r == x
    ensures x + width < 0.0 ==> r == WorldWidth
    ensures x + width >= 0.0 && x > WorldWidth ==> r == -width
  {
    if x + width < 0.0 then WorldWidth else if x > WorldWidth then -width else x
  }

  /**
   * The landing test of one platform: the bottom edge was at or above its top before the
   * vertical move, is at or below it after, and the centre lies strictly within its span.
   */
  predicate Lands(p: Rect, oldY: real, newY: real, centerX: real)
  {
    && oldY >= p.y + p.height
    && newY <= p.y + p.height
    && p.x < centerX < p.x + p.width
  }

  /** The index of the first platform, in list order, that the player lands on, if any. */
  function FirstLanding(ps: seq<Rect>, oldY: real, newY: real, centerX: real): (r: Option<nat>)
    ensures r.Some? ==>
      && r.value < |ps|
      && Lands(ps[r.value], oldY, newY, centerX)
      && forall j :: 0 <= j < r.value ==> !Lands(ps[j], oldY, newY, centerX)
    ensures r.None? <==> forall j :: 0 <= j < |ps| ==> !Lands(ps[j], oldY, newY, centerX)
    decreases |ps|
  {
    if ps == [] then None
    else if Lands(ps[0], oldY, newY, centerX) then Some(0)
    else
      match FirstLanding(ps[1..], oldY, newY, centerX)
      case None => None
      case Some(i) => Some(i + 1)
  }

  /** The first landing is the one the list order picks: any landing index with none before it. */
  lemma FirstLandingIsFirst(ps: seq<Rect>, oldY: real, newY: real, centerX: real, i: nat)
    requires i < |ps| && Lands(ps[i], oldY, newY, centerX)
    requires forall j :: 0 <= j < i ==> !Lands(ps[j], oldY, newY, centerX)
    ensures FirstLanding(ps, oldY, newY, centerX) == Some(i)
  {
  }

  /** Where the horizontal part of a frame puts the left edge. */
  function MovedX(b: Body, dt: real, inputX: real): real
  {
    WrapX(b.rect.x + inputX * MaxHSpeed * dt, b.rect.width)
  }

  /** The vertical speed after gravity has acted for dt. */
  function FallingVy(b: Body, dt: real): real
  {
    b.vy + Gravity * dt
  }

  /** The player after one frame of update, before any landing. */
  function Moved(b: Body, dt: real, inputX: real): Body
  {
    var vy := FallingVy(b, dt);
    Body(b.rect.(x := MovedX(b, dt, inputX), y := b.rect.y + vy * dt), vy)
  }

  /** The horizontal centre the landing test uses, after the horizontal move. */
  function MovedCenterX(b: Body, dt: real, inputX: real): real
  {
    MovedX(b, dt, inputX) + b.rect.width * 0.5
  }

  /** One frame of update: move, fall, and if falling, land on the first platform crossed. */
  function Step(b: Body, dt: real, inputX: real, ps: seq<Rect>): Body
  {
    var m := Moved(b, dt, inputX);
    if m.vy <= 0.0 then
      match FirstLanding(ps, b.rect.y, m.rect.y, MovedCenterX(b, dt, inputX))
      case None => m
      case Some(i) => Body(m.rect.(y := ps[i].y + ps[i].height), JumpVelocity)
    else m
  }

  /** A frame never changes the player's size, and it keeps a player of non-negative width on the wrapped screen. */
  lemma StepKeepsShape(b: Body, dt: real, inputX: real, ps: seq<Rect>)
    ensures var r := Step(b, dt, inputX, ps);
      && r.rect.width == b.rect.width && r.rect.height == b.rect.height
      && r.rect.x == MovedX(b, dt, inputX)
      && (b.rect.width >= 0.0 ==> -b.rect.width <= r.rect.x <= WorldWidth)
  {
  }

  /** While still rising after gravity, the platforms play no part in the frame. */
  lemma RisingIgnoresPlatforms(b: Body, dt: real, inputX: real, ps: seq<Rect>, qs: seq<Rect>)
    requires FallingVy(b, dt) > 0.0
    ensures Step(b, dt, inputX, ps) == Step(b, dt, inputX, qs) == Moved(b, dt, inputX)
  {
  }

  /**
   * A falling player lands on platform i exactly when i is the first platform crossed: it is
   * then placed on that platform's top and given the jump speed.
   */
  lemma LandsOnFirstCrossed(b: Body, dt: real, inputX: real, ps: seq<Rect>, i: nat)
    requires FallingVy(b, dt) <= 0.0
    requires i < |ps| && Lands(ps[i], b.rect.y, Moved(b, dt, inputX).rect.y, MovedCenterX(b, dt, inputX))
    requires forall j :: 0 <= j < i ==> !Lands(ps[j], b.rect.y, Moved(b, dt, inputX).rect.y, MovedCenterX(b, dt, inputX))
    ensures Step(b, dt, inputX, ps).rect.y == ps[i].Top()
    ensures Step(b, dt, inputX, ps).vy == JumpVelocity
    ensures Step(b, dt, inputX, ps).rect.x == MovedX(b, dt, inputX)
  {
    FirstLandingIsFirst(ps, b.rect.y, Moved(b, dt, inputX).rect.y, MovedCenterX(b, dt, inputX), i);
  }

  /**
   * A landing never moves the player outside the frame's sweep: the snapped height lies between
   * the unsnapped new height and the old height, and the centre lies over the platform.
   */
  lemma LandingWithinSweep(b: Body, dt: real, inputX: real, ps: seq<Rect>)
    requires FallingVy(b, dt) <= 0.0
    requires FirstLanding(ps, b.rect.y, Moved(b, dt, inputX).rect.y, MovedCenterX(b, dt, inputX)).Some?
    ensures var r := Step(b, dt, inputX, ps);
      && Moved(b, dt, inputX).rect.y <= r.rect.y <= b.rect.y
      && r.vy == JumpVelocity
      && exists p :: p in ps && r.rect.y == p.Top() && p.x < MovedCenterX(b, dt, inputX) < p.x + p.width
  {
    var i := FirstLanding(ps, b.rect.y, Moved(b, dt, inputX).rect.y, MovedCenterX(b, dt, inputX)).value;
    assert ps[i] in ps;
  }

  /** A falling player that crosses no platform top just falls: gravity keeps acting. */
  lemma NoLandingFreeFall(b: Body, dt: real, inputX: real, ps: seq<Rect>)
    requires forall j :: 0 <= j < |ps| ==> !Lands(ps[j], b.rect.y, Moved(b, dt, inputX).rect.y, MovedCenterX(b, dt, inputX))
    ensures Step(b, dt, inputX, ps) == Moved(b, dt, inputX)
    ensures Step(b, dt, inputX, ps).vy == b.vy + Gravity * dt
  {
  }

  class Player {
    var rect: Rect
    var vy: real

    /** The player starts mid-jump, with the jump speed. */
    constructor (x: real, y: real, width: real, height: real)
      ensures rect == Rect(x, y, width, height)
      ensures vy == JumpVelocity
    {
      rect := Rect(x, y, width, height);
      vy := JumpVelocity;
    }

    function State(): Body
      reads this
    {
      Body(rect, vy)
    }

    /** Moves the player (used to respawn); the size and the speed stay. */
    method SetPosition(x: real, y: real)
      modifies this
      ensures rect == old(rect).(x := x, y := y)
      ensures vy == old(vy)
    {
      rect := rect.(x := x);
      rect := rect.(y := y);
    }

    method SetVy(value: real)
      modifies this
      ensures vy == value && rect == old(rect)
    {
      vy := value;
    }

    /** One frame of physics against the given platforms, in list order. */
    method Update(dt: real, inputX: real, platforms: seq<Rect>)
      modifies this
      ensures State() == Step(old(State()), dt, inputX, platforms)
    {
      ghost var b := State();

      // horizontal movement
      var vx := inputX * MaxHSpeed;
      rect := rect.(x := rect.x + vx * dt);

      // side wrap
      if rect.x + rect.width < 0.0 {
        rect := rect.(x := WorldWidth);
      } else if rect.x > WorldWidth {
        rect := rect.(x := -rect.width);
      }
      assert rect.x == MovedX(b, dt, inputX);

      // vertical physics
      vy := vy + Gravity * dt;
      var oldY := rect.y;
      rect := rect.(y := rect.y + vy * dt);
      ghost var m := Moved(b, dt, inputX);
      assert State() == m;

      // platforms only catch a falling player
      if vy <= 0.0 {
        var pxCenter := rect.x + rect.width * 0.5;
        assert pxCenter == MovedCenterX(b, dt, inputX);
        var i := 0;
        while i < |platforms|
          invariant 0 <= i <= |platforms|
          invariant rect == m.rect && vy == m.vy
          invariant forall j :: 0 <= j < i ==> !Lands(platforms[j], oldY, rect.y, pxCenter)
        {
          var p := platforms[i];
          var wasAbove := oldY >= p.y + p.height;
          var nowBelowTop := rect.y <= p.y + p.height;
          var withinX := pxCenter > p.x && pxCenter < p.x + p.width;
          if wasAbove && nowBelowTop && withinX {
            FirstLandingIsFirst(platforms, oldY, rect.y, pxCenter, i);
            rect := rect.(y := p.y + p.height);
            vy := JumpVelocity;
            assert State() == Step(b, dt, inputX, platforms);
            break;
          }
          i := i + 1;
        }
      }
    }

    /** The centre of the player, used for coin pickup. */
    function CenterX(): (r: real)
      reads this
      ensures rect.width >= 0.0 ==> rect.x <= r <= rect.x + rect.width
      ensures r == rect.x + RadiusApprox()
    {
      rect.x + rect.width / 2.0
    }

    function CenterY(): (r: real)
      reads this
      ensures rect.height >= 0.0 ==> rect.y <= r <= rect.y + rect.height
      ensures r - rect.y == rect.y + rect.height - r
    {
      rect.y + rect.height / 2.0
    }

    /** Half the width: the radius of the circle the player is approximated by. */
    function RadiusApprox(): (r: real)
      reads this
      ensures r + r == rect.width
      ensures rect.width >= 0.0 ==> r >= 0.0
    {
      rect.width * 0.5
    }
  }
}
