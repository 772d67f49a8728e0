/**
 * InputManager.java: a "virtual tilt" integrated from the gyroscope's z rate, bounded,
 * decayed towards the centre every frame, and handed to the player as a steering value
 * in [-1, 1]. The gyroscope reading is a parameter here.
 */
module Inputs {
  import opened GameConfig
  import opened MathUtils

  /** The bound on the accumulated tilt, wider than the steering range. */
  const TiltLimit: real := 3.0

  /** The fraction of the tilt kept each frame. */
  const Decay: real := 0.99

  /** The largest tilt magnitude after a frame: the bound times the decay. */
  const MaxTilt: real := 2.97

  /** The rotation rate integrated over dt: turning clockwise (negative z) steers right. */
  function Integrate(v: real, gyroZ: real, dt: real): real
  {
    v + -gyroZ * dt * GyroSensitivity
  }

  /** The tilt after one frame: integrated, bounded to the tilt limit, decayed. */
  function TiltStep(v: real, gyroZ: real, dt: real): (r: real)
    ensures -MaxTilt <= r <= MaxTilt
    ensures Integrate(v, gyroZ, dt) >= TiltLimit ==> r == MaxTilt
    ensures Integrate(v, gyroZ, dt) <= -TiltLimit ==> r == -MaxTilt
  {
    Decay * Clamp(Integrate(v, gyroZ, dt), -TiltLimit, TiltLimit)
  }

  /** The steering value handed out: the tilt cut to [-1, 1]. */
  function Steering(v: real): (r: real)
    ensures -1.0 <= r <= 1.0
    ensures -1.0 <= v <= 1.0 ==> r == v
    ensures v < -1.0 ==> r == -1.0
    ensures v > 1.0 ==> r == 1.0
  {
    Clamp(v, -1.0, 1.0)
  }

  /** A larger tilt never steers less far to the right. */
  lemma SteeringMonotone(v: real, w: real)
    requires v <= w
    ensures Steering(v) <= Steering(w)
  {
  }

  /**
   * With the device at rest (no rotation, or no time elapsed), the tilt within its bound moves
   * towards the centre: it is exactly Decay times what it was, keeps its sign, and loses magnitude
   * unless it is already zero.
   */
  lemma RestDecays(v: real, gyroZ: real, dt: real)
    requires -TiltLimit <= v <= TiltLimit
    ensures TiltStep(v, 0.0, dt) == Decay * v
    ensures TiltStep(v, gyroZ, 0.0) == Decay * v
    ensures v > 0.0 ==> 0.0 < TiltStep(v, 0.0, dt) < v
    ensures v < 0.0 ==> v < TiltStep(v, 0.0, dt) < 0.0
    ensures TiltStep(v, 0.0, dt) == 0.0 <==> v == 0.0
  {
    assert Integrate(v, 0.0, dt) == v;
    assert Integrate(v, gyroZ, 0.0) == v;
  }

  /** b multiplied by itself n times. */
  function Pow(b: real, n: nat): real
  {
    if n == 0 then 1.0 else b * Pow(b, n - 1)
  }

  /** The decay factor over n frames lies in (0, 1], strictly below 1 once a frame has passed. */
  lemma {:induction false} DecayPowBounds(n: nat)
    ensures 0.0 < Pow(Decay, n) <= 1.0
    ensures n > 0 ==> Pow(Decay, n) < 1.0
  {
    if n > 0 {
      DecayPowBounds(n - 1);
    }
  }

  /** The tilt after n frames at rest. */
  function Relax(v: real, dt: real, n: nat): real
    decreases n
  {
    if n == 0 then v else Relax(TiltStep(v, 0.0, dt), dt, n - 1)
  }

  /** After n frames at rest the tilt is 0.99^n times what it was. */
  lemma {:induction false} RelaxClosedForm(v: real, dt: real, n: nat)
    requires -TiltLimit <= v <= TiltLimit
    ensures Relax(v, dt, n) == Pow(Decay, n) * v
    decreases n
  {
    if n == 0 {
      assert Pow(Decay, 0) == 1.0;
    } else {
      var w := TiltStep(v, 0.0, dt);
      RestDecays(v, 0.0, dt);
      RelaxClosedForm(w, dt, n - 1);
      assert Pow(Decay, n - 1) * (Decay * v) == (Decay * Pow(Decay, n - 1)) * v;
    }
  }

  /**
   * Frames at rest shrink the tilt geometrically, so it keeps its sign, never moves away from
   * the centre, and any non-zero tilt ends strictly closer to it.
   */
  lemma RelaxTowardsCentre(v: real, dt: real, n: nat)
    requires -TiltLimit <= v <= TiltLimit
    ensures Relax(v, dt, n) == Pow(Decay, n) * v
    ensures Abs(Relax(v, dt, n)) <= Abs(v)
    ensures v != 0.0 && n > 0 ==> Abs(Relax(v, dt, n)) < Abs(v)
    ensures v >= 0.0 ==> Relax(v, dt, n) >= 0.0
    ensures v <= 0.0 ==> Relax(v, dt, n) <= 0.0
  {
    RelaxClosedForm(v, dt, n);
    DecayPowBounds(n);
    ScaledTowardsCentre(Pow(Decay, n), v, Relax(v, dt, n));
  }

  /** Scaling v by a factor p in (0, 1] keeps the sign and never moves away from 0; below 1, it moves closer. */
  lemma ScaledTowardsCentre(p: real, v: real, r: real)
    requires 0.0 < p <= 1.0 && r == p * v
    ensures Abs(r) <= Abs(v)
    ensures p < 1.0 && v != 0.0 ==> Abs(r) < Abs(v)
    ensures v >= 0.0 ==> r >= 0.0
    ensures v <= 0.0 ==> r <= 0.0
  {
    if v > 0.0 {
      ScaledPositive(p, v, r);
    } else if v < 0.0 {
      assert -r == p * -v;
      ScaledPositive(p, -v, -r);
    } else {
      assert r == 0.0;
    }
  }

  /** A positive value u scaled by a factor p in (0, 1] stays positive and never grows. */
  lemma ScaledPositive(p: real, u: real, s: real)
    requires 0.0 < p <= 1.0 && u > 0.0 && s == p * u
    ensures 0.0 < s <= u
    ensures p < 1.0 ==> s < u
  {
    assert u - s == (1.0 - p) * u;
  }

  /** After a reset, a device at rest steers straight for any number of frames. */
  lemma {:induction false} ResetStaysCentred(dt: real, n: nat)
    ensures Relax(0.0, dt, n) == 0.0
    ensures Steering(Relax(0.0, dt, n)) == 0.0
    decreases n
  {
    if n > 0 {
      RestDecays(0.0, 0.0, dt);
      ResetStaysCentred(dt, n - 1);
    }
  }

  class InputManager {
    var virtualTiltX: real

    constructor ()
      ensures virtualTiltX == 0.0
    {
      virtualTiltX := 0.0;
    }

    /** One frame of steering from the gyroscope's z rate (rad/s) over dt seconds. */
    method ReadHorizontal(dt: real, gyroZ: real) returns (r: real)
      modifies this
      ensures virtualTiltX == TiltStep(old(virtualTiltX), gyroZ, dt)
      ensures r == Steering(virtualTiltX)
    {
      virtualTiltX := virtualTiltX + -gyroZ * dt * GyroSensitivity;

      if virtualTiltX < -TiltLimit {
        virtualTiltX := -TiltLimit;
      } else if virtualTiltX > TiltLimit {
        virtualTiltX := TiltLimit;
      }

      virtualTiltX := virtualTiltX * Decay;

      if virtualTiltX < -1.0 {
        return -1.0;
      }
      if virtualTiltX > 1.0 {
        return 1.0;
      }
      return virtualTiltX;
    }

    /** Recentres the tilt. */
    method Reset()
      modifies this
      ensures virtualTiltX == 0.0
    {
      virtualTiltX := 0.0;
    }
  }
}
