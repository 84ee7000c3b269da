/**
  The player controller of src/Player.jsx: the per-frame mapping from the four
  held direction keys to a movement impulse and a rolling torque, the
  ray-cast grounded check that decides a jump, and the smoothed camera that
  follows the ball.

  The physics engine is outside the model: the body's translation and the
  ray's time of impact are inputs, and the impulses handed to the body are
  outputs.
 */
module PlayerControl {
  import opened Common

  /** The held state of the four direction keys, as `getKeys()` reports it. */
  datatype Keys = Keys(forward: bool, backward: bool, leftward: bool, rightward: bool)

  /** The impulse and torque handed to the rigid body in one frame. */
  datatype Push = Push(impulse: Vec3, torque: Vec3)

  /** +1 when only `pos` is held, -1 when only `neg` is held, 0 when both or neither are. */
  function Axis(pos: bool, neg: bool): int {
    (if pos then 1 else 0) - (if neg then 1 else 0)
  }

  /**
    Reference definition of the movement impulse: x follows right minus left,
    z follows backward minus forward (forward is towards -z), each with
    strength `delta`.
   */
  function ImpulseFor(keys: Keys, delta: real): Vec3 {
    Vec3(Axis(keys.rightward, keys.leftward) as real * delta,
         0.0,
         Axis(keys.backward, keys.forward) as real * delta)
  }

  /**
    Reference definition of the torque: rolling about x follows backward
    minus forward, rolling about z follows left minus right.
   */
  function TorqueFor(keys: Keys, delta: real): Vec3 {
    Vec3(Axis(keys.backward, keys.forward) as real * delta,
         0.0,
         Axis(keys.leftward, keys.rightward) as real * delta)
  }

  /**
    The controls block of the frame callback: start from zero vectors and
    add or subtract the strength `1 * delta` for each held key, in the
    source's order (forward, rightward, backward, leftward).
   */
  method ComputeControls(keys: Keys, delta: real) returns (impulse: Vec3, torque: Vec3)
    ensures impulse == ImpulseFor(keys, delta)
    ensures torque == TorqueFor(keys, delta)
  {
    impulse := Zero;
    torque := Zero;
    var impulseStrength := 1.0 * delta;
    var torqueStrength := 1.0 * delta;
    if keys.forward {
      impulse := impulse.(z := impulse.z - impulseStrength);
      torque := torque.(x := torque.x - torqueStrength);
    }
    if keys.rightward {
      impulse := impulse.(x := impulse.x + impulseStrength);
      torque := torque.(z := torque.z - torqueStrength);
    }
    if keys.backward {
      impulse := impulse.(z := impulse.z + impulseStrength);
      torque := torque.(x := torque.x + torqueStrength);
    }
    if keys.leftward {
      impulse := impulse.(x := impulse.x - impulseStrength);
      torque := torque.(z := torque.z + torqueStrength);
    }
  }

  /**
    What the controls promise for every key combination: nothing vertical,
    the torque is the impulse turned a quarter about y (so the ball rolls
    the way it is pushed), no key means no push, opposite keys cancel, and
    each component is -delta, 0 or delta.
   */
  lemma ControlsProperties(keys: Keys, delta: real)
    ensures ImpulseFor(keys, delta).y == 0.0 && TorqueFor(keys, delta).y == 0.0
    ensures ImpulseFor(keys, delta).z == TorqueFor(keys, delta).x
    ensures TorqueFor(keys, delta).z == -ImpulseFor(keys, delta).x
    ensures keys == Keys(false, false, false, false) ==>
              ImpulseFor(keys, delta) == Zero && TorqueFor(keys, delta) == Zero
    ensures keys.forward && keys.backward ==> ImpulseFor(keys, delta).z == 0.0
    ensures keys.leftward && keys.rightward ==> ImpulseFor(keys, delta).x == 0.0
    ensures ImpulseFor(keys, delta).x in {-delta, 0.0, delta}
    ensures ImpulseFor(keys, delta).z in {-delta, 0.0, delta}
  {
  }

  // ---------------------------------------------------------------------
  // Jump: a downward ray cast from just below the ball.

  /** Radius of the ball collider (the icosahedron of radius 0.3). */
  const BallRadius := 0.3
  /** The ray starts this far below the body's centre. */
  const RayOffset := 0.31
  const RayMaxDistance := 10.0
  /** A time of impact below this counts as standing on the ground. */
  const GroundedThreshold := 0.15
  const JumpImpulse := Vec3(0.0, 0.5, 0.0)

  datatype Ray = Ray(origin: Vec3, direction: Vec3, maxToi: real, solid: bool)

  /** The ray `jump` casts: from the translation lowered by 0.31, straight down, up to 10, solid. */
  function JumpRay(translation: Vec3): (r: Ray)
    ensures Sub(translation, r.origin) == Vec3(0.0, RayOffset, 0.0)
    ensures r.direction == Vec3(0.0, -1.0, 0.0)
    ensures r.maxToi == RayMaxDistance && r.solid
  {
    Ray(translation.(y := translation.y - RayOffset), Vec3(0.0, -1.0, 0.0), RayMaxDistance, true)
  }

  /** The point a ray reaches at time of impact `toi`. */
  function HitPoint(ray: Ray, toi: real): Vec3 {
    Add(ray.origin, Scale(ray.direction, toi))
  }

  /**
    What a jump attempt does to the body: an upward impulse, nothing, or a
    TypeError thrown because the ray hit nothing and the result was null.
   */
  datatype JumpOutcome = Impulse(impulse: Vec3) | Untouched | NullHitError

  /**
    `jump` as written: `hit.timeOfImpact` is read without checking that
    `castRay` found anything (`hit` is null then).
   */
  function JumpAsWritten(hit: Option<real>): (o: JumpOutcome)
    ensures o.NullHitError? <==> hit.None?
    ensures o.Impulse? <==> hit.Some? && hit.value < GroundedThreshold
    ensures o.Impulse? ==> o.impulse == JumpImpulse
  {
    match hit
    case None => NullHitError
    case Some(toi) => if toi < GroundedThreshold then Impulse(JumpImpulse) else Untouched
  }

  /**
    `jump` with a missing hit read as "not grounded"; the model uses this
    one. It agrees with the source whenever the ray hits something.
   */
  function Jump(hit: Option<real>): (o: JumpOutcome)
    ensures !o.NullHitError?
    ensures o.Impulse? <==> hit.Some? && hit.value < GroundedThreshold
    ensures o.Impulse? ==> o.impulse == JumpImpulse
    ensures hit.Some? ==> o == JumpAsWritten(hit)
  {
    match hit
    case None => Untouched
    case Some(toi) => if toi < GroundedThreshold then Impulse(JumpImpulse) else Untouched
  }

  /** Jumping when nothing is below the ball throws in the source. */
  lemma NoHitFaults()
    ensures JumpAsWritten(None) == NullHitError
    ensures Jump(None) == Untouched
  {
  }

  /**
    The geometry behind the threshold: the ray starts outside the ball,
    0.01 below its lowest point, and a jump fires exactly when the surface
    hit lies less than 0.16 below the ball's lowest point.
   */
  lemma JumpNeedsGroundUnderBall(translation: Vec3, toi: real)
    ensures translation.y - JumpRay(translation).origin.y > BallRadius
    ensures var gap := (translation.y - BallRadius) - HitPoint(JumpRay(translation), toi).y;
            Jump(Some(toi)).Impulse? <==> gap < RayOffset - BallRadius + GroundedThreshold
  {
  }

  /**
    A whole jump attempt with the model's jump: the ray is cast by `castRay`
    (Rapier's world query, a parameter here). The body is pushed up exactly
    when the ray hits a surface less than 0.16 below the ball's lowest point,
    and a ray that hits nothing leaves the body untouched.
   */
  function JumpAttempt(translation: Vec3, castRay: Ray -> Option<real>): (o: JumpOutcome)
    ensures !o.NullHitError?
    ensures o.Impulse? <==>
              castRay(JumpRay(translation)).Some? &&
              (translation.y - BallRadius) - HitPoint(JumpRay(translation), castRay(JumpRay(translation)).value).y
                < RayOffset - BallRadius + GroundedThreshold
  {
    var hit := castRay(JumpRay(translation));
    if hit.Some? then JumpNeedsGroundUnderBall(translation, hit.value); Jump(hit) else Jump(hit)
  }

  /**
    The jump-key subscription calls its listener on every change of the key's
    held state, with the new state. As written, the listener ignores that
    state, so a release runs the ground check too.
   */
  function OnJumpKeyAsWritten(pressed: bool, hit: Option<real>): (o: JumpOutcome)
    ensures o.Impulse? <==> hit.Some? && hit.value < GroundedThreshold
    ensures o.NullHitError? <==> hit.None?
    ensures o.Impulse? ==> o.impulse == JumpImpulse
  {
    JumpAsWritten(hit)
  }

  /** The listener acting on presses only; a release never touches the body. */
  function OnJumpKey(pressed: bool, hit: Option<real>): (o: JumpOutcome)
    ensures !pressed ==> o == Untouched
    ensures pressed ==> o == Jump(hit)
  {
    if pressed then Jump(hit) else Untouched
  }

  /** One notification of the jump-key subscription and the ray result at that moment. */
  datatype KeyChange = KeyChange(pressed: bool, hit: Option<real>)

  /** How many upward impulses a listener applies over a run of notifications. */
  function CountImpulses(listener: (bool, Option<real>) -> JumpOutcome, changes: seq<KeyChange>): nat {
    if |changes| == 0 then 0
    else (if listener(changes[0].pressed, changes[0].hit).Impulse? then 1 else 0)
         + CountImpulses(listener, changes[1..])
  }

  function Presses(changes: seq<KeyChange>): nat {
    if |changes| == 0 then 0
    else (if changes[0].pressed then 1 else 0) + Presses(changes[1..])
  }

  /** As written: one press and one release while resting on the floor give two jumps. */
  lemma ReleaseAlsoJumps()
    ensures var changes := [KeyChange(true, Some(0.0)), KeyChange(false, Some(0.0))];
            Presses(changes) == 1 && CountImpulses(OnJumpKeyAsWritten, changes) == 2
  {
    var changes := [KeyChange(true, Some(0.0)), KeyChange(false, Some(0.0))];
    assert changes[1..][1..] == [];
  }

  /** With the press-only listener a jump is an edge event: never more jumps than presses. */
  lemma {:induction false} AtMostOneJumpPerPress(changes: seq<KeyChange>)
    ensures CountImpulses(OnJumpKey, changes) <= Presses(changes)
  {
    if |changes| > 0 {
      AtMostOneJumpPerPress(changes[1..]);
    }
  }

  // ---------------------------------------------------------------------
  // Camera follow.

  /** The camera aims at a point 2.25 behind and 0.65 above the body ... */
  const CameraOffset := Vec3(0.0, 0.65, 2.25)
  /** ... and looks at a point 0.25 above the body's centre. */
  const LookOffset := Vec3(0.0, 0.25, 0.0)
  /** The lerp factor per frame is this rate times the frame delta. */
  const SmoothingRate := 5.0

  /**
    three.js `Vector3.lerp`: move each coordinate by `alpha` of the way to
    the target. Whatever `alpha` is, the remaining gap is the old gap
    scaled by `1 - alpha`.
   */
  function Lerp(from: Vec3, to: Vec3, alpha: real): (r: Vec3)
    ensures Sub(to, r) == Scale(Sub(to, from), 1.0 - alpha)
  {
    Vec3(from.x + (to.x - from.x) * alpha,
         from.y + (to.y - from.y) * alpha,
         from.z + (to.z - from.z) * alpha)
  }

  /** For a factor in [0, 1] the smoothed point never overshoots its target. */
  lemma LerpStaysBetween(from: Vec3, to: Vec3, alpha: real)
    requires 0.0 <= alpha <= 1.0
    ensures Between(from.x, Lerp(from, to, alpha).x, to.x)
    ensures Between(from.y, Lerp(from, to, alpha).y, to.y)
    ensures Between(from.z, Lerp(from, to, alpha).z, to.z)
  {
    BetweenStep(from.x, to.x, alpha);
    BetweenStep(from.y, to.y, alpha);
    BetweenStep(from.z, to.z, alpha);
  }

  lemma BetweenStep(a: real, b: real, alpha: real)
    requires 0.0 <= alpha <= 1.0
    ensures Between(a, a + (b - a) * alpha, b)
  {
  }

  function Pow(b: real, n: nat): real {
    if n == 0 then 1.0 else b * Pow(b, n - 1)
  }

  lemma ScaleTwice(v: Vec3, a: real, b: real)
    ensures Scale(Scale(v, a), b) == Scale(v, a * b)
  {
  }

  /** Scaling the gap left by one lerp is scaling the old gap by `1 - alpha` more. */
  lemma LerpThenScale(from: Vec3, to: Vec3, alpha: real, p: real)
    ensures Scale(Sub(to, Lerp(from, to, alpha)), p) == Scale(Sub(to, from), (1.0 - alpha) * p)
  {
    ScaleTwice(Sub(to, from), 1.0 - alpha, p);
  }

  /** The smoothed point after `n` frames with the same target and factor. */
  function Follow(from: Vec3, to: Vec3, alpha: real, n: nat): Vec3
    decreases n
  {
    if n == 0 then from else Follow(Lerp(from, to, alpha), to, alpha, n - 1)
  }

  /**
    Following a still target, the gap shrinks geometrically: after `n`
    frames it is the first gap scaled by `(1 - alpha)^n`.
   */
  lemma {:induction false} FollowGap(from: Vec3, to: Vec3, alpha: real, n: nat)
    ensures Sub(to, Follow(from, to, alpha, n)) == Scale(Sub(to, from), Pow(1.0 - alpha, n))
    decreases n
  {
    if n > 0 {
      var next := Lerp(from, to, alpha);
      FollowGap(next, to, alpha, n - 1);
      LerpThenScale(from, to, alpha, Pow(1.0 - alpha, n - 1));
      assert Follow(from, to, alpha, n) == Follow(next, to, alpha, n - 1);
      assert Pow(1.0 - alpha, n) == (1.0 - alpha) * Pow(1.0 - alpha, n - 1);
    }
  }

  /**
    The player component's frame state: the two smoothed vectors it keeps in
    refs, and the scene camera's position and look-at point it writes.
   */
  class Player {
    var smoothedCameraPosition: Vec3
    var smoothedCameraTarget: Vec3
    var cameraPosition: Vec3
    var cameraLookAt: Vec3

    /** The refs start at (10, 10, 10) and the origin; the scene camera is given. */
    constructor (camera: Vec3, lookAt: Vec3)
      ensures smoothedCameraPosition == Vec3(10.0, 10.0, 10.0)
      ensures smoothedCameraTarget == Zero
      ensures cameraPosition == camera && cameraLookAt == lookAt
    {
      smoothedCameraPosition := Vec3(10.0, 10.0, 10.0);
      smoothedCameraTarget := Zero;
      cameraPosition := camera;
      cameraLookAt := lookAt;
    }

    /**
      One frame callback. `body` is the body's translation, or None while
      the rigid body ref is not attached; then nothing is pushed and the
      camera stays where it is.
     */
    method Frame(keys: Keys, delta: real, body: Option<Vec3>) returns (applied: Option<Push>)
      modifies this
      ensures body.None? ==> applied == None && unchanged(this)
      ensures body.Some? ==> applied == Some(Push(ImpulseFor(keys, delta), TorqueFor(keys, delta)))
      ensures body.Some? ==>
                && smoothedCameraPosition == Lerp(old(smoothedCameraPosition), Add(body.value, CameraOffset), SmoothingRate * delta)
                && smoothedCameraTarget == Lerp(old(smoothedCameraTarget), Add(body.value, LookOffset), SmoothingRate * delta)
                && cameraPosition == smoothedCameraPosition
                && cameraLookAt == smoothedCameraTarget
    {
      var impulse, torque := ComputeControls(keys, delta);
      applied := None;
      if body.Some? {
        applied := Some(Push(impulse, torque));
      }
      if body.Some? {
        var bodyPosition := body.value;
        var goal := Add(bodyPosition, CameraOffset);
        var target := Add(bodyPosition, LookOffset);
        smoothedCameraPosition := Lerp(smoothedCameraPosition, goal, SmoothingRate * delta);
        smoothedCameraTarget := Lerp(smoothedCameraTarget, target, SmoothingRate * delta);
        cameraPosition := smoothedCameraPosition;
        cameraLookAt := smoothedCameraTarget;
      }
    }
  }
}
