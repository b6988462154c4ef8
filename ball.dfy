/**
 * The ball's possession protocol. The ball is Free (no holder) or Attached to
 * a player. While Free, each physics tick may pull it toward the centre (the
 * magnet, after a while without a touch) and clamps its speed. While its
 * holder keeps the dribble capability, each tick places it in front of the
 * holder and stops it; once the holder loses the capability the next tick
 * lets it go.
 */
module BallPossession {
  import opened Geometry
  import opened Physics
  import opened PlayerControl

  /** Serialized settings of the ball. */
  datatype BallSettings = BallSettings(
    maxVelocity: real,
    magnetForce: real,
    magnetActivationTime: real,
    centerPosition: Vec2,
    followOffsetX: real,
    followOffsetY: real)

  const DEFAULT_BALL_SETTINGS := BallSettings(15.0, 0.5, 3.0, ZERO2, 0.5, -0.1)

  /**
   * The speed clamp, given the velocity's magnitude `speed`: a velocity
   * faster than the limit becomes the normalised velocity times the limit.
   */
  function LimitVelocity(v: Vec2, speed: real, maxVelocity: real): Vec2
    requires IsMagnitude(v, speed)
  {
    if speed > maxVelocity then Scale2(Normalized2(v, speed), maxVelocity) else v
  }

  /**
   * What the clamp means: a velocity no faster than the limit is kept; a
   * faster one keeps its direction and is cut to exactly the limit (to zero
   * when it is too short to normalise).
   */
  lemma {:induction false} LimitVelocityClamps(v: Vec2, speed: real, maxVelocity: real)
    requires IsMagnitude(v, speed)
    ensures var r := LimitVelocity(v, speed, maxVelocity);
      && (speed <= maxVelocity ==> r == v)
      && (speed > maxVelocity && speed > NORMALIZE_EPSILON ==> r == Scale2(v, maxVelocity / speed))
      && (speed > maxVelocity && speed > NORMALIZE_EPSILON && maxVelocity >= 0.0 ==> IsMagnitude(r, maxVelocity))
      && (speed > maxVelocity && speed <= NORMALIZE_EPSILON ==> r == ZERO2)
  {
    if speed > maxVelocity && speed > NORMALIZE_EPSILON {
      ScaleScale(v, 1.0 / speed, maxVelocity);
      assert (1.0 / speed) * maxVelocity == maxVelocity / speed;
      ClampedMagnitude(v, speed, maxVelocity);
    }
  }

  lemma ClampedMagnitude(v: Vec2, speed: real, maxVelocity: real)
    requires IsMagnitude(v, speed) && speed > 0.0
    ensures maxVelocity >= 0.0 ==> IsMagnitude(Scale2(v, maxVelocity / speed), maxVelocity)
  {
    if maxVelocity >= 0.0 {
      ScaleMagnitude(v, speed, maxVelocity / speed);
      assert (maxVelocity / speed) * speed == maxVelocity;
    }
  }

  /** A clamped velocity is never faster than the limit (for a non-negative limit). */
  lemma {:induction false} LimitVelocityBounds(v: Vec2, speed: real, maxVelocity: real)
    requires IsMagnitude(v, speed) && maxVelocity >= 0.0
    ensures Dot2(LimitVelocity(v, speed, maxVelocity), LimitVelocity(v, speed, maxVelocity))
            <= maxVelocity * maxVelocity
  {
    var r := LimitVelocity(v, speed, maxVelocity);
    LimitVelocityClamps(v, speed, maxVelocity);
    if speed <= maxVelocity {
      assert speed * speed <= maxVelocity * maxVelocity by {
        MulMonotone(speed, maxVelocity);
      }
    } else if speed <= NORMALIZE_EPSILON {
      assert r == ZERO2;
    }
  }

  lemma MulMonotone(a: real, b: real)
    requires 0.0 <= a <= b
    ensures a * a <= b * b
  {
    assert a * a <= a * b;
    assert a * b <= b * b;
  }

  /** No touch for at least the activation time. */
  predicate MagnetActive(time: real, lastGroundTouchTime: real, activationTime: real)
  {
    time - lastGroundTouchTime >= activationTime
  }

  /**
   * The magnet pull on a ball at `position`, given the distance to the
   * centre: of strength `magnetForce`, pointing at the centre; nothing when
   * the ball is (numerically) on the centre.
   */
  function MagnetPull(center: Vec2, position: Vec2, distance: real, magnetForce: real): (f: Vec2)
    requires IsMagnitude(Sub2(center, position), distance)
    ensures distance > NORMALIZE_EPSILON && magnetForce >= 0.0 ==> IsMagnitude(f, magnetForce)
    ensures distance > NORMALIZE_EPSILON ==> Dot2(f, Sub2(center, position)) == magnetForce * distance
    ensures distance <= NORMALIZE_EPSILON ==> f == ZERO2
  {
    var toCenter := Sub2(center, position);
    var u := Normalized2(toCenter, distance);
    if distance > NORMALIZE_EPSILON then
      DotScale(u, magnetForce, toCenter);
      UnitScaledMagnitude(u, magnetForce);
      Scale2(u, magnetForce)
    else Scale2(u, magnetForce)
  }

  lemma UnitScaledMagnitude(u: Vec2, k: real)
    requires IsMagnitude(u, 1.0)
    ensures k >= 0.0 ==> IsMagnitude(Scale2(u, k), k)
  {
    if k >= 0.0 {
      ScaleMagnitude(u, 1.0, k);
    }
  }

  /** A positive pull always has a positive component toward the centre. */
  lemma {:induction false} MagnetPullsTowardCenter(center: Vec2, position: Vec2, distance: real, magnetForce: real)
    requires IsMagnitude(Sub2(center, position), distance)
    requires distance > NORMALIZE_EPSILON && magnetForce > 0.0
    ensures Dot2(MagnetPull(center, position, distance, magnetForce), Sub2(center, position)) > 0.0
  {
    var f := MagnetPull(center, position, distance, magnetForce);
    assert Dot2(f, Sub2(center, position)) == magnetForce * distance;
    MulPositive(magnetForce, distance);
  }

  lemma MulPositive(a: real, b: real)
    requires a > 0.0 && b > 0.0
    ensures a * b > 0.0
  {
  }

  /** The holder's facing: 1 without a Visual child, else the sign of the visual's x scale. */
  function FacingDir(hasVisual: bool, visualScaleX: real): (d: real)
    ensures d == 1.0 || d == -1.0
    ensures d == -1.0 <==> hasVisual && visualScaleX < 0.0
  {
    if hasVisual then Sign(visualScaleX) else 1.0
  }

  /** Where a held ball goes: the holder's position plus the offset, mirrored with the facing; the ball keeps its own z. */
  function FollowTarget(holderPosition: Vec3, facing: real, offsetX: real, offsetY: real, ownZ: real): Vec3
  {
    Vec3(holderPosition.x + offsetX * facing, holderPosition.y + offsetY, ownZ)
  }

  /** A held ball sits on the side the holder faces, |offsetX| away horizontally. */
  lemma {:induction false} FollowTargetInFront(p: Vec3, hasVisual: bool, scaleX: real, offsetX: real, offsetY: real, z: real)
    requires offsetX >= 0.0
    ensures var t := FollowTarget(p, FacingDir(hasVisual, scaleX), offsetX, offsetY, z);
      && Abs(t.x - p.x) == offsetX && t.y == p.y + offsetY && t.z == z
      && (hasVisual && scaleX < 0.0 ==> t.x <= p.x)
      && (!(hasVisual && scaleX < 0.0) ==> t.x >= p.x)
  {
  }

  class Ball {
    const settings: BallSettings

    var position: Vec3
    var velocity: Vec2
    var angularVelocity: real
    var lastGroundTouchTime: real
    /** The dribbling player, or null while the ball is free. */
    var holder: PlayerController?
    /** Forces and impulses handed to the ball's Rigidbody2D. */
    var forces: seq<ForceCommand>

    /** Instantiation, Awake and Start: at rest, free, the touch timer armed at `time`. */
    constructor (settings: BallSettings, position: Vec3, time: real)
      ensures this.settings == settings && this.position == position
      ensures velocity == ZERO2 && angularVelocity == 0.0
      ensures lastGroundTouchTime == time && holder == null && forces == []
    {
      this.settings := settings;
      this.position := position;
      velocity := ZERO2;
      angularVelocity := 0.0;
      lastGroundTouchTime := time;
      holder := null;
      forces := [];
    }

    predicate IsAttachedTo(p: PlayerController?)
      reads this
    {
      holder == p
    }

    /**
     * One physics tick. `speed` is the engine's magnitude of the velocity and
     * `centerDistance` that of the vector from the ball to the centre.
     */
    method FixedUpdate(time: real, speed: real, centerDistance: real)
      requires IsMagnitude(velocity, speed)
      requires IsMagnitude(Sub2(settings.centerPosition, Flatten(position)), centerDistance)
      modifies this`position, this`velocity, this`angularVelocity, this`holder, this`forces
      ensures old(holder) != null && old(holder).keepBallInSuperMode ==>
        && holder == old(holder)
        && position == FollowTarget(holder.position, FacingDir(holder.hasVisual, holder.visualScale.x),
                                    settings.followOffsetX, settings.followOffsetY, old(position).z)
        && velocity == ZERO2 && angularVelocity == 0.0
        && forces == old(forces)
      ensures !(old(holder) != null && old(holder).keepBallInSuperMode) ==>
        && holder == null
        && position == old(position) && angularVelocity == old(angularVelocity)
        && forces == old(forces)
           + (if MagnetActive(time, lastGroundTouchTime, settings.magnetActivationTime)
              then [AddForce(MagnetPull(settings.centerPosition, Flatten(old(position)), centerDistance,
                                        settings.magnetForce), Force)]
              else [])
        && velocity == LimitVelocity(old(velocity), speed, settings.maxVelocity)
    {
      if holder != null && holder.keepBallInSuperMode {
        FollowHolder();
        velocity := ZERO2;
        angularVelocity := 0.0;
        return;
      } else if holder != null && !holder.keepBallInSuperMode {
        Detach();
      }
      ApplyMagnetEffect(time, centerDistance);
      LimitVelocityNow(speed);
    }

    method ApplyMagnetEffect(time: real, centerDistance: real)
      requires IsMagnitude(Sub2(settings.centerPosition, Flatten(position)), centerDistance)
      modifies this`forces
      ensures forces == old(forces)
        + (if MagnetActive(time, lastGroundTouchTime, settings.magnetActivationTime)
           then [AddForce(MagnetPull(settings.centerPosition, Flatten(position), centerDistance,
                                     settings.magnetForce), Force)]
           else [])
    {
      var timeSinceLastTouch := time - lastGroundTouchTime;
      if timeSinceLastTouch >= settings.magnetActivationTime {
        var pull := MagnetPull(settings.centerPosition, Flatten(position), centerDistance, settings.magnetForce);
        forces := forces + [AddForce(pull, Force)];
      }
    }

    method LimitVelocityNow(speed: real)
      requires IsMagnitude(velocity, speed)
      modifies this`velocity
      ensures velocity == LimitVelocity(old(velocity), speed, settings.maxVelocity)
    {
      if speed > settings.maxVelocity {
        velocity := Scale2(Normalized2(velocity, speed), settings.maxVelocity);
      }
    }

    /** The ball touched something; only a player's touch re-arms the magnet timer. */
    method OnCollisionEnter2D(otherIsPlayer: bool, time: real)
      modifies this`lastGroundTouchTime
      ensures lastGroundTouchTime == if otherIsPlayer then time else old(lastGroundTouchTime)
    {
      if otherIsPlayer {
        lastGroundTouchTime := time;
      }
    }

    method ResetPosition(p: Vec2, time: real)
      modifies this`position, this`velocity, this`angularVelocity, this`lastGroundTouchTime, this`holder
      ensures position == Lift(p) && velocity == ZERO2 && angularVelocity == 0.0
      ensures lastGroundTouchTime == time && holder == null
    {
      position := Lift(p);
      velocity := ZERO2;
      angularVelocity := 0.0;
      lastGroundTouchTime := time;
      Detach();
    }

    /** A kick always frees the ball before the impulse. */
    method Kick(force: Vec2)
      modifies this`holder, this`forces
      ensures holder == null && forces == old(forces) + [AddForce(force, Impulse)]
    {
      Detach();
      forces := forces + [AddForce(force, Impulse)];
    }

    method AttachTo(p: PlayerController, time: real)
      modifies this`holder, this`velocity, this`angularVelocity, this`lastGroundTouchTime
      ensures holder == p && velocity == ZERO2 && angularVelocity == 0.0 && lastGroundTouchTime == time
      ensures forall q: PlayerController? {:trigger IsAttachedTo(q)} :: IsAttachedTo(q) <==> q == p
    {
      holder := p;
      velocity := ZERO2;
      angularVelocity := 0.0;
      lastGroundTouchTime := time;
    }

    method Detach()
      modifies this`holder
      ensures holder == null
    {
      holder := null;
    }

    method FollowHolder()
      modifies this`position
      ensures holder == null ==> position == old(position)
      ensures holder != null ==>
        position == FollowTarget(holder.position, FacingDir(holder.hasVisual, holder.visualScale.x),
                                 settings.followOffsetX, settings.followOffsetY, old(position).z)
    {
      if holder == null {
        return;
      }
      var basePos := holder.position;
      var facingDir := 1.0;
      if holder.hasVisual {
        facingDir := Sign(holder.visualScale.x);
      }
      position := Vec3(basePos.x + settings.followOffsetX * facingDir, basePos.y + settings.followOffsetY, position.z);
    }
  }
}
