/**
 * A player touching the ball: with the dribble capability the ball attaches
 * and nothing else happens; otherwise the ball is kicked away from the
 * player, with the one-shot power-shot bonus spent on this kick if pending.
 */
module Kicking {
  import opened Geometry
  import opened Physics
  import opened PlayerControl
  import opened BallPossession

  const BASE_KICK_POWER: real := 3.5
  const SUPER_MODE_KICK_FACTOR: real := 1.2

  /** The kick's strength before any power-shot bonus. */
  function KickPower(isSuperMode: bool, megaBallMultiplier: real): real
  {
    BASE_KICK_POWER * (if isSuperMode then SUPER_MODE_KICK_FACTOR else 1.0) * megaBallMultiplier
  }

  /** How a touch resolves: the ball attaches, or it is kicked with a power, boosted or not. */
  datatype Touch = Attach | Kick(power: real, powerShot: bool)

  function Resolve(m: Modifiers, megaBallMultiplier: real): (t: Touch)
    ensures m.keepBall <==> t == Attach
    ensures !m.keepBall ==> t.powerShot == m.powerShotPending
    ensures !m.keepBall && !m.powerShotPending ==> t.power == KickPower(m.isSuperMode, megaBallMultiplier)
    ensures !m.keepBall && m.powerShotPending ==>
      t.power == KickPower(m.isSuperMode, megaBallMultiplier) * m.powerShotMultiplier
  {
    if m.keepBall then Attach
    else
      var power := KickPower(m.isSuperMode, megaBallMultiplier);
      if m.powerShotPending then Kick(power * m.powerShotMultiplier, true) else Kick(power, false)
  }

  /** The modifiers after a touch: a kick spends the pending power shot; an attach leaves everything. */
  function AfterTouch(m: Modifiers): (r: Modifiers)
    ensures m.keepBall ==> r == m
    ensures !m.keepBall ==> !r.powerShotPending && r == m.(powerShotPending := false)
  {
    if m.keepBall then m else m.(powerShotPending := false)
  }

  /** Of two kicks after a power shot was granted, only the first is boosted. */
  lemma {:induction false} PowerShotBoostsOneKick(m: Modifiers, mega: real)
    requires !m.keepBall && m.powerShotPending
    ensures Resolve(m, mega) == Kick(KickPower(m.isSuperMode, mega) * m.powerShotMultiplier, true)
    ensures Resolve(AfterTouch(m), mega) == Kick(KickPower(m.isSuperMode, mega), false)
  {
  }

  /** Dribbling never spends the power shot, however many touches there are. */
  lemma {:induction false} DribbleKeepsPowerShot(m: Modifiers, touches: nat)
    requires m.keepBall
    ensures TouchMany(m, touches) == m
  {
    if touches > 0 {
      DribbleKeepsPowerShot(m, touches - 1);
    }
  }

  function TouchMany(m: Modifiers, touches: nat): Modifiers
  {
    if touches == 0 then m else AfterTouch(TouchMany(m, touches - 1))
  }

  /**
   * PlayerController.OnCollisionEnter2D with the ball. `distance` is the
   * engine's magnitude of the vector from the player to the ball.
   */
  method OnCollisionEnter2D(player: PlayerController, ball: Ball, time: real, distance: real)
    requires IsMagnitude3(Sub3(ball.position, player.position), distance)
    modifies player`enableHaalandPowerShot
    modifies ball`holder, ball`velocity, ball`angularVelocity, ball`lastGroundTouchTime, ball`forces
    ensures player.Mods() == AfterTouch(old(player.Mods()))
    ensures old(player.keepBallInSuperMode) ==>
      && ball.holder == player && ball.velocity == ZERO2 && ball.angularVelocity == 0.0
      && ball.lastGroundTouchTime == time && ball.forces == old(ball.forces)
    ensures !old(player.keepBallInSuperMode) ==>
      && ball.holder == null
      && ball.velocity == old(ball.velocity) && ball.angularVelocity == old(ball.angularVelocity)
      && ball.lastGroundTouchTime == old(ball.lastGroundTouchTime)
      && ball.forces == old(ball.forces) + [AddForce(Scale2(Normalized3Flat(Sub3(ball.position, player.position), distance),
                                                            Resolve(old(player.Mods()), player.megaBallMultiplier).power), Impulse)]
  {
    var kickDirection := Normalized3Flat(Sub3(ball.position, player.position), distance);
    var kickPower := BASE_KICK_POWER * (if player.isSuperMode then SUPER_MODE_KICK_FACTOR else 1.0)
                     * player.megaBallMultiplier;
    ghost var touch := Resolve(player.Mods(), player.megaBallMultiplier);
    if player.keepBallInSuperMode {
      ball.AttachTo(player, time);
      return;
    }
    assert touch.Kick?;
    if player.enableHaalandPowerShot {
      kickPower := kickPower * player.haalandShotPowerMultiplier;
      player.enableHaalandPowerShot := false;
    }
    assert kickPower == touch.power;
    ball.Kick(Scale2(kickDirection, kickPower));
  }
}
