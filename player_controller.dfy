/**
 * A player: per-frame input shaping, movement and facing, the dash with its
 * cooldown, the modifier fields that super modes write, and the stun
 * countdowns running against the player. The ball collision of the same
 * script is in module Kicking.
 */
module PlayerControl {
  import opened Geometry
  import opened Physics
  import opened Wrappers

  /**
   * The keys the engine reports for one frame: `…Held` keys are Input.GetKey,
   * `…Down` keys are Input.GetKeyDown (pressed in this frame).
   */
  datatype Keys = Keys(
    aHeld: bool, dHeld: bool, wHeld: bool, sHeld: bool, leftShiftDown: bool,
    leftArrowHeld: bool, rightArrowHeld: bool, upArrowHeld: bool, downArrowHeld: bool,
    rightShiftDown: bool)

  /** One player's bindings read out of the frame's keys. */
  datatype Controls = Controls(left: bool, right: bool, up: bool, down: bool, dashDown: bool)

  /** Player 1 plays on A/D/W/S and left shift, player 2 on the arrows and right shift; any other number has no keys. */
  function ControlsOf(playerNumber: int, k: Keys): (c: Option<Controls>)
    ensures c.Some? <==> playerNumber == 1 || playerNumber == 2
    ensures playerNumber == 1 ==> c == Some(Controls(k.aHeld, k.dHeld, k.wHeld, k.sHeld, k.leftShiftDown))
    ensures playerNumber == 2 ==>
      c == Some(Controls(k.leftArrowHeld, k.rightArrowHeld, k.upArrowHeld, k.downArrowHeld, k.rightShiftDown))
  {
    if playerNumber == 1 then Some(Controls(k.aHeld, k.dHeld, k.wHeld, k.sHeld, k.leftShiftDown))
    else if playerNumber == 2 then
      Some(Controls(k.leftArrowHeld, k.rightArrowHeld, k.upArrowHeld, k.downArrowHeld, k.rightShiftDown))
    else None
  }

  /** Serialized settings of a player prefab. */
  datatype PlayerSettings = PlayerSettings(playerNumber: int, moveSpeed: real, dashForce: real, dashCooldown: real)

  const DEFAULT_PLAYER_SETTINGS := PlayerSettings(1, 4.0, 12.0, 0.5)

  /** Movement below this speed neither flips the sprite nor counts as moving. */
  const FACING_THRESHOLD: real := 0.01

  /** Reversed controls turn every direction key around. */
  function InputMultiplier(reversed: bool): (r: real)
    ensures r == 1.0 || r == -1.0
    ensures r == -1.0 <==> reversed
  {
    if reversed then -1.0 else 1.0
  }

  /** The horizontal axis: starts at 0, the left key writes first, the right key writes second. */
  function HorizontalInput(left: bool, right: bool, reversed: bool): real
  {
    var m := InputMultiplier(reversed);
    var afterLeft := if left then -1.0 * m else 0.0;
    if right then 1.0 * m else afterLeft
  }

  /** The vertical axis before speed: the up key writes first, the down key writes second. */
  function VerticalInput(up: bool, down: bool, reversed: bool): real
  {
    var m := InputMultiplier(reversed);
    var afterUp := if up then 1.0 * m else 0.0;
    if down then -1.0 * m else afterUp
  }

  lemma {:induction false} HorizontalInputValues(left: bool, right: bool, reversed: bool)
    ensures right ==> HorizontalInput(left, right, reversed) == InputMultiplier(reversed)
    ensures left && !right ==> HorizontalInput(left, right, reversed) == -InputMultiplier(reversed)
    ensures !left && !right ==> HorizontalInput(left, right, reversed) == 0.0
  {
  }

  /** Reversed controls negate both axes, whatever keys are held. */
  lemma {:induction false} ReversedControlsNegate(c: Controls)
    ensures HorizontalInput(c.left, c.right, true) == -HorizontalInput(c.left, c.right, false)
    ensures VerticalInput(c.up, c.down, true) == -VerticalInput(c.up, c.down, false)
  {
  }

  /** The velocity Move writes: both axes scaled by the current speed. */
  function MoveVelocity(horizontal: real, c: Option<Controls>, reversed: bool, speed: real): (v: Vec2)
    ensures v.x == horizontal * speed
    ensures c.None? ==> v.y == 0.0
    ensures c.Some? ==> v.y == VerticalInput(c.value.up, c.value.down, reversed) * speed
  {
    var moveY := if c.Some? then VerticalInput(c.value.up, c.value.down, reversed) else 0.0;
    Vec2(horizontal * speed, moveY * speed)
  }

  /** The visual's scale after a move: unit scale facing right or left past the threshold, else unchanged. */
  function FacingAfterMove(moveX: real, scale: Vec3): (r: Vec3)
    ensures moveX > FACING_THRESHOLD ==> r == Vec3(1.0, 1.0, 1.0)
    ensures moveX < -FACING_THRESHOLD ==> r == Vec3(-1.0, 1.0, 1.0)
    ensures Abs(moveX) <= FACING_THRESHOLD ==> r == scale
  {
    if moveX > FACING_THRESHOLD then Vec3(1.0, 1.0, 1.0)
    else if moveX < -FACING_THRESHOLD then Vec3(-1.0, 1.0, 1.0)
    else scale
  }

  /** Facing follows the sign of a decisive move and is kept otherwise. */
  lemma {:induction false} FacingFollowsMove(moveX: real, scale: Vec3)
    ensures Abs(moveX) > FACING_THRESHOLD ==> Sign(FacingAfterMove(moveX, scale).x) == Sign(moveX)
    ensures Abs(moveX) <= FACING_THRESHOLD ==> FacingAfterMove(moveX, scale) == scale
  {
  }

  predicate DashReady(time: real, lastDashTime: real, cooldown: real)
  {
    time >= lastDashTime + cooldown
  }

  /** The dash goes along the horizontal input, or when there is none the way the visual faces; no visual means left. */
  function DashDirection(horizontal: real, hasVisual: bool, visualScaleX: real): (d: real)
    ensures horizontal != 0.0 ==> d == horizontal
    ensures horizontal == 0.0 ==> (d == 1.0 <==> hasVisual && visualScaleX > 0.0)
    ensures horizontal == 0.0 ==> (d == 1.0 || d == -1.0)
  {
    if horizontal != 0.0 then horizontal
    else if hasVisual && visualScaleX > 0.0 then 1.0 else -1.0
  }

  /** Vector2.right * direction * dashForce, as an impulse. */
  function DashImpulse(direction: real, dashForce: real): ForceCommand
  {
    AddForce(Vec2(direction * dashForce, 0.0), Impulse)
  }

  /** The fields a super mode writes on its player. */
  datatype Modifiers = Modifiers(
    isSuperMode: bool,
    speedMultiplier: real,
    jumpMultiplier: real,
    keepBall: bool,
    powerShotPending: bool,
    powerShotMultiplier: real)

  /** The values a freshly woken player has. */
  const BASE_MODIFIERS := Modifiers(false, 1.0, 1.0, false, false, 2.5)

  /** One running stun coroutine: time left to wait and the constraints it will restore. */
  datatype StunTimer = StunTimer(remaining: real, saved: Constraints)

  /** The part of a player a stun touches. */
  datatype StunState = StunState(
    isStunned: bool,
    velocity: Vec2,
    angularVelocity: real,
    constraints: Constraints,
    timers: seq<StunTimer>)

  /** The start of a stun coroutine: stunned, stopped, frozen, and the current constraints saved. */
  function BeginStun(b: StunState, duration: real): StunState
  {
    StunState(true, ZERO2, 0.0, FREEZE_ALL, b.timers + [StunTimer(duration, b.constraints)])
  }

  /**
   * Advances the stun coroutines in order by `dt`. A coroutine whose wait is
   * over restores the constraints it saved and clears the stun; surviving
   * ones are appended to `kept`.
   */
  function StepTimers(ts: seq<StunTimer>, dt: real, kept: seq<StunTimer>, c: Constraints, stunned: bool)
    : (seq<StunTimer>, Constraints, bool)
    decreases |ts|
  {
    if ts == [] then (kept, c, stunned)
    else if ts[0].remaining - dt <= 0.0 then StepTimers(ts[1..], dt, kept, ts[0].saved, false)
    else StepTimers(ts[1..], dt, kept + [ts[0].(remaining := ts[0].remaining - dt)], c, stunned)
  }

  function StepStuns(b: StunState, dt: real): StunState
  {
    var (kept, c, stunned) := StepTimers(b.timers, dt, [], b.constraints, b.isStunned);
    b.(timers := kept, constraints := c, isStunned := stunned)
  }

  /** The timers that survive a step of `dt`, each shortened by exactly `dt`. */
  function Survivors(ts: seq<StunTimer>, dt: real): (r: seq<StunTimer>)
    ensures forall i :: 0 <= i < |r| ==> r[i].remaining > 0.0
    ensures |r| <= |ts|
  {
    if ts == [] then []
    else if ts[0].remaining - dt <= 0.0 then Survivors(ts[1..], dt)
    else [ts[0].(remaining := ts[0].remaining - dt)] + Survivors(ts[1..], dt)
  }

  predicate AnyExpires(ts: seq<StunTimer>, dt: real)
  {
    exists i :: 0 <= i < |ts| && ts[i].remaining - dt <= 0.0
  }

  /** The index of the last timer that expires in a step of `dt`. */
  function LastExpiring(ts: seq<StunTimer>, dt: real): (i: nat)
    requires AnyExpires(ts, dt)
    ensures i < |ts| && ts[i].remaining - dt <= 0.0
    ensures forall j :: i < j < |ts| ==> ts[j].remaining - dt > 0.0
    decreases |ts|
  {
    var n := |ts| - 1;
    if ts[n].remaining - dt <= 0.0 then n
    else
      assert AnyExpires(ts[..n], dt) by {
        var k :| 0 <= k < |ts| && ts[k].remaining - dt <= 0.0;
        assert ts[..n][k] == ts[k];
      }
      LastExpiring(ts[..n], dt)
  }

  /**
   * What one step does to the stun timers: every timer other than the ones it
   * ends loses exactly `dt` (expiring one never touches another), and the
   * constraints are those saved by the LAST timer that expired, or unchanged
   * with the stun flag when none expired.
   */
  lemma {:induction false} StepTimersMeaning(ts: seq<StunTimer>, dt: real, kept: seq<StunTimer>, c: Constraints, s: bool)
    ensures StepTimers(ts, dt, kept, c, s).0 == kept + Survivors(ts, dt)
    ensures !AnyExpires(ts, dt) ==> StepTimers(ts, dt, kept, c, s).1 == c && StepTimers(ts, dt, kept, c, s).2 == s
    ensures AnyExpires(ts, dt) ==>
      StepTimers(ts, dt, kept, c, s).1 == ts[LastExpiring(ts, dt)].saved && !StepTimers(ts, dt, kept, c, s).2
  {
    StepTimersKeepsSurvivors(ts, dt, kept, c, s);
    StepTimersRestores(ts, dt, kept, c, s);
  }

  lemma {:induction false} StepTimersKeepsSurvivors(ts: seq<StunTimer>, dt: real, kept: seq<StunTimer>, c: Constraints, s: bool)
    ensures StepTimers(ts, dt, kept, c, s).0 == kept + Survivors(ts, dt)
    decreases |ts|
  {
    if ts != [] {
      var rest := ts[1..];
      if ts[0].remaining - dt <= 0.0 {
        StepTimersKeepsSurvivors(rest, dt, kept, ts[0].saved, false);
      } else {
        var t := ts[0].(remaining := ts[0].remaining - dt);
        StepTimersKeepsSurvivors(rest, dt, kept + [t], c, s);
        assert Survivors(ts, dt) == [t] + Survivors(rest, dt);
        assert kept + [t] + Survivors(rest, dt) == kept + ([t] + Survivors(rest, dt));
      }
    }
  }

  lemma {:induction false} StepTimersRestores(ts: seq<StunTimer>, dt: real, kept: seq<StunTimer>, c: Constraints, s: bool)
    ensures !AnyExpires(ts, dt) ==> StepTimers(ts, dt, kept, c, s).1 == c && StepTimers(ts, dt, kept, c, s).2 == s
    ensures AnyExpires(ts, dt) ==>
      StepTimers(ts, dt, kept, c, s).1 == ts[LastExpiring(ts, dt)].saved && !StepTimers(ts, dt, kept, c, s).2
    decreases |ts|
  {
    if ts != [] {
      var rest := ts[1..];
      var expires := ts[0].remaining - dt <= 0.0;
      if expires {
        StepTimersRestores(rest, dt, kept, ts[0].saved, false);
      } else {
        StepTimersRestores(rest, dt, kept + [ts[0].(remaining := ts[0].remaining - dt)], c, s);
      }
      assert AnyExpires(ts, dt) <==> expires || AnyExpires(rest, dt) by {
        if AnyExpires(rest, dt) {
          var k :| 0 <= k < |rest| && rest[k].remaining - dt <= 0.0;
          assert ts[k + 1] == rest[k];
        }
        if AnyExpires(ts, dt) && !expires {
          var k :| 0 <= k < |ts| && ts[k].remaining - dt <= 0.0;
          assert rest[k - 1] == ts[k];
        }
      }
      if AnyExpires(rest, dt) {
        LastExpiringOfTail(ts, dt);
      } else if expires {
        LastExpiringIsHead(ts, dt);
      }
    }
  }

  lemma LastExpiringOfTail(ts: seq<StunTimer>, dt: real)
    requires |ts| > 0 && AnyExpires(ts[1..], dt)
    ensures AnyExpires(ts, dt)
    ensures LastExpiring(ts, dt) == LastExpiring(ts[1..], dt) + 1
  {
    var k :| 0 <= k < |ts[1..]| && ts[1..][k].remaining - dt <= 0.0;
    assert ts[k + 1].remaining - dt <= 0.0;
    var j := LastExpiring(ts[1..], dt);
    assert ts[j + 1] == ts[1..][j];
    assert forall q :: j + 1 < q < |ts| ==> ts[q] == ts[1..][q - 1];
  }

  lemma LastExpiringIsHead(ts: seq<StunTimer>, dt: real)
    requires |ts| > 0 && ts[0].remaining - dt <= 0.0 && !AnyExpires(ts[1..], dt)
    ensures AnyExpires(ts, dt)
    ensures LastExpiring(ts, dt) == 0
  {
    assert forall q :: 0 < q < |ts| ==> ts[q] == ts[1..][q - 1];
  }

  function Sum(dts: seq<real>): real
  {
    if dts == [] then 0.0 else dts[0] + Sum(dts[1..])
  }

  lemma {:induction false} SumNonNegative(dts: seq<real>)
    requires forall i :: 0 <= i < |dts| ==> dts[i] >= 0.0
    ensures Sum(dts) >= 0.0
  {
    if dts != [] {
      SumNonNegative(dts[1..]);
    }
  }

  /** The stun state after the frames of `dts`, one StepStuns per frame. */
  function StepStunsMany(b: StunState, dts: seq<real>): StunState
    decreases |dts|
  {
    if dts == [] then b else StepStunsMany(StepStuns(b, dts[0]), dts[1..])
  }

  /** A stun of an unstunned player: stunned and frozen while less than `d` seconds have passed. */
  lemma {:induction false} StunHoldsBeforeItsDuration(b: StunState, d: real, dts: seq<real>)
    requires b.timers == []
    requires forall i :: 0 <= i < |dts| ==> dts[i] >= 0.0
    requires Sum(dts) < d
    ensures StepStunsMany(BeginStun(b, d), dts)
      == BeginStun(b, d).(timers := [StunTimer(d - Sum(dts), b.constraints)])
  {
    StunHoldsFrom(BeginStun(b, d), d, b.constraints, dts);
  }

  lemma {:induction false} StunHoldsFrom(s: StunState, r: real, saved: Constraints, dts: seq<real>)
    requires s.timers == [StunTimer(r, saved)]
    requires forall i :: 0 <= i < |dts| ==> dts[i] >= 0.0
    requires Sum(dts) < r
    ensures StepStunsMany(s, dts) == s.(timers := [StunTimer(r - Sum(dts), saved)])
    decreases |dts|
  {
    if dts != [] {
      var rest := dts[1..];
      SumNonNegative(rest);
      assert r - dts[0] > 0.0;
      var next := StepStuns(s, dts[0]);
      StepOneTimer(s, dts[0]);
      StunHoldsFrom(next, r - dts[0], saved, rest);
    }
  }

  /** A step with exactly one stun timer pending. */
  lemma StepOneTimer(s: StunState, dt: real)
    requires |s.timers| == 1
    ensures var t := s.timers[0];
      StepStuns(s, dt) == if t.remaining - dt <= 0.0 then s.(timers := [], constraints := t.saved, isStunned := false)
                          else s.(timers := [t.(remaining := t.remaining - dt)])
  {
    var t := s.timers[0];
    assert s.timers[1..] == [];
    if t.remaining - dt <= 0.0 {
      assert StepTimers(s.timers, dt, [], s.constraints, s.isStunned) == StepTimers([], dt, [], t.saved, false);
    } else {
      assert [] + [t.(remaining := t.remaining - dt)] == [t.(remaining := t.remaining - dt)];
      assert StepTimers(s.timers, dt, [], s.constraints, s.isStunned)
          == StepTimers([], dt, [t.(remaining := t.remaining - dt)], s.constraints, s.isStunned);
    }
  }

  /**
   * The frame in which the accumulated time reaches `d` ends the stun: the
   * saved constraints are back, the flag is clear and no timer is left.
   */
  lemma {:induction false} StunEndsAtItsDuration(b: StunState, d: real, dts: seq<real>, dt: real)
    requires b.timers == []
    requires forall i :: 0 <= i < |dts| ==> dts[i] >= 0.0
    requires Sum(dts) < d <= Sum(dts) + dt
    ensures StepStuns(StepStunsMany(BeginStun(b, d), dts), dt)
      == StunState(false, ZERO2, 0.0, b.constraints, [])
  {
    StunHoldsBeforeItsDuration(b, d, dts);
    StepOneTimer(StepStunsMany(BeginStun(b, d), dts), dt);
  }

  /** Frames with no stun pending change nothing. */
  lemma {:induction false} NoStunStaysPut(s: StunState, dts: seq<real>)
    requires s.timers == []
    ensures StepStunsMany(s, dts) == s
    decreases |dts|
  {
    if dts != [] {
      assert StepStuns(s, dts[0]) == s;
      NoStunStaysPut(s, dts[1..]);
    }
  }

  /** A single stun countdown of `r` seconds ends within frames totalling at least `r`, and nothing after. */
  lemma {:induction false} OneStunRunsOut(s: StunState, r: real, saved: Constraints, dts: seq<real>)
    requires s.timers == [StunTimer(r, saved)] && r > 0.0
    requires forall i :: 0 <= i < |dts| ==> dts[i] >= 0.0
    requires Sum(dts) >= r
    ensures StepStunsMany(s, dts) == s.(timers := [], constraints := saved, isStunned := false)
    decreases |dts|
  {
    var rest := dts[1..];
    StepOneTimer(s, dts[0]);
    var next := StepStuns(s, dts[0]);
    if r - dts[0] <= 0.0 {
      NoStunStaysPut(next, rest);
    } else {
      OneStunRunsOut(next, r - dts[0], saved, rest);
    }
  }

  /** A step with two stun timers pending, the second lasting at least as long as the first. */
  lemma StepTwoTimers(s: StunState, dt: real)
    requires |s.timers| == 2 && s.timers[0].remaining <= s.timers[1].remaining
    ensures var t0 := s.timers[0]; var t1 := s.timers[1];
      StepStuns(s, dt)
        == if t1.remaining - dt <= 0.0 then s.(timers := [], constraints := t1.saved, isStunned := false)
           else if t0.remaining - dt <= 0.0
           then s.(timers := [t1.(remaining := t1.remaining - dt)], constraints := t0.saved, isStunned := false)
           else s.(timers := [t0.(remaining := t0.remaining - dt), t1.(remaining := t1.remaining - dt)])
  {
    var ts := s.timers;
    var t0, t1 := ts[0], ts[1];
    var u0, u1 := t0.(remaining := t0.remaining - dt), t1.(remaining := t1.remaining - dt);
    assert ts[1..] == [t1] && ts[1..][1..] == [];
    if t0.remaining - dt <= 0.0 {
      assert StepTimers(ts, dt, [], s.constraints, s.isStunned) == StepTimers([t1], dt, [], t0.saved, false);
      if t1.remaining - dt > 0.0 {
        assert [] + [u1] == [u1];
        assert StepTimers([t1], dt, [], t0.saved, false) == StepTimers([], dt, [u1], t0.saved, false);
      }
    } else {
      assert [] + [u0] == [u0] && [u0] + [u1] == [u0, u1];
      assert StepTimers(ts, dt, [], s.constraints, s.isStunned) == StepTimers([t1], dt, [u0], s.constraints, s.isStunned);
      assert StepTimers([t1], dt, [u0], s.constraints, s.isStunned)
          == StepTimers([], dt, [u0, u1], s.constraints, s.isStunned);
    }
  }

  /**
   * Two stun countdowns, the later-saved one lasting at least as long: once
   * frames totalling `r1` have passed, both have ended and the constraints
   * are those the SECOND one saved.
   */
  lemma {:induction false} TwoStunsRunOut(s: StunState, r0: real, c0: Constraints, r1: real, c1: Constraints, dts: seq<real>)
    requires s.timers == [StunTimer(r0, c0), StunTimer(r1, c1)] && 0.0 < r0 <= r1
    requires forall i :: 0 <= i < |dts| ==> dts[i] >= 0.0
    requires Sum(dts) >= r1
    ensures StepStunsMany(s, dts) == s.(timers := [], constraints := c1, isStunned := false)
    decreases |dts|
  {
    var dt, rest := dts[0], dts[1..];
    StepTwoTimers(s, dt);
    var next := StepStuns(s, dt);
    if r1 - dt <= 0.0 {
      NoStunStaysPut(next, rest);
    } else if r0 - dt <= 0.0 {
      OneStunRunsOut(next, r1 - dt, c1, rest);
    } else {
      TwoStunsRunOut(next, r0 - dt, c0, r1 - dt, c1, rest);
    }
  }

  /**
   * Two stuns overlapping on one player, as the stun coroutine is written:
   * the second begins while the first is still running (after frames `dts1`
   * totalling less than `d1`) and does not end before it (as with Ronaldo's,
   * which all last the same time). The second saves the frozen constraints
   * of the first, so once the frames `dts2` have covered its duration the
   * player is unstunned but still frozen in place, with no timer left to
   * release it, whatever constraints it had before.
   */
  lemma {:induction false} OverlappingStunsLeaveFrozen(b: StunState, d1: real, d2: real, dts1: seq<real>, dts2: seq<real>)
    requires b.timers == []
    requires forall i :: 0 <= i < |dts1| ==> dts1[i] >= 0.0
    requires forall i :: 0 <= i < |dts2| ==> dts2[i] >= 0.0
    requires Sum(dts1) < d1 && d1 - Sum(dts1) <= d2
    requires Sum(dts2) >= d2
    ensures var second := BeginStun(StepStunsMany(BeginStun(b, d1), dts1), d2);
            var after := StepStunsMany(second, dts2);
            && after.constraints == FREEZE_ALL && !after.isStunned && after.timers == []
            && after == StunState(false, ZERO2, 0.0, FREEZE_ALL, [])
  {
    StunHoldsBeforeItsDuration(b, d1, dts1);
    var first := StepStunsMany(BeginStun(b, d1), dts1);
    var second := BeginStun(first, d2);
    assert second.timers == [StunTimer(d1 - Sum(dts1), b.constraints), StunTimer(d2, FREEZE_ALL)];
    TwoStunsRunOut(second, d1 - Sum(dts1), b.constraints, d2, FREEZE_ALL, dts2);
  }

  class PlayerController {
    const settings: PlayerSettings
    /** Whether the player has a "Visual" child (the sprite root that flips). */
    const hasVisual: bool

    var playerNumber: int
    var lastDashTime: real
    var horizontalInput: real

    var isSuperMode: bool
    var superModeSpeedMultiplier: real
    var superModeJumpMultiplier: real
    var hasShield: bool
    var hasMegaBall: bool
    var megaBallMultiplier: real
    var isStunned: bool
    var hasReversedControls: bool
    var keepBallInSuperMode: bool
    var enableHaalandPowerShot: bool
    var haalandShotPowerMultiplier: real

    // the player's Rigidbody2D
    var velocity: Vec2
    var angularVelocity: real
    var constraints: Constraints
    var forces: seq<ForceCommand>

    // the player's Transform and the Visual child's scale
    var position: Vec3
    var rootScale: Vec3
    var visualScale: Vec3

    /** Countdowns of the stun coroutines started against this player. */
    var stunTimers: seq<StunTimer>

    function Mods(): Modifiers
      reads this`isSuperMode, this`superModeSpeedMultiplier, this`superModeJumpMultiplier,
            this`keepBallInSuperMode, this`enableHaalandPowerShot, this`haalandShotPowerMultiplier
    {
      Modifiers(isSuperMode, superModeSpeedMultiplier, superModeJumpMultiplier,
                keepBallInSuperMode, enableHaalandPowerShot, haalandShotPowerMultiplier)
    }

    function Stun(): StunState
      reads this`isStunned, this`velocity, this`angularVelocity, this`constraints, this`stunTimers
    {
      StunState(isStunned, velocity, angularVelocity, constraints, stunTimers)
    }

    /** Instantiation and Awake: field initialisers, no velocity, rotation frozen. */
    constructor (settings: PlayerSettings, position: Vec3, rootScale: Vec3, hasVisual: bool, visualScale: Vec3)
      ensures this.settings == settings && this.hasVisual == hasVisual
      ensures this.position == position && this.rootScale == rootScale && this.visualScale == visualScale
      ensures playerNumber == settings.playerNumber && lastDashTime == 0.0 && horizontalInput == 0.0
      ensures Mods() == BASE_MODIFIERS
      ensures !hasShield && !hasMegaBall && megaBallMultiplier == 1.0 && !hasReversedControls
      ensures Stun() == StunState(false, ZERO2, 0.0, FREEZE_ROTATION, [])
      ensures forces == []
    {
      this.settings := settings;
      this.hasVisual := hasVisual;
      this.position := position;
      this.rootScale := rootScale;
      this.visualScale := visualScale;
      playerNumber := settings.playerNumber;
      lastDashTime := 0.0;
      horizontalInput := 0.0;
      isSuperMode := false;
      superModeSpeedMultiplier := 1.0;
      superModeJumpMultiplier := 1.0;
      hasShield := false;
      hasMegaBall := false;
      megaBallMultiplier := 1.0;
      isStunned := false;
      hasReversedControls := false;
      keepBallInSuperMode := false;
      enableHaalandPowerShot := false;
      haalandShotPowerMultiplier := 2.5;
      velocity := ZERO2;
      angularVelocity := 0.0;
      constraints := FREEZE_ROTATION;
      forces := [];
      stunTimers := [];
    }

    method SetPlayerNumber(n: int)
      modifies this`playerNumber
      ensures playerNumber == n
    {
      playerNumber := n;
    }

    /**
     * Update: reads this frame's keys. A stunned player's horizontal input is
     * 0 and nothing else happens; otherwise the horizontal axis follows the
     * player's keys and a dash fires when its key went down and the cooldown
     * has passed.
     */
    method GetInput(keys: Keys, time: real)
      modifies this`horizontalInput, this`lastDashTime, this`forces
      ensures isStunned ==>
        horizontalInput == 0.0 && lastDashTime == old(lastDashTime) && forces == old(forces)
      ensures !isStunned && ControlsOf(playerNumber, keys).None? ==>
        horizontalInput == old(horizontalInput) && lastDashTime == old(lastDashTime) && forces == old(forces)
      ensures !isStunned && ControlsOf(playerNumber, keys).Some? ==>
        var c := ControlsOf(playerNumber, keys).value;
        && horizontalInput == HorizontalInput(c.left, c.right, hasReversedControls)
        && if c.dashDown && DashReady(time, old(lastDashTime), settings.dashCooldown) then
             && lastDashTime == time
             && forces == old(forces)
                + [DashImpulse(DashDirection(horizontalInput, hasVisual, visualScale.x), settings.dashForce)]
           else lastDashTime == old(lastDashTime) && forces == old(forces)
    {
      if isStunned {
        horizontalInput := 0.0;
        return;
      }
      var controls := ControlsOf(playerNumber, keys);
      if controls.Some? {
        var c := controls.value;
        horizontalInput := HorizontalInput(c.left, c.right, hasReversedControls);
        if c.dashDown && time >= lastDashTime + settings.dashCooldown {
          Dash(time);
        }
      }
    }

    method Dash(time: real)
      modifies this`lastDashTime, this`forces
      ensures lastDashTime == time
      ensures forces == old(forces)
        + [DashImpulse(DashDirection(horizontalInput, hasVisual, visualScale.x), settings.dashForce)]
    {
      var direction := if horizontalInput != 0.0 then horizontalInput
                       else if hasVisual && visualScale.x > 0.0 then 1.0 else -1.0;
      forces := forces + [DashImpulse(direction, settings.dashForce)];
      lastDashTime := time;
    }

    /**
     * FixedUpdate: sets the velocity from the horizontal input and this
     * frame's vertical keys, both scaled by the speed with its super-mode
     * multiplier, and turns the visual toward a decisive horizontal move.
     */
    method Move(keys: Keys)
      modifies this`velocity, this`visualScale
      ensures velocity == MoveVelocity(horizontalInput, ControlsOf(playerNumber, keys), hasReversedControls,
                                       settings.moveSpeed * superModeSpeedMultiplier)
      ensures visualScale == if hasVisual then FacingAfterMove(velocity.x, old(visualScale)) else old(visualScale)
    {
      var currentSpeed := settings.moveSpeed * superModeSpeedMultiplier;
      var moveX := horizontalInput * currentSpeed;
      var moveY := 0.0;
      var m := if hasReversedControls then -1.0 else 1.0;
      var controls := ControlsOf(playerNumber, keys);
      if controls.Some? {
        if controls.value.up { moveY := 1.0 * m; }
        if controls.value.down { moveY := -1.0 * m; }
      }
      moveY := moveY * currentSpeed;
      velocity := Vec2(moveX, moveY);
      if hasVisual {
        if moveX > FACING_THRESHOLD {
          visualScale := Vec3(1.0, 1.0, 1.0);
        } else if moveX < -FACING_THRESHOLD {
          visualScale := Vec3(-1.0, 1.0, 1.0);
        }
      }
    }

    /** The synchronous start of a stun coroutine against this player. */
    method BeginStunning(duration: real)
      modifies this`isStunned, this`velocity, this`angularVelocity, this`constraints, this`stunTimers
      ensures Stun() == BeginStun(old(Stun()), duration)
    {
      isStunned := true;
      var originalConstraints := constraints;
      velocity := ZERO2;
      angularVelocity := 0.0;
      constraints := FREEZE_ALL;
      stunTimers := stunTimers + [StunTimer(duration, originalConstraints)];
    }

    /** Advances every stun coroutine against this player by one frame of `dt` seconds. */
    method TickStuns(dt: real)
      modifies this`isStunned, this`constraints, this`stunTimers
      ensures Stun() == StepStuns(old(Stun()), dt)
    {
      var ts := stunTimers;
      var kept: seq<StunTimer> := [];
      var i := 0;
      while i < |ts|
        invariant 0 <= i <= |ts|
        invariant StepTimers(ts[i..], dt, kept, constraints, isStunned)
               == StepTimers(ts, dt, [], old(constraints), old(isStunned))
      {
        assert ts[i..][1..] == ts[i + 1..];
        var t := ts[i];
        if t.remaining - dt <= 0.0 {
          constraints := t.saved;
          isStunned := false;
        } else {
          kept := kept + [t.(remaining := t.remaining - dt)];
        }
        i := i + 1;
      }
      stunTimers := kept;
    }
  }
}
