/**
 * The four characters' super modes. Activation switches a player's
 * modifiers to the character's ability for a fixed duration (Ronaldo
 * instead stuns every other player); deactivation puts the modifiers back
 * to their base constants.
 *
 * The super-mode coroutine (wait `superDuration` seconds, then deactivate)
 * is the countdown `superTimer`, advanced by `Tick`.
 */
module SuperModes {
  import opened Wrappers
  import opened Geometry
  import opened PlayerControl

  datatype CharacterKind = Son | Ronaldo | Messi | Haaland

  datatype SuperSettings = SuperSettings(
    superDuration: real,
    sonSpeedMultiplier: real,
    ronaldoStunDuration: real,
    haalandShotPowerMultiplier: real)

  /** The serialized defaults of a character. */
  const DEFAULT_SUPER_SETTINGS := SuperSettings(3.0, 2.0, 2.0, 10.0)

  /** Messi's super mode slows the player down while it keeps the ball at the feet. */
  const MESSI_SPEED_MULTIPLIER: real := 0.8

  /** A player's modifiers once the character's ability is applied. */
  function Activated(kind: CharacterKind, s: SuperSettings, m: Modifiers): (r: Modifiers)
    ensures r.isSuperMode
    ensures r.keepBall <==> kind == Messi || m.keepBall
    ensures r.powerShotPending <==> kind == Haaland || m.powerShotPending
    ensures kind == Ronaldo ==> r == m.(isSuperMode := true)
    ensures kind != Haaland ==> r.powerShotMultiplier == m.powerShotMultiplier
    ensures kind == Son || kind == Messi ==> r.jumpMultiplier == 1.0
    ensures kind == Son ==> r == m.(speedMultiplier := s.sonSpeedMultiplier, jumpMultiplier := 1.0, isSuperMode := true)
    ensures kind == Messi ==> r.speedMultiplier == MESSI_SPEED_MULTIPLIER && r.keepBall
    ensures kind == Haaland ==>
      r.powerShotMultiplier == s.haalandShotPowerMultiplier
      && r.speedMultiplier == m.speedMultiplier && r.jumpMultiplier == m.jumpMultiplier
  {
    match kind
    case Son => m.(speedMultiplier := s.sonSpeedMultiplier, jumpMultiplier := 1.0, isSuperMode := true)
    case Ronaldo => m.(isSuperMode := true)
    case Messi =>
      m.(speedMultiplier := MESSI_SPEED_MULTIPLIER, jumpMultiplier := 1.0, isSuperMode := true, keepBall := true)
    case Haaland =>
      m.(isSuperMode := true, powerShotPending := true, powerShotMultiplier := s.haalandShotPowerMultiplier)
  }

  /**
   * The modifiers after deactivation: the base values, whatever they were
   * before activation, except the power-shot multiplier, which stays.
   */
  function Deactivated(m: Modifiers): (r: Modifiers)
    ensures r == BASE_MODIFIERS.(powerShotMultiplier := m.powerShotMultiplier)
  {
    m.(speedMultiplier := 1.0, jumpMultiplier := 1.0, isSuperMode := false,
       keepBall := false, powerShotPending := false)
  }

  /** From the base modifiers, a super mode and its end come back to the base (Haaland keeps his multiplier). */
  lemma {:induction false} DeactivateAfterActivate(kind: CharacterKind, s: SuperSettings)
    ensures Deactivated(Activated(kind, s, BASE_MODIFIERS))
         == if kind == Haaland then BASE_MODIFIERS.(powerShotMultiplier := s.haalandShotPowerMultiplier)
            else BASE_MODIFIERS
  {
  }

  /**
   * What a character's super mode consists of: the active flag, the pending
   * countdown and, when the character has a player controller, that
   * player's modifiers.
   */
  datatype SuperState = SuperState(active: bool, timer: Option<real>, mods: Option<Modifiers>)

  function Activate(kind: CharacterKind, s: SuperSettings, st: SuperState): (r: SuperState)
    ensures r.active
    ensures st.active ==> r == st
    ensures !st.active ==> r.timer == if s.superDuration > 0.0 then Some(s.superDuration) else st.timer
    ensures !st.active ==> r.mods.Some? == st.mods.Some?
    ensures !st.active && st.mods.Some? ==> r.mods.value == Activated(kind, s, st.mods.value)
  {
    if st.active then st
    else
      SuperState(true,
                 if s.superDuration > 0.0 then Some(s.superDuration) else st.timer,
                 match st.mods case None => None case Some(m) => Some(Activated(kind, s, m)))
  }

  function Deactivate(st: SuperState): (r: SuperState)
    ensures !r.active && r.timer == st.timer
    ensures !st.active ==> r == st
    ensures st.active ==> r.mods.Some? == st.mods.Some?
    ensures st.active && st.mods.Some? ==> r.mods.value == Deactivated(st.mods.value)
  {
    if !st.active then st
    else st.(active := false, mods := match st.mods case None => None case Some(m) => Some(Deactivated(m)))
  }

  /** One frame of `dt` seconds of the super-mode coroutine. */
  function Tick(st: SuperState, dt: real): (r: SuperState)
    ensures st.timer.None? ==> r == st
    ensures st.timer.Some? && st.timer.value - dt > 0.0 ==> r == st.(timer := Some(st.timer.value - dt))
    ensures st.timer.Some? && st.timer.value - dt <= 0.0 ==> r == Deactivate(st.(timer := None))
  {
    match st.timer
    case None => st
    case Some(remaining) =>
      if remaining - dt <= 0.0 then Deactivate(st.(timer := None)) else st.(timer := Some(remaining - dt))
  }

  function TickMany(st: SuperState, dts: seq<real>): SuperState
    decreases |dts|
  {
    if dts == [] then st else TickMany(Tick(st, dts[0]), dts[1..])
  }

  /** Activating an active super mode changes nothing. */
  lemma {:induction false} ActivateIsIdempotent(kind: CharacterKind, s: SuperSettings, st: SuperState)
    ensures Activate(kind, s, Activate(kind, s, st)) == Activate(kind, s, st)
  {
  }

  /** While less than its duration has passed, the super mode and its modifiers hold. */
  lemma {:induction false} SuperModeLastsItsDuration(kind: CharacterKind, s: SuperSettings, st: SuperState, dts: seq<real>)
    requires !st.active && s.superDuration > 0.0
    requires forall i :: 0 <= i < |dts| ==> dts[i] >= 0.0
    requires Sum(dts) < s.superDuration
    ensures TickMany(Activate(kind, s, st), dts)
         == Activate(kind, s, st).(timer := Some(s.superDuration - Sum(dts)))
  {
    SuperModeHoldsFrom(Activate(kind, s, st), s.superDuration, dts);
  }

  lemma {:induction false} SuperModeHoldsFrom(st: SuperState, r: real, dts: seq<real>)
    requires st.timer == Some(r)
    requires forall i :: 0 <= i < |dts| ==> dts[i] >= 0.0
    requires Sum(dts) < r
    ensures TickMany(st, dts) == st.(timer := Some(r - Sum(dts)))
    decreases |dts|
  {
    if dts != [] {
      var rest := dts[1..];
      SumNonNegative(rest);
      assert r - dts[0] > 0.0;
      SuperModeHoldsFrom(Tick(st, dts[0]), r - dts[0], rest);
    }
  }

  /**
   * The frame in which the elapsed time reaches the duration ends the super
   * mode: inactive, no countdown, the modifiers deactivated.
   */
  lemma {:induction false} SuperModeEndsAtItsDuration(kind: CharacterKind, s: SuperSettings, m: Modifiers,
                                                      dts: seq<real>, dt: real)
    requires s.superDuration > 0.0
    requires forall i :: 0 <= i < |dts| ==> dts[i] >= 0.0
    requires Sum(dts) < s.superDuration <= Sum(dts) + dt
    ensures Tick(TickMany(Activate(kind, s, SuperState(false, None, Some(m))), dts), dt)
         == SuperState(false, None, Some(Deactivated(Activated(kind, s, m))))
  {
    SuperModeLastsItsDuration(kind, s, SuperState(false, None, Some(m)), dts);
  }

  /** With a non-positive duration no countdown is started, so the super mode never ends by itself. */
  lemma {:induction false} UntimedSuperModeNeverEnds(kind: CharacterKind, s: SuperSettings, st: SuperState, dts: seq<real>)
    requires !st.active && st.timer.None? && s.superDuration <= 0.0
    ensures TickMany(Activate(kind, s, st), dts) == Activate(kind, s, st)
    decreases |dts|
  {
    if dts != [] {
      UntimedSuperModeNeverEnds(kind, s, st, dts[1..]);
    }
  }

  class CharacterType {
    const kind: CharacterKind
    const settings: SuperSettings
    /** The PlayerController on the same object, if any. */
    const pc: PlayerController?
    /** The object's local scale when it woke up. */
    const originalScale: Vec3

    var isSuperModeActive: bool
    /** The remaining seconds of the running super-mode coroutine, if one runs. */
    var superTimer: Option<real>

    /** The player controller as a frame: empty when there is none. */
    function Own(): seq<PlayerController>
    {
      if pc == null then [] else [pc]
    }

    function State(): SuperState
      reads this, pc
    {
      SuperState(isSuperModeActive, superTimer, if pc == null then None else Some(pc.Mods()))
    }

    /** Awake: remembers the scale; no super mode is running. */
    constructor (kind: CharacterKind, settings: SuperSettings, pc: PlayerController?, localScale: Vec3)
      ensures this.kind == kind && this.settings == settings && this.pc == pc
      ensures originalScale == localScale
      ensures !isSuperModeActive && superTimer.None?
    {
      this.kind := kind;
      this.settings := settings;
      this.pc := pc;
      originalScale := localScale;
      isSuperModeActive := false;
      superTimer := None;
    }

    /**
     * Starts the character's super mode unless it is already on, and
     * (re)starts the countdown when the duration is positive. `players` are
     * the player controllers in the scene; Ronaldo stuns each of them except
     * his own.
     */
    method ActivateSuperMode(players: seq<PlayerController>)
      requires forall i, j :: 0 <= i < j < |players| ==> players[i] != players[j]
      modifies this`isSuperModeActive, this`superTimer
      modifies Own()`isSuperMode, Own()`superModeSpeedMultiplier, Own()`superModeJumpMultiplier,
               Own()`keepBallInSuperMode, Own()`enableHaalandPowerShot, Own()`haalandShotPowerMultiplier
      modifies players`isStunned, players`velocity, players`angularVelocity, players`constraints,
               players`stunTimers
      ensures State() == Activate(kind, settings, old(State()))
      ensures forall i :: 0 <= i < |players| ==>
        players[i].Stun() == if !old(isSuperModeActive) && kind == Ronaldo && players[i] != pc
                             then BeginStun(old(players[i].Stun()), settings.ronaldoStunDuration)
                             else old(players[i].Stun())
    {
      if isSuperModeActive {
        return;
      }
      isSuperModeActive := true;
      match kind {
        case Son => ActivateSonSuper();
        case Ronaldo => ActivateRonaldoSuper(players);
        case Messi => ActivateMessiSuper();
        case Haaland => ActivateHaalandSuper();
      }
      if settings.superDuration > 0.0 {
        superTimer := Some(settings.superDuration);
      }
    }

    method ActivateSonSuper()
      modifies Own()`isSuperMode, Own()`superModeSpeedMultiplier, Own()`superModeJumpMultiplier
      ensures pc != null ==> pc.Mods() == Activated(Son, settings, old(pc.Mods()))
    {
      if pc != null {
        assert Own()[0] == pc;
        pc.superModeSpeedMultiplier := settings.sonSpeedMultiplier;
        pc.superModeJumpMultiplier := 1.0;
        pc.isSuperMode := true;
      }
    }

    /** Ronaldo: super mode on, and a stun of `ronaldoStunDuration` started against every other player. */
    method ActivateRonaldoSuper(players: seq<PlayerController>)
      requires forall i, j :: 0 <= i < j < |players| ==> players[i] != players[j]
      modifies Own()`isSuperMode
      modifies players`isStunned, players`velocity, players`angularVelocity, players`constraints,
               players`stunTimers
      ensures pc != null ==> pc.Mods() == Activated(Ronaldo, settings, old(pc.Mods()))
      ensures forall i :: 0 <= i < |players| ==>
        players[i].Stun() == if players[i] != pc
                             then BeginStun(old(players[i].Stun()), settings.ronaldoStunDuration)
                             else old(players[i].Stun())
    {
      if pc != null {
        assert Own()[0] == pc;
        pc.isSuperMode := true;
      }
      var i := 0;
      while i < |players|
        invariant 0 <= i <= |players|
        invariant pc != null ==> pc.Mods() == Activated(Ronaldo, settings, old(pc.Mods()))
        invariant forall j :: 0 <= j < i ==>
          players[j].Stun() == if players[j] != pc
                               then BeginStun(old(players[j].Stun()), settings.ronaldoStunDuration)
                               else old(players[j].Stun())
        invariant forall j :: i <= j < |players| ==> players[j].Stun() == old(players[j].Stun())
      {
        var p := players[i];
        if p != pc {
          p.BeginStunning(settings.ronaldoStunDuration);
        }
        i := i + 1;
      }
    }

    method ActivateMessiSuper()
      modifies Own()`isSuperMode, Own()`superModeSpeedMultiplier, Own()`superModeJumpMultiplier, Own()`keepBallInSuperMode
      ensures pc != null ==> pc.Mods() == Activated(Messi, settings, old(pc.Mods()))
    {
      if pc != null {
        assert Own()[0] == pc;
        pc.superModeSpeedMultiplier := MESSI_SPEED_MULTIPLIER;
        pc.superModeJumpMultiplier := 1.0;
        pc.isSuperMode := true;
        pc.keepBallInSuperMode := true;
      }
    }

    method ActivateHaalandSuper()
      modifies Own()`isSuperMode, Own()`enableHaalandPowerShot, Own()`haalandShotPowerMultiplier
      ensures pc != null ==> pc.Mods() == Activated(Haaland, settings, old(pc.Mods()))
    {
      if pc != null {
        assert Own()[0] == pc;
        pc.isSuperMode := true;
        pc.enableHaalandPowerShot := true;
        pc.haalandShotPowerMultiplier := settings.haalandShotPowerMultiplier;
      }
    }

    /**
     * Ends an active super mode: the player's scale goes back to the one it
     * woke with and its modifiers to their base values. A running countdown
     * is not stopped.
     */
    method DeactivateSuperMode()
      modifies this`isSuperModeActive
      modifies Own()`rootScale, Own()`isSuperMode, Own()`superModeSpeedMultiplier, Own()`superModeJumpMultiplier,
               Own()`keepBallInSuperMode, Own()`enableHaalandPowerShot
      ensures State() == Deactivate(old(State()))
      ensures pc != null ==> pc.rootScale == if old(isSuperModeActive) then originalScale else old(pc.rootScale)
    {
      if !isSuperModeActive {
        return;
      }
      isSuperModeActive := false;
      if pc != null {
        assert Own()[0] == pc;
        pc.rootScale := originalScale;
        pc.superModeSpeedMultiplier := 1.0;
        pc.superModeJumpMultiplier := 1.0;
        pc.isSuperMode := false;
        pc.keepBallInSuperMode := false;
        pc.enableHaalandPowerShot := false;
      }
    }

    /** One frame of `dt` seconds of the super-mode coroutine: it deactivates when the countdown runs out. */
    method SuperModeTimer(dt: real)
      modifies this`isSuperModeActive, this`superTimer
      modifies Own()`rootScale, Own()`isSuperMode, Own()`superModeSpeedMultiplier, Own()`superModeJumpMultiplier,
               Own()`keepBallInSuperMode, Own()`enableHaalandPowerShot
      ensures State() == Tick(old(State()), dt)
      ensures pc != null ==>
        pc.rootScale == if old(isSuperModeActive) && old(superTimer).Some? && old(superTimer).value - dt <= 0.0
                        then originalScale else old(pc.rootScale)
    {
      if superTimer.Some? {
        var remaining := superTimer.value - dt;
        if remaining <= 0.0 {
          superTimer := None;
          DeactivateSuperMode();
        } else {
          superTimer := Some(remaining);
        }
      }
    }
  }
}
