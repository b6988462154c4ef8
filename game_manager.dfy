/**
 * The match: a clock counting down from the match duration, two scores,
 * and the flags active, paused and sudden death. When regular time runs
 * out a tie goes to sudden death, where the next goal ends the match; any
 * other score ends it at once. Every goal outside sudden death starts a
 * short slow-motion goal sequence that puts the players and the ball back
 * on their marks.
 *
 * `Update` receives the frame's scaled delta time. The goal sequence waits
 * in real time, so its countdowns are advanced by `TickGoalSequences` with
 * the unscaled delta.
 */
module Match {
  import opened Wrappers
  import opened Geometry
  import opened Physics
  import opened PlayerControl
  import opened BallPossession
  import opened Session

  const DEFAULT_MATCH_DURATION: real := 60.0
  const DEFAULT_PLAYER1_START := Vec2(-3.0, 3.0)
  const DEFAULT_PLAYER2_START := Vec2(3.0, -3.0)
  const DEFAULT_BALL_START := Vec2(0.0, 0.0)

  /** After the coin toss the ball starts this far left of centre (Player1 left) or right of it. */
  const COIN_TOSS_BALL_X: real := 6.0

  /** The time scale of a goal sequence's slow motion, and its length in real seconds. */
  const GOAL_TIME_SCALE: real := 0.05
  const GOAL_SEQUENCE_SECONDS: real := 0.5

  const RESULT_SCENE := "ResultScene"
  const TITLE_SCENE := "TitleScene"

  // ---------------------------------------------------------------------
  // The match state machine
  // ---------------------------------------------------------------------

  datatype MatchState = MatchState(
    remainingTime: real,
    player1Score: int,
    player2Score: int,
    isGameActive: bool,
    isPaused: bool,
    isSuddenDeath: bool)

  /** EndGame, on the match state: only the active flag changes. */
  function Ended(s: MatchState): MatchState
  {
    s.(isGameActive := false)
  }

  /** EndRegularTime: a tie goes to sudden death, any other score ends the match. */
  function RegularTimeEnded(s: MatchState): (r: MatchState)
    ensures s.player1Score == s.player2Score ==> r == s.(isSuddenDeath := true)
    ensures s.player1Score != s.player2Score ==> r == Ended(s)
  {
    if s.player1Score == s.player2Score then s.(isSuddenDeath := true) else Ended(s)
  }

  /**
   * One Update: nothing while the match is over or paused; otherwise the
   * clock loses `dt`, regular time ends the first time the clock is at or
   * below zero, and Escape toggles the pause.
   */
  function Updated(s: MatchState, dt: real, escapeDown: bool): (r: MatchState)
    ensures !s.isGameActive || s.isPaused ==> r == s
    ensures s.isGameActive && !s.isPaused ==>
      && r.remainingTime == s.remainingTime - dt
      && r.player1Score == s.player1Score && r.player2Score == s.player2Score
      && r.isPaused == escapeDown
      && (r.isSuddenDeath <==>
            s.isSuddenDeath || (s.remainingTime - dt <= 0.0 && s.player1Score == s.player2Score))
      && (r.isGameActive <==>
            !(s.remainingTime - dt <= 0.0 && !s.isSuddenDeath && s.player1Score != s.player2Score))
  {
    if !s.isGameActive || s.isPaused then s
    else
      var ticked := s.(remainingTime := s.remainingTime - dt);
      var checked := if ticked.remainingTime <= 0.0 && !ticked.isSuddenDeath then RegularTimeEnded(ticked) else ticked;
      if escapeDown then checked.(isPaused := !checked.isPaused) else checked
  }

  /**
   * OnGoalScored, on the match state: ignored once the match is over;
   * otherwise the scorer's count goes up by one (a number other than 1 or 2
   * scores nothing), and in sudden death the match ends.
   */
  function Scored(s: MatchState, scorer: int): (r: MatchState)
    ensures !s.isGameActive ==> r == s
    ensures s.isGameActive ==>
      && r.player1Score == s.player1Score + (if scorer == 1 then 1 else 0)
      && r.player2Score == s.player2Score + (if scorer == 2 then 1 else 0)
      && r.remainingTime == s.remainingTime && r.isPaused == s.isPaused
      && r.isSuddenDeath == s.isSuddenDeath
      && r.isGameActive == !s.isSuddenDeath
  {
    if !s.isGameActive then s
    else
      var counted := if scorer == 1 then s.(player1Score := s.player1Score + 1)
                     else if scorer == 2 then s.(player2Score := s.player2Score + 1)
                     else s;
      if counted.isSuddenDeath then Ended(counted) else counted
  }

  /** InitializeGame, on the match state: a full clock, no goals, active, regular time. The pause flag is left alone. */
  function Initialized(s: MatchState, matchDuration: real): (r: MatchState)
    ensures r == MatchState(matchDuration, 0, 0, true, s.isPaused, false)
  {
    s.(remainingTime := matchDuration, player1Score := 0, player2Score := 0,
       isGameActive := true, isSuddenDeath := false)
  }

  /** What can happen to a match: a frame, or a goal reported by a goal trigger. */
  datatype Event = Frame(dt: real, escapeDown: bool) | Goal(scorer: int)

  function Step(s: MatchState, e: Event): MatchState
  {
    match e
    case Frame(dt, escapeDown) => Updated(s, dt, escapeDown)
    case Goal(scorer) => Scored(s, scorer)
  }

  function Run(s: MatchState, es: seq<Event>): MatchState
    decreases |es|
  {
    if es == [] then s else Run(Step(s, es[0]), es[1..])
  }

  /** A match that is over stays over and nothing about it changes. */
  lemma {:induction false} FinishedMatchIsFrozen(s: MatchState, es: seq<Event>)
    requires !s.isGameActive
    ensures Run(s, es) == s
    decreases |es|
  {
    if es != [] {
      FinishedMatchIsFrozen(Step(s, es[0]), es[1..]);
    }
  }

  /**
   * Update returns before it looks at Escape while paused, so a pause is
   * never lifted and the clock never moves again; goals, which are not
   * gated by the pause, are the only thing that can still change.
   */
  lemma {:induction false} PauseIsPermanent(s: MatchState, es: seq<Event>)
    requires s.isPaused
    ensures Run(s, es).isPaused
    ensures Run(s, es).remainingTime == s.remainingTime
    ensures Run(s, es).isSuddenDeath == s.isSuddenDeath
    decreases |es|
  {
    if es != [] {
      PauseIsPermanent(Step(s, es[0]), es[1..]);
    }
  }

  /** Nothing leaves sudden death, and no score ever goes down. */
  lemma {:induction false} SuddenDeathAndScoresOnlyGrow(s: MatchState, es: seq<Event>)
    ensures s.isSuddenDeath ==> Run(s, es).isSuddenDeath
    ensures Run(s, es).player1Score >= s.player1Score && Run(s, es).player2Score >= s.player2Score
    decreases |es|
  {
    if es != [] {
      SuddenDeathAndScoresOnlyGrow(Step(s, es[0]), es[1..]);
    }
  }

  /** A running sudden death is always a tie: it starts on one and the first goal ends it. */
  predicate SuddenDeathIsTied(s: MatchState)
  {
    s.isSuddenDeath && s.isGameActive ==> s.player1Score == s.player2Score
  }

  lemma {:induction false} SuddenDeathStaysTied(s: MatchState, es: seq<Event>)
    requires SuddenDeathIsTied(s)
    ensures SuddenDeathIsTied(Run(s, es))
    decreases |es|
  {
    if es != [] {
      SuddenDeathStaysTied(Step(s, es[0]), es[1..]);
    }
  }

  /**
   * From the start of a match, the golden goal decides it: a goal by
   * player 1 or 2 in sudden death ends the match with the scorer one ahead.
   */
  lemma {:induction false} GoldenGoalDecides(matchDuration: real, before: MatchState, es: seq<Event>, scorer: int)
    requires scorer == 1 || scorer == 2
    requires var s := Run(Initialized(before, matchDuration), es); s.isGameActive && s.isSuddenDeath
    ensures var s := Run(Initialized(before, matchDuration), es);
      var r := Scored(s, scorer);
      && !r.isGameActive
      && (if scorer == 1 then r.player1Score == r.player2Score + 1 else r.player2Score == r.player1Score + 1)
  {
    SuddenDeathStaysTied(Initialized(before, matchDuration), es);
  }

  /** Regular time ends only once: in sudden death the clock may run below zero without effect. */
  lemma {:induction false} RegularTimeEndsOnce(s: MatchState, dt: real, escapeDown: bool)
    requires s.isGameActive && !s.isPaused && s.isSuddenDeath
    ensures Updated(s, dt, escapeDown).isGameActive && Updated(s, dt, escapeDown).isSuddenDeath
  {
  }

  // ---------------------------------------------------------------------
  // Goal sequences
  // ---------------------------------------------------------------------

  /** The real-time countdowns that survive a frame of `dt` real seconds, each reduced by `dt`. */
  function GoalTimersAfter(ts: seq<real>, dt: real): (r: seq<real>)
    ensures |r| <= |ts|
    ensures forall i :: 0 <= i < |r| ==> r[i] > 0.0
    decreases |ts|
  {
    if ts == [] then []
    else
      GoalTimersAfter(ts[..|ts| - 1], dt) + (if ts[|ts| - 1] - dt > 0.0 then [ts[|ts| - 1] - dt] else [])
  }

  predicate AnyGoalSequenceEnds(ts: seq<real>, dt: real)
  {
    exists i :: 0 <= i < |ts| && ts[i] - dt <= 0.0
  }

  /**
   * One real-time frame of every running goal sequence: the countdowns still
   * running, each reduced by `dt`, and whether any of them ran out.
   */
  method CountDownGoalSequences(ts: seq<real>, dt: real) returns (kept: seq<real>, ended: bool)
    ensures kept == GoalTimersAfter(ts, dt)
    ensures ended <==> AnyGoalSequenceEnds(ts, dt)
  {
    kept := [];
    ended := false;
    var i := 0;
    while i < |ts|
      invariant 0 <= i <= |ts|
      invariant kept == GoalTimersAfter(ts[..i], dt)
      invariant ended <==> AnyGoalSequenceEnds(ts[..i], dt)
    {
      assert ts[..i + 1][..i] == ts[..i];
      if ts[i] - dt <= 0.0 {
        ended := true;
      } else {
        kept := kept + [ts[i] - dt];
      }
      i := i + 1;
    }
    assert ts[..i] == ts;
  }

  /** The engine's time scale together with the running goal sequences. */
  datatype SlowMotion = SlowMotion(timeScale: real, timers: seq<real>)

  /** A goal sequence starts: slow motion at once, for half a real second. */
  function GoalSequenceStarted(m: SlowMotion): SlowMotion
  {
    SlowMotion(GOAL_TIME_SCALE, m.timers + [GOAL_SEQUENCE_SECONDS])
  }

  /** A real-time frame: a sequence that runs out restores normal speed (and puts everyone back). */
  function GoalSequencesStepped(m: SlowMotion, dt: real): SlowMotion
  {
    SlowMotion(if AnyGoalSequenceEnds(m.timers, dt) then 1.0 else m.timeScale, GoalTimersAfter(m.timers, dt))
  }

  function GoalSequencesSteppedMany(m: SlowMotion, dts: seq<real>): SlowMotion
    decreases |dts|
  {
    if dts == [] then m else GoalSequencesSteppedMany(GoalSequencesStepped(m, dts[0]), dts[1..])
  }

  lemma {:induction false} SingleGoalTimer(r: real, dt: real)
    ensures GoalTimersAfter([r], dt) == if r - dt > 0.0 then [r - dt] else []
    ensures AnyGoalSequenceEnds([r], dt) <==> r - dt <= 0.0
  {
    assert [r][..0] == [];
  }

  /** For half a real second after a goal the game runs in slow motion. */
  lemma {:induction false} SlowMotionLastsHalfASecond(timeScale: real, dts: seq<real>)
    requires forall i :: 0 <= i < |dts| ==> dts[i] >= 0.0
    requires Sum(dts) < GOAL_SEQUENCE_SECONDS
    ensures GoalSequencesSteppedMany(GoalSequenceStarted(SlowMotion(timeScale, [])), dts)
         == SlowMotion(GOAL_TIME_SCALE, [GOAL_SEQUENCE_SECONDS - Sum(dts)])
  {
    assert [] + [GOAL_SEQUENCE_SECONDS] == [GOAL_SEQUENCE_SECONDS];
    SlowMotionHoldsFrom(GOAL_SEQUENCE_SECONDS, dts);
  }

  lemma {:induction false} SlowMotionHoldsFrom(r: real, dts: seq<real>)
    requires forall i :: 0 <= i < |dts| ==> dts[i] >= 0.0
    requires Sum(dts) < r
    ensures GoalSequencesSteppedMany(SlowMotion(GOAL_TIME_SCALE, [r]), dts)
         == SlowMotion(GOAL_TIME_SCALE, [r - Sum(dts)])
    decreases |dts|
  {
    if dts != [] {
      var rest := dts[1..];
      forall i | 0 <= i < |rest|
        ensures rest[i] >= 0.0
      {
        assert rest[i] == dts[i + 1];
      }
      SumNonNegative(rest);
      SlowMotionStepsOnce(r, dts[0]);
      SlowMotionHoldsFrom(r - dts[0], rest);
    }
  }

  /** A frame shorter than the running countdown keeps the slow motion and shortens the countdown. */
  lemma SlowMotionStepsOnce(r: real, dt: real)
    requires r - dt > 0.0
    ensures GoalSequencesStepped(SlowMotion(GOAL_TIME_SCALE, [r]), dt) == SlowMotion(GOAL_TIME_SCALE, [r - dt])
  {
    SingleGoalTimer(r, dt);
  }

  /** The frame in which half a real second is reached restores normal speed and ends the sequence. */
  lemma {:induction false} SlowMotionEndsAfterHalfASecond(timeScale: real, dts: seq<real>, dt: real)
    requires forall i :: 0 <= i < |dts| ==> dts[i] >= 0.0
    requires Sum(dts) < GOAL_SEQUENCE_SECONDS <= Sum(dts) + dt
    ensures GoalSequencesStepped(GoalSequencesSteppedMany(GoalSequenceStarted(SlowMotion(timeScale, [])), dts), dt)
         == SlowMotion(1.0, [])
  {
    SlowMotionLastsHalfASecond(timeScale, dts);
    SingleGoalTimer(GOAL_SEQUENCE_SECONDS - Sum(dts), dt);
  }

  /**
   * A goal sequence ending during a pause sets the time scale back to 1,
   * so the physics runs again although the match stays paused.
   */
  lemma {:induction false} GoalSequenceEndOverridesPause(r: real, dt: real)
    requires r - dt <= 0.0
    ensures GoalSequencesStepped(SlowMotion(0.0, [r]), dt) == SlowMotion(1.0, [])
  {
    SingleGoalTimer(r, dt);
  }

  // ---------------------------------------------------------------------
  // Spawning and facing
  // ---------------------------------------------------------------------

  /** What a team prefab instantiates: a player with its settings and scales. */
  datatype Prefab = Prefab(settings: PlayerSettings, hasVisual: bool, rootScale: Vec3, visualScale: Vec3)

  /** IsValidTeamIndex: inside the prefab array, and that slot holds a prefab. */
  predicate IsValidTeamIndex(teamPrefabs: seq<Option<Prefab>>, index: int)
  {
    0 <= index < |teamPrefabs| && teamPrefabs[index].Some?
  }

  /**
   * The scale that turns a player toward the centre line: a positive x on
   * the left half, a negative one on the right, unchanged on the line. The
   * size is kept.
   */
  function FacingCenterScale(positionX: real, scale: Vec3): (r: Vec3)
    ensures r.y == scale.y && r.z == scale.z
    ensures Abs(r.x) == Abs(scale.x)
    ensures positionX < 0.0 ==> r.x == Abs(scale.x)
    ensures positionX > 0.0 ==> r.x == -Abs(scale.x)
    ensures positionX == 0.0 ==> r == scale
  {
    if positionX < 0.0 then scale.(x := Abs(scale.x))
    else if positionX > 0.0 then scale.(x := -Abs(scale.x))
    else scale
  }

  /** Off the centre line, a player with a non-zero scale ends up facing the centre (scale sign opposite to the side). */
  lemma {:induction false} FacingCenterFacesCenter(positionX: real, scale: Vec3)
    requires scale.x != 0.0 && positionX != 0.0
    ensures FacingCenterScale(positionX, scale).x * positionX < 0.0
  {
    var r := FacingCenterScale(positionX, scale);
    if positionX < 0.0 {
      assert r.x > 0.0;
      MulPositive(r.x, -positionX);
    } else {
      assert r.x < 0.0;
      MulPositive(-r.x, positionX);
    }
  }

  /** Turning toward the centre twice is turning once. */
  lemma {:induction false} FacingCenterIsIdempotent(positionX: real, scale: Vec3)
    ensures FacingCenterScale(positionX, FacingCenterScale(positionX, scale)) == FacingCenterScale(positionX, scale)
  {
  }

  /** The facing rule applied to the Visual child when there is one, otherwise to the player's own transform. */
  predicate FacedCenter(positionX: real, hasVisual: bool, visualBefore: Vec3, rootBefore: Vec3,
                        visualAfter: Vec3, rootAfter: Vec3)
  {
    if hasVisual then visualAfter == FacingCenterScale(positionX, visualBefore) && rootAfter == rootBefore
    else rootAfter == FacingCenterScale(positionX, rootBefore) && visualAfter == visualBefore
  }

  /** Frames for the references the match manager may hold or not. */
  function PresentPlayer(p: PlayerController?): seq<PlayerController>
  {
    if p == null then [] else [p]
  }

  function PresentBall(b: Ball?): seq<Ball>
  {
    if b == null then [] else [b]
  }

  function PresentManager(m: PlayerManager?): seq<PlayerManager>
  {
    if m == null then [] else [m]
  }

  class GameManager {
    const matchDuration: real
    const player1StartPos: Vec2
    const player2StartPos: Vec2
    /** The team prefabs in selection order; the array itself may be missing. */
    const teamPrefabs: Option<seq<Option<Prefab>>>
    /** The ball prefab's settings, when a ball prefab is assigned. */
    const ballPrefab: Option<BallSettings>
    const ballStartPos: Vec2

    var player1Score: int
    var player2Score: int
    var remainingTime: real
    var isGameActive: bool
    var isPaused: bool
    var isSuddenDeath: bool

    var player1Instance: PlayerController?
    var player2Instance: PlayerController?
    var ballInstance: Ball?

    /** The engine's Time.timeScale as this script sets it. */
    var timeScale: real
    /** The remaining real seconds of each running goal sequence. */
    var goalSequences: seq<real>
    /** The scene this manager asked to load, if any. */
    var requestedScene: Option<string>

    function State(): MatchState
      reads this`remainingTime, this`player1Score, this`player2Score, this`isGameActive, this`isPaused,
            this`isSuddenDeath
    {
      MatchState(remainingTime, player1Score, player2Score, isGameActive, isPaused, isSuddenDeath)
    }

    function Motion(): SlowMotion
      reads this`timeScale, this`goalSequences
    {
      SlowMotion(timeScale, goalSequences)
    }

    /** The two players are distinct objects. */
    predicate Valid()
      reads this`player1Instance, this`player2Instance
    {
      player1Instance != null && player2Instance != null ==> player1Instance != player2Instance
    }

    function Players(): set<PlayerController>
      reads this`player1Instance, this`player2Instance
    {
      (if player1Instance == null then {} else {player1Instance})
      + (if player2Instance == null then {} else {player2Instance})
    }

    function GetPlayer1Score(): int reads this { player1Score }
    function GetPlayer2Score(): int reads this { player2Score }
    function GetRemainingTime(): real reads this { remainingTime }
    function IsGameActive(): bool reads this { isGameActive }
    function IsPaused(): bool reads this { isPaused }
    function IsSuddenDeath(): bool reads this { isSuddenDeath }

    /**
     * The scene's manager before Start: field initialisers only. Time.timeScale
     * is engine-global and survives scene loads, so the scale the previous
     * scene left behind (0.05 when a match ended during a goal sequence) is
     * what this match starts with.
     */
    constructor (matchDuration: real, player1StartPos: Vec2, player2StartPos: Vec2,
                 teamPrefabs: Option<seq<Option<Prefab>>>, ballPrefab: Option<BallSettings>, ballStartPos: Vec2,
                 inheritedTimeScale: real)
      ensures this.matchDuration == matchDuration && this.teamPrefabs == teamPrefabs && this.ballPrefab == ballPrefab
      ensures this.player1StartPos == player1StartPos && this.player2StartPos == player2StartPos
      ensures this.ballStartPos == ballStartPos
      ensures State() == MatchState(0.0, 0, 0, false, false, false)
      ensures player1Instance == null && player2Instance == null && ballInstance == null
      ensures Motion() == SlowMotion(inheritedTimeScale, []) && requestedScene.None?
      ensures Valid()
    {
      this.matchDuration := matchDuration;
      this.player1StartPos := player1StartPos;
      this.player2StartPos := player2StartPos;
      this.teamPrefabs := teamPrefabs;
      this.ballPrefab := ballPrefab;
      this.ballStartPos := ballStartPos;
      player1Score := 0;
      player2Score := 0;
      remainingTime := 0.0;
      isGameActive := false;
      isPaused := false;
      isSuddenDeath := false;
      player1Instance := null;
      player2Instance := null;
      ballInstance := null;
      timeScale := inheritedTimeScale;
      goalSequences := [];
      requestedScene := None;
    }

    /** Whether SpawnPlayers instantiates a player for this team index. */
    predicate Spawns(pm: PlayerManager?, index: int)
    {
      pm != null && teamPrefabs.Some? && |teamPrefabs.value| > 0 && IsValidTeamIndex(teamPrefabs.value, index)
    }

    /** A freshly spawned player: the prefab's player, numbered, on its mark, not yet turned. */
    predicate SpawnedFrom(p: PlayerController, prefab: Prefab, start: Vec2, number: int)
      reads p`playerNumber, p`position, p`forces, p`lastDashTime, p`horizontalInput
      reads p`isSuperMode, p`superModeSpeedMultiplier, p`superModeJumpMultiplier,
            p`keepBallInSuperMode, p`enableHaalandPowerShot, p`haalandShotPowerMultiplier
      reads p`isStunned, p`velocity, p`angularVelocity, p`constraints, p`stunTimers
    {
      && p.settings == prefab.settings && p.hasVisual == prefab.hasVisual
      && p.playerNumber == number && p.position == Lift(start)
      && p.Mods() == BASE_MODIFIERS && p.Stun() == StunState(false, ZERO2, 0.0, FREEZE_ROTATION, [])
      && p.forces == [] && p.lastDashTime == 0.0 && p.horizontalInput == 0.0
    }

    /**
     * The ball's kick-off spot: the configured start, except that after a
     * coin toss its x is -6 when Player1 is on the left and 6 otherwise.
     */
    function KickOffSpot(session: Option<bool>): (p: Vec3)
      ensures p.y == ballStartPos.y && p.z == 0.0
      ensures session.None? ==> p.x == ballStartPos.x
      ensures session.Some? ==> p.x == if session.value then -COIN_TOSS_BALL_X else COIN_TOSS_BALL_X
    {
      var x := if session.Some? then (if session.value then -COIN_TOSS_BALL_X else COIN_TOSS_BALL_X) else ballStartPos.x;
      Vec3(x, ballStartPos.y, 0.0)
    }

    /** The prefab a valid team index selects. */
    function PrefabAt(index: int): Prefab
      requires teamPrefabs.Some? && IsValidTeamIndex(teamPrefabs.value, index)
    {
      teamPrefabs.value[index].value
    }

    /** A player spawned from `prefab` on its mark, numbered, and turned toward the centre. */
    predicate ReadyOnMark(p: PlayerController, prefab: Prefab, start: Vec2, number: int)
      reads p`playerNumber, p`position, p`forces, p`lastDashTime, p`horizontalInput
      reads p`isSuperMode, p`superModeSpeedMultiplier, p`superModeJumpMultiplier,
            p`keepBallInSuperMode, p`enableHaalandPowerShot, p`haalandShotPowerMultiplier
      reads p`isStunned, p`velocity, p`angularVelocity, p`constraints, p`stunTimers
      reads p`visualScale, p`rootScale
    {
      && SpawnedFrom(p, prefab, start, number)
      && FacedCenter(start.x, prefab.hasVisual, prefab.visualScale, prefab.rootScale, p.visualScale, p.rootScale)
    }

    /**
     * Start of the match: full clock, no goals, active, regular time; the
     * players and the ball are spawned where possible and both players turned
     * toward the centre. A spawn that is not possible only leaves that
     * reference as it was.
     */
    method InitializeGame(pm: PlayerManager?, time: real)
      requires Valid()
      modifies this`remainingTime, this`player1Score, this`player2Score, this`isGameActive, this`isSuddenDeath
      modifies this`player1Instance, this`player2Instance, this`ballInstance
      modifies Players()`visualScale, Players()`rootScale
      ensures State() == Initialized(old(State()), matchDuration)
      ensures Valid()
      ensures var index := if pm == null then -1 else pm.player1TeamIndex;
        Spawns(pm, index) ==> fresh(player1Instance) && ReadyOnMark(player1Instance, PrefabAt(index), player1StartPos, 1)
      ensures var index := if pm == null then -1 else pm.player2TeamIndex;
        Spawns(pm, index) ==> fresh(player2Instance) && ReadyOnMark(player2Instance, PrefabAt(index), player2StartPos, 2)
      ensures !Spawns(pm, if pm == null then -1 else pm.player1TeamIndex) ==>
        player1Instance == old(player1Instance)
      ensures !Spawns(pm, if pm == null then -1 else pm.player2TeamIndex) ==>
        player2Instance == old(player2Instance)
      ensures ballPrefab.Some? ==>
        && fresh(ballInstance)
        && BallOnKickOff(ballInstance, ballPrefab.value, KickOffSpot(if pm == null then None else Some(pm.player1IsLeftSide)), time)
      ensures ballPrefab.None? ==> ballInstance == old(ballInstance)
    {
      remainingTime := matchDuration;
      player1Score := 0;
      player2Score := 0;
      isGameActive := true;
      isSuddenDeath := false;
      SpawnForKickOff(pm, time);
    }

    /** The spawning half of the match start: players, ball, then both players turned toward the centre. */
    method SpawnForKickOff(pm: PlayerManager?, time: real)
      requires Valid()
      modifies this`player1Instance, this`player2Instance, this`ballInstance
      modifies Players()`visualScale, Players()`rootScale
      ensures Valid()
      ensures var index := if pm == null then -1 else pm.player1TeamIndex;
        Spawns(pm, index) ==> fresh(player1Instance) && ReadyOnMark(player1Instance, PrefabAt(index), player1StartPos, 1)
      ensures var index := if pm == null then -1 else pm.player2TeamIndex;
        Spawns(pm, index) ==> fresh(player2Instance) && ReadyOnMark(player2Instance, PrefabAt(index), player2StartPos, 2)
      ensures !Spawns(pm, if pm == null then -1 else pm.player1TeamIndex) ==>
        player1Instance == old(player1Instance)
      ensures !Spawns(pm, if pm == null then -1 else pm.player2TeamIndex) ==>
        player2Instance == old(player2Instance)
      ensures ballPrefab.Some? ==>
        && fresh(ballInstance)
        && BallOnKickOff(ballInstance, ballPrefab.value, KickOffSpot(if pm == null then None else Some(pm.player1IsLeftSide)), time)
      ensures ballPrefab.None? ==> ballInstance == old(ballInstance)
    {
      SpawnPlayers(pm);
      SpawnBall(pm, time);
      FaceSpawnedPlayers(pm);
    }

    /**
     * The facing step of the match start: players just spawned from their
     * prefabs are turned toward the centre, and the ball is not touched.
     */
    method FaceSpawnedPlayers(pm: PlayerManager?)
      requires Valid()
      requires var index := if pm == null then -1 else pm.player1TeamIndex;
        Spawns(pm, index) ==>
          && player1Instance != null && SpawnedFrom(player1Instance, PrefabAt(index), player1StartPos, 1)
          && player1Instance.visualScale == PrefabAt(index).visualScale
          && player1Instance.rootScale == PrefabAt(index).rootScale
      requires var index := if pm == null then -1 else pm.player2TeamIndex;
        Spawns(pm, index) ==>
          && player2Instance != null && SpawnedFrom(player2Instance, PrefabAt(index), player2StartPos, 2)
          && player2Instance.visualScale == PrefabAt(index).visualScale
          && player2Instance.rootScale == PrefabAt(index).rootScale
      modifies Players()`visualScale, Players()`rootScale
      ensures var index := if pm == null then -1 else pm.player1TeamIndex;
        Spawns(pm, index) ==> ReadyOnMark(player1Instance, PrefabAt(index), player1StartPos, 1)
      ensures var index := if pm == null then -1 else pm.player2TeamIndex;
        Spawns(pm, index) ==> ReadyOnMark(player2Instance, PrefabAt(index), player2StartPos, 2)
      ensures ballInstance != null ==> unchanged(ballInstance)
    {
      SetAllPlayersFacingCenter();
    }

    /** Instantiates each player whose team index is valid; any failure is only skipped. */
    method SpawnPlayers(pm: PlayerManager?)
      requires Valid()
      modifies this`player1Instance, this`player2Instance
      ensures Valid()
      ensures player1Instance == old(player1Instance) || fresh(player1Instance)
      ensures player2Instance == old(player2Instance) || fresh(player2Instance)
      ensures Spawns(pm, if pm == null then -1 else pm.player1TeamIndex) ==>
        && fresh(player1Instance)
        && var prefab := PrefabAt(pm.player1TeamIndex);
           && SpawnedFrom(player1Instance, prefab, player1StartPos, 1)
           && player1Instance.visualScale == prefab.visualScale && player1Instance.rootScale == prefab.rootScale
      ensures Spawns(pm, if pm == null then -1 else pm.player2TeamIndex) ==>
        && fresh(player2Instance)
        && var prefab := PrefabAt(pm.player2TeamIndex);
           && SpawnedFrom(player2Instance, prefab, player2StartPos, 2)
           && player2Instance.visualScale == prefab.visualScale && player2Instance.rootScale == prefab.rootScale
      ensures !Spawns(pm, if pm == null then -1 else pm.player1TeamIndex) ==> player1Instance == old(player1Instance)
      ensures !Spawns(pm, if pm == null then -1 else pm.player2TeamIndex) ==> player2Instance == old(player2Instance)
    {
      if pm == null {
        return;
      }
      var p1Index := pm.player1TeamIndex;
      var p2Index := pm.player2TeamIndex;
      if teamPrefabs.None? || |teamPrefabs.value| == 0 {
        return;
      }
      if IsValidTeamIndex(teamPrefabs.value, p1Index) {
        var prefab := teamPrefabs.value[p1Index].value;
        var pc1 := new PlayerController(prefab.settings, Lift(player1StartPos), prefab.rootScale,
                                        prefab.hasVisual, prefab.visualScale);
        pc1.SetPlayerNumber(1);
        player1Instance := pc1;
      }
      if IsValidTeamIndex(teamPrefabs.value, p2Index) {
        var prefab := teamPrefabs.value[p2Index].value;
        var pc2 := new PlayerController(prefab.settings, Lift(player2StartPos), prefab.rootScale,
                                        prefab.hasVisual, prefab.visualScale);
        pc2.SetPlayerNumber(2);
        player2Instance := pc2;
      }
    }

    /** A ball just placed for kick-off: at rest, free, at `spot`, with no force applied yet. */
    predicate BallOnKickOff(b: Ball, settings: BallSettings, spot: Vec3, time: real)
      reads b
    {
      && b.settings == settings && b.position == spot
      && b.velocity == ZERO2 && b.angularVelocity == 0.0
      && b.holder == null && b.lastGroundTouchTime == time && b.forces == []
    }

    /** Instantiates the ball at its kick-off spot when a ball prefab is assigned. */
    method SpawnBall(pm: PlayerManager?, time: real)
      modifies this`ballInstance
      ensures ballPrefab.Some? ==>
        && fresh(ballInstance)
        && BallOnKickOff(ballInstance, ballPrefab.value, KickOffSpot(if pm == null then None else Some(pm.player1IsLeftSide)), time)
      ensures ballPrefab.None? ==> ballInstance == old(ballInstance)
    {
      if ballPrefab.None? {
        return;
      }
      var ballPos := Vec3(ballStartPos.x, ballStartPos.y, 0.0);
      if pm != null {
        ballPos := ballPos.(x := if pm.player1IsLeftSide then -COIN_TOSS_BALL_X else COIN_TOSS_BALL_X);
      }
      ballInstance := new Ball(ballPrefab.value, ballPos, time);
    }

    method SetAllPlayersFacingCenter()
      requires Valid()
      modifies Players()`visualScale, Players()`rootScale
      ensures ballInstance != null ==> unchanged(ballInstance)
      ensures player1Instance != null ==>
        FacedCenter(player1Instance.position.x, player1Instance.hasVisual,
                    old(player1Instance.visualScale), old(player1Instance.rootScale),
                    player1Instance.visualScale, player1Instance.rootScale)
      ensures player2Instance != null ==>
        FacedCenter(player2Instance.position.x, player2Instance.hasVisual,
                    old(player2Instance.visualScale), old(player2Instance.rootScale),
                    player2Instance.visualScale, player2Instance.rootScale)
    {
      SetPlayerFacingCenter(player1Instance);
      SetPlayerFacingCenter(player2Instance);
    }

    /** Turns one player toward the centre line by the sign of its x position. */
    method SetPlayerFacingCenter(player: PlayerController?)
      modifies PresentPlayer(player)`visualScale, PresentPlayer(player)`rootScale
      ensures player != null ==>
        FacedCenter(player.position.x, player.hasVisual, old(player.visualScale), old(player.rootScale),
                    player.visualScale, player.rootScale)
    {
      if player == null {
        return;
      }
      assert PresentPlayer(player)[0] == player;
      if player.hasVisual {
        player.visualScale := FacingCenterScale(player.position.x, player.visualScale);
      } else {
        player.rootScale := FacingCenterScale(player.position.x, player.rootScale);
      }
    }

    /**
     * One frame: while the match runs and is not paused the clock counts
     * down, regular time ends when it reaches zero, and Escape toggles the
     * pause.
     */
    method Update(dt: real, escapeDown: bool, pm: PlayerManager?)
      modifies this`remainingTime, this`isGameActive, this`isSuddenDeath, this`isPaused, this`timeScale,
               this`requestedScene
      modifies PresentManager(pm)`lastP1Score, PresentManager(pm)`lastP2Score
      ensures State() == Updated(old(State()), dt, escapeDown)
      ensures timeScale == if old(isGameActive) && !old(isPaused) && escapeDown
                           then (if isPaused then 0.0 else 1.0) else old(timeScale)
      ensures var ended := old(isGameActive) && !isGameActive;
        && requestedScene == (if ended then Some(RESULT_SCENE) else old(requestedScene))
        && (pm != null ==>
             && pm.lastP1Score == (if ended then player1Score else old(pm.lastP1Score))
             && pm.lastP2Score == (if ended then player2Score else old(pm.lastP2Score)))
    {
      if !isGameActive || isPaused {
        return;
      }
      remainingTime := remainingTime - dt;
      if remainingTime <= 0.0 && !isSuddenDeath {
        EndRegularTime(pm);
      }
      if escapeDown {
        TogglePause();
      }
    }

    method EndRegularTime(pm: PlayerManager?)
      modifies this`isSuddenDeath, this`isGameActive, this`requestedScene
      modifies PresentManager(pm)`lastP1Score, PresentManager(pm)`lastP2Score
      ensures State() == RegularTimeEnded(old(State()))
      ensures var ended := player1Score != player2Score;
        && requestedScene == (if ended then Some(RESULT_SCENE) else old(requestedScene))
        && (pm != null ==>
             && pm.lastP1Score == (if ended then player1Score else old(pm.lastP1Score))
             && pm.lastP2Score == (if ended then player2Score else old(pm.lastP2Score)))
    {
      if player1Score == player2Score {
        isSuddenDeath := true;
      } else {
        EndGame(pm);
      }
    }

    method TogglePause()
      modifies this`isPaused, this`timeScale
      ensures isPaused == !old(isPaused)
      ensures timeScale == if isPaused then 0.0 else 1.0
    {
      isPaused := !isPaused;
      timeScale := if isPaused then 0.0 else 1.0;
    }

    /** Normal speed again, and the scene that is running now (`activeScene`) is loaded afresh. */
    method RestartGame(activeScene: string)
      modifies this`timeScale, this`requestedScene
      ensures timeScale == 1.0 && requestedScene == Some(activeScene)
    {
      timeScale := 1.0;
      requestedScene := Some(activeScene);
    }

    /** Normal speed again, and back to the title screen. */
    method QuitToTitle()
      modifies this`timeScale, this`requestedScene
      ensures timeScale == 1.0 && requestedScene == Some(TITLE_SCENE)
    {
      timeScale := 1.0;
      requestedScene := Some(TITLE_SCENE);
    }

    /** Ends the match, hands the final score to the session and asks for the result screen. */
    method EndGame(pm: PlayerManager?)
      modifies this`isGameActive, this`requestedScene
      modifies PresentManager(pm)`lastP1Score, PresentManager(pm)`lastP2Score
      ensures State() == Ended(old(State()))
      ensures requestedScene == Some(RESULT_SCENE)
      ensures pm != null ==> pm.lastP1Score == player1Score && pm.lastP2Score == player2Score
    {
      isGameActive := false;
      if pm != null {
        assert PresentManager(pm)[0] == pm;
        pm.lastP1Score := player1Score;
        pm.lastP2Score := player2Score;
      }
      requestedScene := Some(RESULT_SCENE);
    }

    /**
     * A goal by player `scoringPlayer`: counted while the match runs; in
     * sudden death it ends the match, otherwise a goal sequence starts.
     */
    method OnGoalScored(scoringPlayer: int, pm: PlayerManager?)
      modifies this`player1Score, this`player2Score, this`isGameActive, this`requestedScene
      modifies this`timeScale, this`goalSequences
      modifies PresentManager(pm)`lastP1Score, PresentManager(pm)`lastP2Score
      ensures State() == Scored(old(State()), scoringPlayer)
      ensures Motion() == if old(isGameActive) && !old(isSuddenDeath) then GoalSequenceStarted(old(Motion()))
                          else old(Motion())
      ensures var ended := old(isGameActive) && old(isSuddenDeath);
        && requestedScene == (if ended then Some(RESULT_SCENE) else old(requestedScene))
        && (pm != null ==>
             && pm.lastP1Score == (if ended then player1Score else old(pm.lastP1Score))
             && pm.lastP2Score == (if ended then player2Score else old(pm.lastP2Score)))
    {
      if !isGameActive {
        return;
      }
      if scoringPlayer == 1 {
        player1Score := player1Score + 1;
      } else if scoringPlayer == 2 {
        player2Score := player2Score + 1;
      }
      if isSuddenDeath {
        EndGame(pm);
        return;
      }
      // the goal sequence runs synchronously up to its first wait
      timeScale := GOAL_TIME_SCALE;
      goalSequences := goalSequences + [GOAL_SEQUENCE_SECONDS];
    }

    /** Puts both players and the ball back on their marks and turns the players toward the centre. */
    method ResetPositions(time: real)
      requires Valid()
      modifies Players()`position, Players()`visualScale, Players()`rootScale
      modifies PresentBall(ballInstance)`position, PresentBall(ballInstance)`velocity,
               PresentBall(ballInstance)`angularVelocity, PresentBall(ballInstance)`lastGroundTouchTime,
               PresentBall(ballInstance)`holder
      ensures PositionsReset(player1Instance, player2Instance, ballInstance, time)
    {
      if player1Instance != null {
        player1Instance.position := Lift(player1StartPos);
      }
      if player2Instance != null {
        player2Instance.position := Lift(player2StartPos);
      }
      SetAllPlayersFacingCenter();
      if ballInstance != null {
        assert PresentBall(ballInstance)[0] == ballInstance;
        ballInstance.ResetPosition(ballStartPos, time);
      }
    }

    /** The effect of ResetPositions on these two players and this ball, relative to the state before it. */
    twostate predicate PositionsReset(p1: PlayerController?, p2: PlayerController?, ball: Ball?, time: real)
      reads p1, p2, ball
    {
      && (p1 != null ==>
           && p1.position == Lift(player1StartPos)
           && FacedCenter(player1StartPos.x, p1.hasVisual, old(p1.visualScale), old(p1.rootScale),
                          p1.visualScale, p1.rootScale))
      && (p2 != null ==>
           && p2.position == Lift(player2StartPos)
           && FacedCenter(player2StartPos.x, p2.hasVisual, old(p2.visualScale), old(p2.rootScale),
                          p2.visualScale, p2.rootScale))
      && (ball != null ==>
           && ball.position == Lift(ballStartPos)
           && ball.velocity == ZERO2 && ball.angularVelocity == 0.0
           && ball.lastGroundTouchTime == time && ball.holder == null)
    }

    /**
     * One real-time frame of the running goal sequences: each counts down,
     * and when one runs out the time scale returns to 1 and the positions
     * are reset.
     */
    method TickGoalSequences(realDt: real, time: real)
      requires Valid()
      modifies this`timeScale, this`goalSequences
      modifies Players()`position, Players()`visualScale, Players()`rootScale
      modifies PresentBall(ballInstance)`position, PresentBall(ballInstance)`velocity,
               PresentBall(ballInstance)`angularVelocity, PresentBall(ballInstance)`lastGroundTouchTime,
               PresentBall(ballInstance)`holder
      ensures Motion() == GoalSequencesStepped(old(Motion()), realDt)
      ensures AnyGoalSequenceEnds(old(goalSequences), realDt) ==> PositionsReset(player1Instance, player2Instance, ballInstance, time)
      ensures !AnyGoalSequenceEnds(old(goalSequences), realDt) ==>
        && (player1Instance != null ==> player1Instance.position == old(player1Instance.position))
        && (player2Instance != null ==> player2Instance.position == old(player2Instance.position))
        && (ballInstance != null ==> ballInstance.position == old(ballInstance.position))
      ensures !AnyGoalSequenceEnds(old(goalSequences), realDt) ==>
        unchanged(Players()) && unchanged(PresentBall(ballInstance))
    {
      var kept, ended := CountDownGoalSequences(goalSequences, realDt);
      if ended {
        ResetPositions(time);
        timeScale := 1.0;
      }
      goalSequences := kept;
    }
  }
}
