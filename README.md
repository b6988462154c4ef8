# GoalForge gameplay core in Dafny

A model of the gameplay logic of GoalForge, a two-player 2D soccer game built on Unity. The model covers:

- **The match** (`Match`, GameManager.cs). A clock counts down from the match duration. There are two scores and the flags active, paused and sudden death. When regular time runs out, a tie goes to sudden death and any other score ends the match. In sudden death the next goal ends it. Every other goal starts a short slow-motion goal sequence that puts the players and the ball back on their marks.
- **Ball possession** (`BallPossession`, Ball.cs). A ball is free or attached to a holder. While free, each physics tick may pull it toward the centre (the magnet) and then clamps its speed. While attached to a holder who keeps the dribble capability, each tick places it in front of the holder and stops it. Kick, reset and attach are the transitions.
- **The player** (`PlayerControl`, PlayerController.cs).
  - Input shaping under stun and reversed controls.
  - Movement and facing.
  - The dash and its cooldown.
  - The modifier fields that super modes write.
  - The stun countdowns running against the player.
- **Ball touches** (`Kicking`, PlayerController.OnCollisionEnter2D). A touch either attaches the ball or kicks it. The kick power follows a fixed formula with a one-shot power-shot bonus.
- **Super modes** (`SuperModes`, CharacterType.cs). There are four characters:
  - Son speeds up.
  - Ronaldo stuns every other player.
  - Messi dribbles.
  - Haaland gets one power shot.

  A timed deactivation puts the modifier fields back to constants.
- **Team selection** (`Session`, PlayerManager.cs, and `TeamSelect`, TeamSelectController.cs). A two-phase pick: Player1 picks, then Player2. The session record carries the picks, the coin toss and the final score between scenes.
- **The result screen** (`Results`, ResultSceneManager.cs). It shows a win, lose or draw presentation, decided from the last match's score.

`Geometry`, `Physics` and `Wrappers` hold the shared vocabulary: vectors, the engine-supplied magnitude witness, recorded force commands and `Option`.

Modelling conventions:

- **Engine calls become recorded values.**
  - `AddForce` appends a command to the body's `forces`.
  - `SceneManager.LoadScene` sets a `requestedScene` field.
  - `Time.time` and `Time.deltaTime` are parameters.
  - The keys of a frame are a `Keys` record.
- **Vector lengths come from the engine.** `Vector2.magnitude` needs a square root. Every operation that normalises therefore receives the engine's magnitude `m` together with the vector, under the precondition `IsMagnitude(v, m)` (that is, `m >= 0` and `m * m` is the squared length). Unity's `normalized` gives the zero vector at or below a length of 1e-5, and so does the model.
- **Coroutines become countdown fields** advanced by a tick method:
  - the super-mode timer is `CharacterType.superTimer`, advanced by `SuperModeTimer`;
  - each stun is an entry of the target's `PlayerController.stunTimers`, advanced by `TickStuns`;
  - each goal sequence is an entry of `GameManager.goalSequences`, counted in real seconds and advanced by `TickGoalSequences`.
- **Quirks are modelled as written.** The code does each of the following, and the model states it:
  - A pause can never be lifted. `Update` returns before it reads Escape while paused (`PauseIsPermanent`).
  - A goal during a running goal sequence still counts.
  - A failed spawn is skipped and the match start goes on.
  - Overlapping stuns on one player leave that player frozen when the second does not end before the first, as with Ronaldo's stuns, which all last the same time (`OverlappingStunsLeaveFrozen`).
  - Deactivation keeps Haaland's shot multiplier.
  - A goal sequence ending while paused sets the time scale back to 1 (`GoalSequenceEndOverridesPause`).
  - `ResetPositions` puts the ball on the configured start, not on the coin-toss spot used at kick-off.
  - `InitializeGame` leaves the pause flag as it was.
  - `Time.timeScale` is engine-global and nothing at match start sets it. A match that ends during a goal sequence loads the result scene with the scale at 0.05, which stops the sequence before it restores 1, so the next match inherits 0.05. The GameManager constructor therefore takes the inherited scale as a parameter, and `InitializeGame` and `EndGame` leave it as they found it; `Update` changes it only on a pause toggle.
- **The model follows the code as written.** Deactivation sets the fields to constants; it does not restore values saved at activation. A missing prefab or session only skips that part of the match start; it does not abort it.

## Model

| member | source | states |
|---|---|---|
| PlayerControl.ControlsOf | Assets/Scripts/Player/PlayerController.cs:86-107 | player 1 reads A/D/W/S and left shift, player 2 the arrows and right shift, and exactly these two numbers have keys |
| PlayerControl.InputMultiplier | Assets/Scripts/Player/PlayerController.cs:84 | the multiplier is -1 exactly when the controls are reversed, otherwise 1 |
| PlayerControl.HorizontalInput | Assets/Scripts/Player/PlayerController.cs:88-90 | definition: the left key writes first and the right key second; HorizontalInputValues states the three outcomes and ReversedControlsNegate the sign flip |
| PlayerControl.HorizontalInputValues | Assets/Scripts/Player/PlayerController.cs:88-90 | holding right gives the multiplier even with left held (the right key wins), left alone gives its negation, neither gives 0 |
| PlayerControl.ReversedControlsNegate | Assets/Scripts/Player/PlayerController.cs:116-127 | reversed controls negate both the horizontal and the vertical axis for any keys |
| PlayerControl.VerticalInput | Assets/Scripts/Player/PlayerController.cs:118-127 | definition: the up key writes first and the down key second; MoveVelocity states how it enters the velocity and ReversedControlsNegate the sign flip |
| PlayerControl.MoveVelocity | Assets/Scripts/Player/PlayerController.cs:112-131 | x is the horizontal input times the speed; y is the vertical keys' value times the speed, and 0 for a player number without keys |
| PlayerControl.FacingAfterMove | Assets/Scripts/Player/PlayerController.cs:133-143 | past +0.01 the visual faces right with unit scale, past -0.01 left, otherwise the scale is unchanged |
| PlayerControl.FacingFollowsMove | Assets/Scripts/Player/PlayerController.cs:133-143 | a decisive move makes the facing sign equal the move's sign; a small one keeps the facing |
| PlayerControl.DashReady | Assets/Scripts/Player/PlayerController.cs:92 | definition: the cooldown has passed since the last dash; PlayerController.GetInput states that a dash happens exactly when the key is down and DashReady holds |
| PlayerControl.DashImpulse | Assets/Scripts/Player/PlayerController.cs:161 | definition: an Impulse-mode force of direction × dashForce along x; PlayerController.Dash records it and PlayerController.GetInput states when the dash fires |
| PlayerControl.DashDirection | Assets/Scripts/Player/PlayerController.cs:158-159 | a non-zero horizontal input is the direction; otherwise 1 exactly when a Visual child faces right, else -1 |
| PlayerControl.BeginStun | Assets/Scripts/Player/CharacterType.cs:166-175 | definition: stunned, stopped, frozen, with a countdown that saves the current constraints; StunHoldsBeforeItsDuration and OverlappingStunsLeaveFrozen state what follows from it |
| PlayerControl.StepTimers | Assets/Scripts/Player/CharacterType.cs:177-186 | definition: stun countdowns resumed in start order; StepTimersMeaning states the survivors and the restored constraints |
| PlayerControl.StepStuns | Assets/Scripts/Player/CharacterType.cs:177-186 | definition: one frame of every stun coroutine of a player; StepOneTimer and StepTwoTimers state its effect, PlayerController.TickStuns is proved equal to it |
| PlayerControl.StepTimersMeaning | Assets/Scripts/Player/CharacterType.cs:177-186 | one frame of all stun coroutines keeps the survivors, each shortened by dt; if some expire, the last expiring one's saved constraints are restored and the stun is cleared; if none expire, constraints and flag stay |
| PlayerControl.StepTimersKeepsSurvivors | Assets/Scripts/Player/CharacterType.cs:177 | the stun countdowns left after a frame are exactly the unexpired ones, reduced by dt, in order |
| PlayerControl.StepTimersRestores | Assets/Scripts/Player/CharacterType.cs:179-186 | constraints and stun flag after a frame come from the last coroutine that finished, or are unchanged when none finished |
| PlayerControl.StunHoldsBeforeItsDuration | Assets/Scripts/Player/CharacterType.cs:166-177 | while less than the duration has passed, the stunned player stays stunned and frozen, with one countdown of the remaining time |
| PlayerControl.StunHoldsFrom | Assets/Scripts/Player/CharacterType.cs:177 | a single stun countdown of r seconds is only shortened by frames whose total is below r |
| PlayerControl.StepOneTimer | Assets/Scripts/Player/CharacterType.cs:177-186 | with one stun pending, a frame either ends it (saved constraints back, flag clear, no timer) or shortens it by dt |
| PlayerControl.StunEndsAtItsDuration | Assets/Scripts/Player/CharacterType.cs:162-187 | the frame that reaches the duration restores the original constraints and clears the stun, leaving no timer |
| PlayerControl.NoStunStaysPut | Assets/Scripts/Player/CharacterType.cs:177 | with no stun coroutine running, any frames leave the stun state unchanged |
| PlayerControl.OneStunRunsOut | Assets/Scripts/Player/CharacterType.cs:177-186 | a single pending stun of r seconds has ended, restoring its saved constraints and clearing the flag, once frames totalling r have passed |
| PlayerControl.StepTwoTimers | Assets/Scripts/Player/CharacterType.cs:177-186 | with two stuns pending, the second lasting at least as long, a frame ends both (the second's saved constraints win), ends only the first, or shortens both by dt |
| PlayerControl.TwoStunsRunOut | Assets/Scripts/Player/CharacterType.cs:171-186 | two pending stuns, the second lasting at least as long: once frames cover the second, both have ended and the constraints are the ones the second saved |
| PlayerControl.OverlappingStunsLeaveFrozen | Assets/Scripts/Player/CharacterType.cs:162-187 | for any durations and frames: a second stun that begins while a first is running and does not end before it saves the frozen constraints, so once its duration has passed the player is unstunned, stopped, with no timer, and still frozen (FreezePosition and FreezeRotation) whatever its constraints were before |
| PlayerControl.PlayerController.constructor | Assets/Scripts/Player/PlayerController.cs:23-63 | field initialisers and Awake: base modifiers, no stun, rotation frozen, no velocity, no forces |
| PlayerControl.PlayerController.SetPlayerNumber | Assets/Scripts/Player/PlayerController.cs:41 | the player number becomes n |
| PlayerControl.PlayerController.GetInput | Assets/Scripts/Player/PlayerController.cs:76-108 | stunned: input 0 and no dash; without keys nothing changes; otherwise the input follows the keys and a dash fires exactly when its key is down and the cooldown has passed |
| PlayerControl.PlayerController.Dash | Assets/Scripts/Player/PlayerController.cs:156-168 | one horizontal impulse of dashForce along the dash direction is recorded and the dash time becomes now |
| PlayerControl.PlayerController.Move | Assets/Scripts/Player/PlayerController.cs:110-150 | the velocity is the move velocity at the super-mode-scaled speed; the visual turns with the move only when there is a Visual child |
| PlayerControl.PlayerController.BeginStunning | Assets/Scripts/Player/CharacterType.cs:164-177 | the stun's synchronous start: stunned, zero velocities, all frozen, a countdown saving the previous constraints appended |
| PlayerControl.PlayerController.TickStuns | Assets/Scripts/Player/CharacterType.cs:177-186 | the loop over the player's stun countdowns produces exactly one StepStuns frame |
| Geometry.Normalized2 | Assets/Scripts/Ball/Ball.cs:127 | Vector2.normalized: of unit length and in the direction of v above the 1e-5 threshold, zero below it |
| Geometry.Normalized3Flat | Assets/Scripts/Player/PlayerController.cs:178 | above the 1e-5 threshold the result scaled by the length gives back the flattened vector (it lies along it); at or below it the result is zero |
| Geometry.Normalized3FlatIsUnit | Assets/Scripts/Player/PlayerController.cs:178 | for two objects in the plane the kick direction has unit length and its projection on the player-to-ball vector is that vector's length |
| Geometry.Sign | Assets/Scripts/Ball/Ball.cs:200 | Mathf.Sign: 1 exactly for non-negative values, else -1 |
| BallPossession.LimitVelocity | Assets/Scripts/Ball/Ball.cs:123-129 | definition: the velocity normalised times maxVelocity when faster; LimitVelocityClamps and LimitVelocityBounds state what it means |
| BallPossession.LimitVelocityClamps | Assets/Scripts/Ball/Ball.cs:123-129 | a velocity no faster than the limit is kept; a faster one keeps its direction and gets exactly the limit as magnitude (zero when too short to normalise) |
| BallPossession.LimitVelocityBounds | Assets/Scripts/Ball/Ball.cs:123-129 | after the clamp the speed never exceeds a non-negative limit |
| BallPossession.MagnetPull | Assets/Scripts/Ball/Ball.cs:118-119 | the pull has magnitude magnetForce and points at the centre; it is zero on the centre |
| BallPossession.MagnetPullsTowardCenter | Assets/Scripts/Ball/Ball.cs:112-121 | a positive pull always has a positive component toward the centre |
| BallPossession.FacingDir | Assets/Scripts/Ball/Ball.cs:196-201 | facing is 1 or -1, and -1 exactly when a Visual child has negative x scale |
| BallPossession.MagnetActive | Assets/Scripts/Ball/Ball.cs:114-116 | definition: at least the activation time since the last touch; Ball.ApplyMagnetEffect states that the pull is recorded exactly then |
| BallPossession.FollowTarget | Assets/Scripts/Ball/Ball.cs:203-207 | definition: the holder position offset by the mirrored x offset and the y offset, keeping the ball z; FollowTargetInFront states that it lies on the facing side |
| BallPossession.FollowTargetInFront | Assets/Scripts/Ball/Ball.cs:190-210 | a held ball sits offsetX away on the side the holder faces, at the holder's y plus offsetY, keeping its own z |
| BallPossession.Ball.constructor | Assets/Scripts/Ball/Ball.cs:81-84 | a new ball is at rest, free, with the touch timer armed at the current time |
| BallPossession.Ball.FixedUpdate | Assets/Scripts/Ball/Ball.cs:86-105 | a dribbling holder: ball in front of the holder, stopped, no force; otherwise detached, magnet force recorded exactly when active, then velocity clamped |
| BallPossession.Ball.ApplyMagnetEffect | Assets/Scripts/Ball/Ball.cs:112-121 | a centre-ward force is recorded exactly when the ball has gone untouched for the activation time |
| BallPossession.Ball.LimitVelocityNow | Assets/Scripts/Ball/Ball.cs:123-129 | the velocity becomes its clamped value |
| BallPossession.Ball.OnCollisionEnter2D | Assets/Scripts/Ball/Ball.cs:131-154 | only a player's touch re-arms the magnet timer |
| BallPossession.Ball.ResetPosition | Assets/Scripts/Ball/Ball.cs:156-163 | the ball is moved, stopped, its timer re-armed and its holder cleared |
| BallPossession.Ball.Kick | Assets/Scripts/Ball/Ball.cs:165-169 | a kick frees the ball and records one impulse of the given force |
| BallPossession.Ball.AttachTo | Assets/Scripts/Ball/Ball.cs:172-178 | the holder becomes p, the ball stops, the timer re-arms, and IsAttachedTo(q) holds exactly for q == p |
| BallPossession.Ball.Detach | Assets/Scripts/Ball/Ball.cs:180-183 | the ball has no holder |
| BallPossession.Ball.FollowHolder | Assets/Scripts/Ball/Ball.cs:190-210 | without a holder nothing moves; with one the ball goes to the follow target |
| Kicking.KickPower | Assets/Scripts/Player/PlayerController.cs:179 | definition: 3.5, times 1.2 in super mode, times the mega-ball multiplier; Resolve and PowerShotBoostsOneKick state the kick that uses it |
| Kicking.Resolve | Assets/Scripts/Player/PlayerController.cs:179-209 | a touch attaches exactly when the player keeps the ball; otherwise it kicks with power 3.5 × (1.2 in super mode) × mega-ball multiplier, times the shot multiplier when a power shot is pending |
| Kicking.AfterTouch | Assets/Scripts/Player/PlayerController.cs:184-207 | an attach leaves the modifiers alone; a kick only spends the pending power shot |
| Kicking.PowerShotBoostsOneKick | Assets/Scripts/Player/PlayerController.cs:198-209 | of two kicks after a power shot is granted, the first is boosted and the second is not |
| Kicking.DribbleKeepsPowerShot | Assets/Scripts/Player/PlayerController.cs:184-195 | any number of dribble touches leaves the modifiers, the pending power shot included, unchanged |
| Kicking.OnCollisionEnter2D | Assets/Scripts/Player/PlayerController.cs:170-218 | the dribble short-circuit attaches the ball with no force; otherwise the ball is freed and one impulse of the resolved power along the player-to-ball direction is recorded, and the power shot is spent |
| SuperModes.Activated | Assets/Scripts/Player/CharacterType.cs:134-216 | each character's ability: super mode on; Son's speed multiplier becomes sonSpeedMultiplier with jump 1 and nothing else changed; Messi's speed becomes 0.8 with jump 1 and the ball kept; Haaland gets a pending power shot with powerShotMultiplier = haalandShotPowerMultiplier and his speed and jump unchanged; Ronaldo changes nothing else |
| SuperModes.Deactivated | Assets/Scripts/Player/CharacterType.cs:112-122 | deactivation sets the base constants, whatever was active, keeping only the shot multiplier |
| SuperModes.DeactivateAfterActivate | Assets/Scripts/Player/CharacterType.cs:105-125 | from the base state, activation then deactivation returns to it, except that Haaland keeps his multiplier |
| SuperModes.Activate | Assets/Scripts/Player/CharacterType.cs:54-103 | an active super mode is left alone; otherwise it turns on, applies the ability, and starts the countdown only for a positive duration |
| SuperModes.Deactivate | Assets/Scripts/Player/CharacterType.cs:105-125 | an inactive super mode is left alone; otherwise it turns off and the modifiers are deactivated; the countdown is not stopped |
| SuperModes.Tick | Assets/Scripts/Player/CharacterType.cs:127-131 | a frame shortens the countdown, and deactivates when it runs out |
| SuperModes.ActivateIsIdempotent | Assets/Scripts/Player/CharacterType.cs:56 | activating twice is activating once |
| SuperModes.SuperModeLastsItsDuration | Assets/Scripts/Player/CharacterType.cs:98-102 | until the duration has elapsed, the activated state holds with the remaining time on the countdown |
| SuperModes.SuperModeHoldsFrom | Assets/Scripts/Player/CharacterType.cs:127-131 | a countdown of r seconds is only shortened by frames whose total is below r |
| SuperModes.SuperModeEndsAtItsDuration | Assets/Scripts/Player/CharacterType.cs:127-131 | the frame reaching the duration ends the super mode, which revokes an unused power shot |
| SuperModes.UntimedSuperModeNeverEnds | Assets/Scripts/Player/CharacterType.cs:98 | with a non-positive duration no countdown starts, so the super mode never ends by itself |
| SuperModes.CharacterType.constructor | Assets/Scripts/Player/CharacterType.cs:42-52 | Awake remembers the scale; no super mode is running |
| SuperModes.CharacterType.ActivateSuperMode | Assets/Scripts/Player/CharacterType.cs:54-103 | the new state is Activate of the old; Ronaldo, when newly active, stuns every listed player but his own, and no other player is touched |
| SuperModes.CharacterType.ActivateSonSuper | Assets/Scripts/Player/CharacterType.cs:134-142 | the player's modifiers become Son's ability: speed sonSpeedMultiplier, jump 1, super mode |
| SuperModes.CharacterType.ActivateRonaldoSuper | Assets/Scripts/Player/CharacterType.cs:145-160 | the activator only gets super mode; every other player gets a stun of ronaldoStunDuration, the activator none |
| SuperModes.CharacterType.ActivateMessiSuper | Assets/Scripts/Player/CharacterType.cs:190-203 | the modifiers become Messi's: speed 0.8, jump 1, super mode, ball kept |
| SuperModes.CharacterType.ActivateHaalandSuper | Assets/Scripts/Player/CharacterType.cs:206-216 | the modifiers become Haaland's: super mode, a pending power shot with his multiplier |
| SuperModes.CharacterType.DeactivateSuperMode | Assets/Scripts/Player/CharacterType.cs:105-125 | the new state is Deactivate of the old, and the scale is restored exactly when the mode was active |
| SuperModes.CharacterType.SuperModeTimer | Assets/Scripts/Player/CharacterType.cs:127-131 | the new state is one Tick of the old, and the scale is restored exactly when the tick deactivates |
| Session.Select | Assets/Scripts/UI/PlayerManager.cs:43-56 | Player1's pick fills side 1 and passes the turn; Player2's overwrites side 2, leaving side 1 and the turn |
| Session.FirstPickIsPlayer1LastIsPlayer2 | Assets/Scripts/UI/PlayerManager.cs:43-56 | from a reset, the first pick stays Player1's and the last later pick is Player2's |
| Session.Player2PicksOverwrite | Assets/Scripts/UI/PlayerManager.cs:51-55 | on Player2's turn, picks never touch side 1 and the last one wins |
| Session.PlayerManager.constructor | Assets/Scripts/UI/PlayerManager.cs:8-27 | the field initialisers: no team, null names, zero scores, Player1 to choose |
| Session.PlayerManager.SelectTeamIndex | Assets/Scripts/UI/PlayerManager.cs:43-56 | the selection becomes Select of the old one, and nothing else changes |
| Session.PlayerManager.SetCoinTossResult | Assets/Scripts/UI/PlayerManager.cs:59-62 | only player1IsLeftSide changes, to the given value |
| Session.PlayerManager.SetLastMatchScore | Assets/Scripts/UI/PlayerManager.cs:65-72 | both the current and the last scores become p1 and p2 |
| Session.PlayerManager.ResetGame | Assets/Scripts/UI/PlayerManager.cs:75-89 | indices -1, names "", all scores 0, Player1 not on the left, Player1 to choose |
| TeamSelect.ConfirmedTeamName | Assets/Scripts/UI/TeamSelectController.cs:95-101 | the name is the list entry at an index inside the list, otherwise "" |
| TeamSelect.Click | Assets/Scripts/UI/TeamSelectController.cs:55-63 | an index inside the sprite list becomes the pick; any other leaves the screen unchanged |
| TeamSelect.Confirm | Assets/Scripts/UI/TeamSelectController.cs:85-118 | without a pick nothing changes; otherwise the pick goes to the session; Player1's confirm passes the turn and clears the pick, Player2's requests the coin-toss scene |
| TeamSelect.LastClickWins | Assets/Scripts/UI/TeamSelectController.cs:63 | after two clicks the later valid one is the pick |
| TeamSelect.RepeatedConfirmIsIgnored | Assets/Scripts/UI/TeamSelectController.cs:107-111 | a second confirm right after Player1's does nothing |
| TeamSelect.TwoConfirmsStoreBothTeams | Assets/Scripts/UI/TeamSelectController.cs:24-118 | from the start screen, click a and confirm, then click b and confirm: the session holds a and b with their names, and the coin toss is requested |
| TeamSelect.TeamSelectController.constructor | Assets/Scripts/UI/TeamSelectController.cs:21-22 | Player1's turn, no pick, no scene requested |
| TeamSelect.TeamSelectController.Start | Assets/Scripts/UI/TeamSelectController.cs:24-29 | the session, if any, is reset |
| TeamSelect.TeamSelectController.OnTeamButtonClicked | Assets/Scripts/UI/TeamSelectController.cs:55-83 | the screen becomes Click of the old one |
| TeamSelect.TeamSelectController.OnConfirm | Assets/Scripts/UI/TeamSelectController.cs:85-118 | the screen becomes Confirm of the old one, leaving the session's coin toss and scores |
| Results.OutcomeOf | Assets/Scripts/Game/ResultSceneManager.cs:94-96 | left win exactly when p1 > p2, right win exactly when p2 > p1, draw exactly when equal |
| Results.SideAs | Assets/Scripts/Game/ResultSceneManager.cs:102-127 | a side gets the win or lose bubble and colour throughout, with the score text always in the win colour |
| Results.WinLoseView | Assets/Scripts/Game/ResultSceneManager.cs:102-127 | the two sides differ in bubble and every colour; the winner's side is all win colour with the win bubble |
| Results.DrawView | Assets/Scripts/Game/ResultSceneManager.cs:132-151 | both sides are the draw bubble and every colour is the win colour |
| Results.SetupResultUI | Assets/Scripts/Game/ResultSceneManager.cs:84-97 | nothing without a session; otherwise both scores are shown and the presentation follows the outcome |
| Results.ResultIsMirrorSymmetric | Assets/Scripts/Game/ResultSceneManager.cs:94-127 | swapping the scores swaps the two sides of the presentation |
| Results.ScoreTextIsAlwaysWinColor | Assets/Scripts/Game/ResultSceneManager.cs:125-150 | both score texts are in the win colour whatever the score |
| Results.GreyMeansLost | Assets/Scripts/Game/ResultSceneManager.cs:109-110 | a portrait is grey exactly when that side lost |
| Results.IsValidSpriteIndex | Assets/Scripts/Game/ResultSceneManager.cs:76-79 | definition: inside the sprite array with a sprite in the slot; ApplyTeamSpritesAndNames states that a portrait is taken from the array only at such an index |
| Results.ApplyTeamSpritesAndNames | Assets/Scripts/Game/ResultSceneManager.cs:51-79 | nothing without a session; a portrait takes its team's sprite only for a valid index with a filled slot; the names are the session's |
| Results.PortraitNeverCleared | Assets/Scripts/Game/ResultSceneManager.cs:62-66 | a shown portrait never becomes empty |
| Match.Ended | Assets/Scripts/Game/GameManager.cs:417 | definition: only the active flag changes; GameManager.EndGame is proved to produce it and RegularTimeEnded uses it for an unequal score |
| Match.RegularTimeEnded | Assets/Scripts/Game/GameManager.cs:383-394 | a tie enters sudden death; any other score ends the match |
| Match.Updated | Assets/Scripts/Game/GameManager.cs:50-65 | inactive or paused: no change; otherwise the clock loses exactly dt, regular time ends once the clock is at or below zero, and Escape pauses |
| Match.Scored | Assets/Scripts/Game/GameManager.cs:319-353 | ignored once over; the scorer's count alone grows by one (none for a scorer other than 1 or 2); in sudden death the match ends |
| Match.Initialized | Assets/Scripts/Game/GameManager.cs:67-73 | full clock, no goals, active, regular time, the pause flag as it was |
| Match.Step | Assets/Scripts/Game/GameManager.cs:50-65 | definition: a frame is Updated and a goal is Scored; the Run lemmas below state what any sequence of them keeps |
| Match.Run | Assets/Scripts/Game/GameManager.cs:50-65 | definition: the events of a match applied in order; FinishedMatchIsFrozen, PauseIsPermanent, SuddenDeathAndScoresOnlyGrow and RegularTimeEndsOnce state its properties |
| Match.FinishedMatchIsFrozen | Assets/Scripts/Game/GameManager.cs:50-65 | once over, no frame and no goal changes anything about the match |
| Match.PauseIsPermanent | Assets/Scripts/Game/GameManager.cs:52-64 | once paused, the match stays paused and the clock and sudden-death flag never change again |
| Match.SuddenDeathAndScoresOnlyGrow | Assets/Scripts/Game/GameManager.cs:319-324 | sudden death is never left and no score ever decreases |
| Match.SuddenDeathStaysTied | Assets/Scripts/Game/GameManager.cs:383-388 | a running sudden death is always a tie |
| Match.GoldenGoalDecides | Assets/Scripts/Game/GameManager.cs:336-340 | from a match start, a goal by player 1 or 2 in sudden death ends the match with the scorer one goal ahead |
| Match.RegularTimeEndsOnce | Assets/Scripts/Game/GameManager.cs:56-59 | in sudden death a frame never ends the match, whatever the clock |
| Match.GoalSequenceStarted | Assets/Scripts/Game/GameManager.cs:357 | definition: time scale 0.05 and a new half-second countdown; SlowMotionLastsHalfASecond states how long it holds |
| Match.GoalSequencesStepped | Assets/Scripts/Game/GameManager.cs:358-362 | definition: one real-time frame of the goal sequences; SlowMotionEndsAfterHalfASecond and GoalSequenceEndOverridesPause state its effect |
| Match.AnyGoalSequenceEnds | Assets/Scripts/Game/GameManager.cs:358 | definition: some countdown reaches zero in this frame; CountDownGoalSequences reports exactly it and TickGoalSequences restores the time scale and resets positions on it |
| Match.GoalTimersAfter | Assets/Scripts/Game/GameManager.cs:355-362 | the goal countdowns left after a frame are no more than before, and all still positive |
| Match.CountDownGoalSequences | Assets/Scripts/Game/GameManager.cs:355-362 | the loop keeps exactly the unexpired countdowns, reduced by dt, and reports whether any ran out |
| Match.SingleGoalTimer | Assets/Scripts/Game/GameManager.cs:358 | one countdown either survives shortened by dt or ends |
| Match.SlowMotionLastsHalfASecond | Assets/Scripts/Game/GameManager.cs:357-358 | for less than half a real second after a goal the time scale stays 0.05 |
| Match.SlowMotionHoldsFrom | Assets/Scripts/Game/GameManager.cs:358 | slow motion with one countdown of r real seconds holds while the frames total less than r |
| Match.SlowMotionStepsOnce | Assets/Scripts/Game/GameManager.cs:357-358 | a real-time frame shorter than the running countdown keeps the 0.05 time scale and shortens the countdown by dt |
| Match.SlowMotionEndsAfterHalfASecond | Assets/Scripts/Game/GameManager.cs:358-359 | the frame reaching half a real second restores normal speed and ends the sequence |
| Match.GoalSequenceEndOverridesPause | Assets/Scripts/Game/GameManager.cs:359 | a sequence ending while paused sets the time scale to 1 |
| Match.FacingCenterScale | Assets/Scripts/Game/GameManager.cs:303-314 | left half turns x positive, right half negative, the centre line leaves it; the scale's size and y, z are kept |
| Match.FacingCenterFacesCenter | Assets/Scripts/Game/GameManager.cs:305-312 | off the centre line a non-zero scale ends up with sign opposite to the position's side |
| Match.FacingCenterIsIdempotent | Assets/Scripts/Game/GameManager.cs:293-315 | turning toward the centre twice is turning once |
| Match.GameManager.constructor | Assets/Scripts/Game/GameManager.cs:10-37 | the field initialisers: zero scores and clock, not active, no instances, no goal sequence; the time scale is the one inherited from the previous scene, since nothing here sets it |
| Match.GameManager.KickOffSpot | Assets/Scripts/Game/GameManager.cs:169-175 | the configured start, except x is -6 with Player1 on the left and 6 otherwise when a session exists |
| Match.GameManager.InitializeGame | Assets/Scripts/Game/GameManager.cs:67-87 | the match state is Initialized; each player with a valid team index is a fresh player on its mark turned toward the centre; a fresh ball is on the kick-off spot when a ball prefab exists; a failed spawn leaves the reference |
| Match.GameManager.SpawnForKickOff | Assets/Scripts/Game/GameManager.cs:75-79 | spawns players and the ball and turns both players toward the centre, with the same outcome per player and ball |
| Match.GameManager.FaceSpawnedPlayers | Assets/Scripts/Game/GameManager.cs:78-79 | players just spawned from their prefabs end up on their marks turned toward the centre; the ball is untouched |
| Match.IsValidTeamIndex | Assets/Scripts/Game/GameManager.cs:143-146 | definition: inside the prefab array with a prefab in the slot; it is part of the condition under which GameManager.SpawnPlayers states that a player spawns |
| Match.GameManager.SpawnPlayers | Assets/Scripts/Game/GameManager.cs:89-141 | a player is instantiated from the chosen prefab exactly when session, prefab array and index are valid, with number 1 or 2 at its start position |
| Match.GameManager.SpawnBall | Assets/Scripts/Game/GameManager.cs:161-189 | with a ball prefab a fresh free ball at rest is on the kick-off spot; without one nothing changes |
| Match.GameManager.SetAllPlayersFacingCenter | Assets/Scripts/Game/GameManager.cs:287-291 | both present players face the centre; the ball is untouched |
| Match.GameManager.SetPlayerFacingCenter | Assets/Scripts/Game/GameManager.cs:293-315 | the Visual child's scale, or the player's own when it has none, turns toward the centre |
| Match.GameManager.Update | Assets/Scripts/Game/GameManager.cs:50-65 | the match state is Updated; the time scale follows a toggle; ending the match hands the scores over and requests the result scene |
| Match.GameManager.EndRegularTime | Assets/Scripts/Game/GameManager.cs:383-394 | the state is RegularTimeEnded; an unequal score hands over the scores and requests the result scene |
| Match.GameManager.TogglePause | Assets/Scripts/Game/GameManager.cs:396-400 | the pause flag flips; the time scale is 0 when paused, else 1 |
| Match.GameManager.RestartGame | Assets/Scripts/Game/GameManager.cs:402-407 | normal speed and the active scene requested again |
| Match.GameManager.QuitToTitle | Assets/Scripts/Game/GameManager.cs:409-413 | normal speed and the title scene requested |
| Match.GameManager.EndGame | Assets/Scripts/Game/GameManager.cs:415-431 | the match ends, the session receives both final scores, and the result scene is requested |
| Match.GameManager.OnGoalScored | Assets/Scripts/Game/GameManager.cs:319-353 | the state is Scored; outside sudden death a goal sequence starts in slow motion; in sudden death the match ends with the score handover |
| Match.GameManager.ResetPositions | Assets/Scripts/Game/GameManager.cs:364-381 | both players on their start marks facing the centre, the ball on its start, stopped, re-armed and free |
| Match.GameManager.TickGoalSequences | Assets/Scripts/Game/GameManager.cs:355-362 | the goal countdowns step one real frame; when one ends, normal speed comes back and positions are reset; otherwise the players and the ball are untouched |

## Left out

- The resume order of stun coroutines that finish in the same frame: `StepTimers` resumes them in the order they started, which decides whose saved constraints are restored last. The engine does not document this order, so it is an assumption of the model.
- The difference between `visualRoot` and a child named "Visual": the single flag `hasVisual` with `visualScale` stands both for PlayerController's serialized `visualRoot`, which falls back to `Find("Visual")` only when unset (PlayerController.cs:14, 52-53), and for the plain `Find("Visual")` lookups in Ball.cs:197 and GameManager.cs:297. The two differ when the inspector points `visualRoot` at a child with another name; the model treats them as the same transform.
- The velocity of a stunned player: `Move` is not gated by the stun, so a stunned player holding an up or down key gets a vertical velocity every physics frame, while the frozen constraints keep it in place. `StunHoldsBeforeItsDuration` speaks of the stun frames alone.
- The physics engine: integration, damping, bounciness and collision detection. Forces and impulses are recorded as commands, not simulated.
- Floating point: times, speeds and offsets are exact reals. Vector lengths are engine-supplied magnitudes (the `IsMagnitude` precondition), since `real` has no square root.
- How the time scale changes `Time.deltaTime`: the frame's delta is a parameter of `Update`. The goal sequence receives real seconds through `TickGoalSequences`.
- Coroutine scheduling: `StartCoroutine`/`StopCoroutine` become countdown fields advanced by tick methods. When several goal sequences end in one frame, the model resets positions once. This is the same outcome, because the reset is idempotent on the positions.
- GameManager's singleton `Awake` and `Start`, and PlayerManager's `Awake`/`DontDestroyOnLoad`: the managers are passed as explicit objects. `PlayerManager.Instance == null` is a null `pm`.
- `SetupCamera`, `SetupBackground`, `SetupItemSpawner`, `SetupScoreboardFlags`, `IsValidFlagIndex` and `AddSpriteToPlayer`: presentation, and calls into classes outside this model.
- Sounds, VFX, sprite colours, the trail renderer, `TriggerPowerShotEffect`, `PowerShotFlash`, `ApplyVisualEffects`, `RemoveVisualEffects`, the camera shake, `GameUI.ShowGoalText`, the animator flag and debug logging: presentation only.
- `SuperModeManager.OnBallTouch`: its class is not part of this model, so the call is an opaque notification and is dropped.
- `Jump`: its body is empty. `CheckGroundContact`: also empty.
- `GetPlayerNumber`, `IsSuperModeActive`: plain field reads, available as the fields themselves.
- CoinTossController.cs, SoundManager.cs, SoccerCursor.cs, CursorHoverUI.cs, BtnCtrl.cs and PlayerMoveFilp.cs: not part of this model (coin animation and randomness, audio, cursor, menu navigation, and a movement demo).
- Scene loading: a requested scene is recorded in `requestedScene`; what the loaded scene then does is not modelled.
- Prefabs without the expected component: every team prefab's object is modelled as having a PlayerController, and the ball prefab as having a Ball.
- The stun of a target without a Rigidbody2D (CharacterType.cs:181-184): every player has one in the model.
- SuperModes.CharacterType.ActivateSuperMode: requires the scene's player list to hold distinct players, as `FindObjectsOfType` returns them. A duplicate entry would stack two stuns on one player; that case is not modelled.
- SuperModes.CharacterType.DeactivateSuperMode: restores the scale of the player's transform. A CharacterType without a PlayerController also restores its transform's scale, and that case is not modelled.
- C# null strings: a team name is `Option<string>` in the session. Entries of the team-name array are plain strings, since a null entry is not distinguished.
- UI null references: a missing image, text or bubble object, and a missing `teamSprites` array, would throw or be skipped in the engine. All UI objects are present in the model. The team-select images and their mirroring in `Start` are presentation.
- `Ball.IsAttachedTo` and the getters of GameManager have no contract of their own. `AttachTo`'s contract and the match state functions state them.
