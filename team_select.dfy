/**
 * The team-selection screen: Player1 clicks a team and confirms, then
 * Player2 does the same, and the second confirm moves on to the coin toss.
 * Each confirm hands the picked index and its display name to the session.
 */
module TeamSelect {
  import opened Wrappers
  import opened Session

  const COIN_SCENE := "CoinScene"

  /**
   * The name shown for a confirmed pick: the entry of the name list at that
   * index, or the empty string when there is no list or the index is past it.
   */
  function ConfirmedTeamName(teamNames: Option<seq<string>>, index: int): (name: string)
    ensures teamNames.Some? && 0 <= index < |teamNames.value| ==> name == teamNames.value[index]
    ensures !(teamNames.Some? && 0 <= index < |teamNames.value|) ==> name == ""
  {
    if teamNames.Some? && 0 <= index < |teamNames.value| then teamNames.value[index] else ""
  }

  /**
   * The screen's state: whose turn it is, the index clicked this turn (-1
   * for none), the scene requested, if any, and the session's selection when
   * a session exists.
   */
  datatype Screen = Screen(
    isSelectingP1: bool,
    currentSelectedIndex: int,
    requestedScene: Option<string>,
    selection: Option<Selection>)

  /** A team button: an index inside the sprite list becomes this turn's pick; any other is ignored. */
  function Click(sc: Screen, index: int, teamSpriteCount: nat): (r: Screen)
    ensures 0 <= index < teamSpriteCount ==> r == sc.(currentSelectedIndex := index)
    ensures !(0 <= index < teamSpriteCount) ==> r == sc
  {
    if index < 0 || index >= teamSpriteCount then sc else sc.(currentSelectedIndex := index)
  }

  /**
   * The confirm button: without a pick nothing happens; otherwise the pick
   * goes to the session, and either the turn passes to Player2 with the pick
   * cleared, or, on Player2's turn, the coin-toss scene is requested.
   */
  function Confirm(sc: Screen, teamNames: Option<seq<string>>): (r: Screen)
    ensures sc.currentSelectedIndex < 0 ==> r == sc
    ensures sc.currentSelectedIndex >= 0 ==>
      r.selection == match sc.selection
                     case None => None
                     case Some(s) => Some(Select(s, sc.currentSelectedIndex,
                                                 ConfirmedTeamName(teamNames, sc.currentSelectedIndex)))
    ensures sc.currentSelectedIndex >= 0 && sc.isSelectingP1 ==>
      !r.isSelectingP1 && r.currentSelectedIndex == -1 && r.requestedScene == sc.requestedScene
    ensures sc.currentSelectedIndex >= 0 && !sc.isSelectingP1 ==>
      !r.isSelectingP1 && r.currentSelectedIndex == sc.currentSelectedIndex && r.requestedScene == Some(COIN_SCENE)
  {
    if sc.currentSelectedIndex < 0 then sc
    else
      var idx := sc.currentSelectedIndex;
      var selection := match sc.selection
                       case None => None
                       case Some(s) => Some(Select(s, idx, ConfirmedTeamName(teamNames, idx)));
      if sc.isSelectingP1 then
        sc.(selection := selection, isSelectingP1 := false, currentSelectedIndex := -1)
      else
        sc.(selection := selection, requestedScene := Some(COIN_SCENE))
  }

  /** The screen right after it starts: Player1's turn, no pick, the session just reset. */
  const STARTED := Screen(true, -1, None, Some(RESET_SELECTION))

  /** Of several clicks in one turn, the last valid one is the pick. */
  lemma {:induction false} LastClickWins(sc: Screen, a: int, b: int, count: nat)
    requires 0 <= b < count
    ensures Click(Click(sc, a, count), b, count) == Click(sc, b, count)
  {
  }

  /** A second confirm right after Player1's does not pick for Player2: the pick was cleared. */
  lemma {:induction false} RepeatedConfirmIsIgnored(sc: Screen, teamNames: Option<seq<string>>)
    requires sc.isSelectingP1 && sc.currentSelectedIndex >= 0
    ensures Confirm(Confirm(sc, teamNames), teamNames) == Confirm(sc, teamNames)
  {
  }

  /**
   * The whole pipeline from a fresh screen: Player1 clicks `a` and
   * confirms, Player2 clicks `b` and confirms. The session then holds `a`
   * for Player1, `b` for Player2, with their names, and the coin toss is
   * requested.
   */
  lemma {:induction false} TwoConfirmsStoreBothTeams(teamNames: Option<seq<string>>, count: nat, a: int, b: int)
    requires 0 <= a < count && 0 <= b < count
    ensures var r := Confirm(Click(Confirm(Click(STARTED, a, count), teamNames), b, count), teamNames);
      && r.selection == Some(Selection(a, Some(ConfirmedTeamName(teamNames, a)),
                                       b, Some(ConfirmedTeamName(teamNames, b)), Player2))
      && r.requestedScene == Some(COIN_SCENE)
  {
    var s1 := Confirm(Click(STARTED, a, count), teamNames);
    assert s1.selection == Some(Selection(a, Some(ConfirmedTeamName(teamNames, a)), -1, Some(""), Player2));
    assert s1.isSelectingP1 == false && s1.currentSelectedIndex == -1;
  }

  class TeamSelectController {
    /** The display names; the array may be missing. */
    const teamNames: Option<seq<string>>
    /** The number of team sprites, which bounds the valid button indices. */
    const teamSpriteCount: nat
    /** The session, when one exists. */
    const pm: PlayerManager?

    var isSelectingP1: bool
    var currentSelectedIndex: int
    /** The scene this screen asked to load, if any. */
    var requestedScene: Option<string>

    function State(): Screen
      reads this, pm
    {
      Screen(isSelectingP1, currentSelectedIndex, requestedScene,
             if pm == null then None else Some(pm.SelectionState()))
    }

    constructor (teamNames: Option<seq<string>>, teamSpriteCount: nat, pm: PlayerManager?)
      ensures this.teamNames == teamNames && this.teamSpriteCount == teamSpriteCount && this.pm == pm
      ensures isSelectingP1 && currentSelectedIndex == -1 && requestedScene.None?
    {
      this.teamNames := teamNames;
      this.teamSpriteCount := teamSpriteCount;
      this.pm := pm;
      isSelectingP1 := true;
      currentSelectedIndex := -1;
      requestedScene := None;
    }

    /** Start: resets the session for a new game. */
    method Start()
      modifies pm
      ensures pm != null ==> pm.SelectionState() == RESET_SELECTION && !pm.player1IsLeftSide
      ensures pm != null ==>
        pm.player1Score == 0 && pm.player2Score == 0 && pm.lastP1Score == 0 && pm.lastP2Score == 0
    {
      if pm != null {
        pm.ResetGame();
      }
    }

    method OnTeamButtonClicked(index: int)
      modifies this`currentSelectedIndex
      ensures State() == Click(old(State()), index, teamSpriteCount)
    {
      if index < 0 || index >= teamSpriteCount {
        return;
      }
      currentSelectedIndex := index;
    }

    method OnConfirm()
      modifies this`isSelectingP1, this`currentSelectedIndex, this`requestedScene
      modifies pm
      ensures State() == Confirm(old(State()), teamNames)
      ensures pm != null ==>
        && pm.player1IsLeftSide == old(pm.player1IsLeftSide)
        && pm.player1Score == old(pm.player1Score) && pm.player2Score == old(pm.player2Score)
        && pm.lastP1Score == old(pm.lastP1Score) && pm.lastP2Score == old(pm.lastP2Score)
    {
      if currentSelectedIndex < 0 {
        return;
      }
      if pm != null {
        var teamName := "";
        if teamNames.Some? && currentSelectedIndex >= 0 && currentSelectedIndex < |teamNames.value| {
          teamName := teamNames.value[currentSelectedIndex];
        }
        pm.SelectTeamIndex(currentSelectedIndex, teamName);
      }
      if isSelectingP1 {
        isSelectingP1 := false;
        currentSelectedIndex := -1;
      } else {
        requestedScene := Some(COIN_SCENE);
      }
    }
  }
}
