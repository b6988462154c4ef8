/**
 * The session record that survives scene changes: the two teams picked on
 * the selection screen, the coin-toss side and the scores handed from the
 * match to the result screen.
 *
 * A C# string field may be null; team names are `Option<string>`, with
 * `None` for null.
 */
module Session {
  import opened Wrappers

  datatype SelectingPlayer = Player1 | Player2

  /** The selection part of the session: each side's team index and name, and whose turn it is. */
  datatype Selection = Selection(
    player1TeamIndex: int, player1Team: Option<string>,
    player2TeamIndex: int, player2Team: Option<string>,
    currentSelectingPlayer: SelectingPlayer)

  /** No team picked on either side, Player1 to choose. */
  const RESET_SELECTION := Selection(-1, Some(""), -1, Some(""), Player1)

  /**
   * Recording a pick: Player1's turn stores it on side 1 and hands the turn
   * to Player2; on Player2's turn it overwrites side 2 and the turn stays.
   */
  function Select(s: Selection, index: int, teamName: string): (r: Selection)
    ensures r.currentSelectingPlayer == Player2
    ensures s.currentSelectingPlayer == Player1 ==>
      && r.player1TeamIndex == index && r.player1Team == Some(teamName)
      && r.player2TeamIndex == s.player2TeamIndex && r.player2Team == s.player2Team
    ensures s.currentSelectingPlayer == Player2 ==>
      && r.player2TeamIndex == index && r.player2Team == Some(teamName)
      && r.player1TeamIndex == s.player1TeamIndex && r.player1Team == s.player1Team
  {
    match s.currentSelectingPlayer
    case Player1 => s.(player1TeamIndex := index, player1Team := Some(teamName), currentSelectingPlayer := Player2)
    case Player2 => s.(player2TeamIndex := index, player2Team := Some(teamName))
  }

  /** A pick is a pair of team index and team name. */
  datatype Pick = Pick(index: int, name: string)

  function SelectAll(s: Selection, picks: seq<Pick>): Selection
    decreases |picks|
  {
    if picks == [] then s else SelectAll(Select(s, picks[0].index, picks[0].name), picks[1..])
  }

  /**
   * From a reset, the first pick is Player1's and stays so; every later pick
   * goes to Player2 and the last one wins.
   */
  lemma {:induction false} FirstPickIsPlayer1LastIsPlayer2(first: Pick, later: seq<Pick>)
    requires later != []
    ensures var r := SelectAll(RESET_SELECTION, [first] + later);
      && r.player1TeamIndex == first.index && r.player1Team == Some(first.name)
      && r.player2TeamIndex == later[|later| - 1].index && r.player2Team == Some(later[|later| - 1].name)
      && r.currentSelectingPlayer == Player2
  {
    var s1 := Select(RESET_SELECTION, first.index, first.name);
    assert ([first] + later)[1..] == later;
    Player2PicksOverwrite(s1, later);
  }

  lemma {:induction false} Player2PicksOverwrite(s: Selection, picks: seq<Pick>)
    requires s.currentSelectingPlayer == Player2 && picks != []
    ensures var r := SelectAll(s, picks);
      && r.player1TeamIndex == s.player1TeamIndex && r.player1Team == s.player1Team
      && r.player2TeamIndex == picks[|picks| - 1].index && r.player2Team == Some(picks[|picks| - 1].name)
      && r.currentSelectingPlayer == Player2
    decreases |picks|
  {
    var next := Select(s, picks[0].index, picks[0].name);
    if |picks| > 1 {
      Player2PicksOverwrite(next, picks[1..]);
      assert picks[1..][|picks[1..]| - 1] == picks[|picks| - 1];
    }
  }

  class PlayerManager {
    var player1TeamIndex: int
    var player2TeamIndex: int
    var player1Team: Option<string>
    var player2Team: Option<string>
    /** The coin toss: Player1 kicks off from the left. */
    var player1IsLeftSide: bool
    var player1Score: int
    var player2Score: int
    /** The final score of the last match, read by the result screen. */
    var lastP1Score: int
    var lastP2Score: int
    var currentSelectingPlayer: SelectingPlayer

    function SelectionState(): Selection
      reads this
    {
      Selection(player1TeamIndex, player1Team, player2TeamIndex, player2Team, currentSelectingPlayer)
    }

    /** The field initialisers; string fields start out null. */
    constructor ()
      ensures SelectionState() == Selection(-1, None, -1, None, Player1)
      ensures !player1IsLeftSide
      ensures player1Score == 0 && player2Score == 0 && lastP1Score == 0 && lastP2Score == 0
    {
      player1TeamIndex := -1;
      player2TeamIndex := -1;
      player1Team := None;
      player2Team := None;
      player1IsLeftSide := false;
      player1Score := 0;
      player2Score := 0;
      lastP1Score := 0;
      lastP2Score := 0;
      currentSelectingPlayer := Player1;
    }

    /** Stores a confirmed team for the side whose turn it is. */
    method SelectTeamIndex(index: int, teamName: string)
      modifies this`player1TeamIndex, this`player1Team, this`player2TeamIndex, this`player2Team,
               this`currentSelectingPlayer
      ensures SelectionState() == Select(old(SelectionState()), index, teamName)
    {
      if currentSelectingPlayer == Player1 {
        player1TeamIndex := index;
        player1Team := Some(teamName);
        currentSelectingPlayer := Player2;
      } else {
        player2TeamIndex := index;
        player2Team := Some(teamName);
      }
    }

    method SetCoinTossResult(player1IsLeft: bool)
      modifies this`player1IsLeftSide
      ensures player1IsLeftSide == player1IsLeft
    {
      player1IsLeftSide := player1IsLeft;
    }

    /** Records a final score as both the current and the last match score. */
    method SetLastMatchScore(p1: int, p2: int)
      modifies this`player1Score, this`player2Score, this`lastP1Score, this`lastP2Score
      ensures player1Score == p1 && player2Score == p2
      ensures lastP1Score == p1 && lastP2Score == p2
    {
      player1Score := p1;
      player2Score := p2;
      lastP1Score := p1;
      lastP2Score := p2;
    }

    /** Clears the session for a new game. */
    method ResetGame()
      modifies this
      ensures SelectionState() == RESET_SELECTION
      ensures !player1IsLeftSide
      ensures player1Score == 0 && player2Score == 0 && lastP1Score == 0 && lastP2Score == 0
    {
      player1TeamIndex := -1;
      player2TeamIndex := -1;
      player1Team := Some("");
      player2Team := Some("");
      player1Score := 0;
      player2Score := 0;
      lastP1Score := 0;
      lastP2Score := 0;
      player1IsLeftSide := false;
      currentSelectingPlayer := Player1;
    }
  }
}
