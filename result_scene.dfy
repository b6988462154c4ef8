/**
 * The result screen: each side's portrait and team name from the session,
 * then the win, lose or draw presentation decided from the last match's
 * score. Every UI assignment is a field of the record the functions return.
 */
module Results {
  import opened Wrappers
  import opened Session

  /** A 32-bit colour, one byte per channel. */
  datatype Color = Color(r: int, g: int, b: int, a: int)

  const WIN_COLOR := Color(255, 255, 255, 255)
  const LOSE_COLOR := Color(128, 128, 128, 255)

  datatype Bubble = WinBubble | LoseBubble | DrawBubble

  datatype Outcome = LeftWins | RightWins | Draw

  /** The branch of the result set-up: the higher score wins, equal scores draw. */
  function OutcomeOf(p1: int, p2: int): (o: Outcome)
    ensures o == LeftWins <==> p1 > p2
    ensures o == RightWins <==> p2 > p1
    ensures o == Draw <==> p1 == p2
  {
    if p1 > p2 then LeftWins else if p2 > p1 then RightWins else Draw
  }

  /** What one side of the screen shows. */
  datatype SideView = SideView(
    bubble: Bubble,
    portraitColor: Color,
    teamNameColor: Color,
    teamTextColor: Color,
    scoreBackgroundColor: Color,
    scoreTextColor: Color)

  datatype ResultView = ResultView(left: SideView, right: SideView)

  /** A side's presentation as winner or loser; the score text is always in the win colour. */
  function SideAs(winner: bool): (s: SideView)
    ensures s.bubble == (if winner then WinBubble else LoseBubble)
    ensures var c := if winner then WIN_COLOR else LOSE_COLOR;
      s.portraitColor == c && s.teamNameColor == c && s.teamTextColor == c && s.scoreBackgroundColor == c
    ensures s.scoreTextColor == WIN_COLOR
  {
    var c := if winner then WIN_COLOR else LOSE_COLOR;
    SideView(if winner then WinBubble else LoseBubble, c, c, c, c, WIN_COLOR)
  }

  /**
   * SetWinLose: the two sides get opposite bubbles and colours, the winner's
   * side the win bubble and the win colour.
   */
  function WinLoseView(isLeftWinner: bool): (v: ResultView)
    ensures v.left.bubble != v.right.bubble && v.left.portraitColor != v.right.portraitColor
    ensures v.left.teamNameColor != v.right.teamNameColor && v.left.teamTextColor != v.right.teamTextColor
    ensures v.left.scoreBackgroundColor != v.right.scoreBackgroundColor
    ensures var winner := if isLeftWinner then v.left else v.right;
      winner.bubble == WinBubble && winner.portraitColor == WIN_COLOR && winner.teamNameColor == WIN_COLOR
      && winner.teamTextColor == WIN_COLOR && winner.scoreBackgroundColor == WIN_COLOR
    ensures v.left.scoreTextColor == WIN_COLOR && v.right.scoreTextColor == WIN_COLOR
  {
    ResultView(SideAs(isLeftWinner), SideAs(!isLeftWinner))
  }

  /** SetDraw: both sides get the draw bubble and every colour is the win colour. */
  function DrawView(): (v: ResultView)
    ensures v.left == v.right
    ensures v.left.bubble == DrawBubble
    ensures v.left.portraitColor == WIN_COLOR && v.left.teamNameColor == WIN_COLOR
    ensures v.left.teamTextColor == WIN_COLOR && v.left.scoreBackgroundColor == WIN_COLOR
    ensures v.left.scoreTextColor == WIN_COLOR
  {
    var side := SideView(DrawBubble, WIN_COLOR, WIN_COLOR, WIN_COLOR, WIN_COLOR, WIN_COLOR);
    ResultView(side, side)
  }

  /** The score part of the screen: both score texts and the presentation of the outcome. */
  datatype ScoreBoard = ScoreBoard(leftScore: int, rightScore: int, view: ResultView)

  /** SetupResultUI, given the session's last match score (nothing is set without a session). */
  function SetupResultUI(lastScores: Option<(int, int)>): (b: Option<ScoreBoard>)
    ensures lastScores.None? <==> b.None?
    ensures lastScores.Some? ==>
      var (p1, p2) := lastScores.value;
      && b.value.leftScore == p1 && b.value.rightScore == p2
      && b.value.view == match OutcomeOf(p1, p2)
                         case LeftWins => WinLoseView(true)
                         case RightWins => WinLoseView(false)
                         case Draw => DrawView()
  {
    match lastScores
    case None => None
    case Some((p1, p2)) =>
      Some(ScoreBoard(p1, p2, if p1 > p2 then WinLoseView(true)
                              else if p2 > p1 then WinLoseView(false)
                              else DrawView()))
  }

  function Mirror(v: ResultView): ResultView
  {
    ResultView(v.right, v.left)
  }

  /** Swapping the two scores swaps the two sides of the presentation. */
  lemma {:induction false} ResultIsMirrorSymmetric(p1: int, p2: int)
    ensures SetupResultUI(Some((p2, p1))).value.view == Mirror(SetupResultUI(Some((p1, p2))).value.view)
  {
  }

  /** Whatever the scores, both score texts are in the win colour. */
  lemma {:induction false} ScoreTextIsAlwaysWinColor(p1: int, p2: int)
    ensures var v := SetupResultUI(Some((p1, p2))).value.view;
      v.left.scoreTextColor == WIN_COLOR && v.right.scoreTextColor == WIN_COLOR
  {
  }

  /** The loser's side is grey exactly when the scores differ; a draw greys out nothing. */
  lemma {:induction false} GreyMeansLost(p1: int, p2: int)
    ensures var v := SetupResultUI(Some((p1, p2))).value.view;
      && (v.left.portraitColor == LOSE_COLOR <==> p2 > p1)
      && (v.right.portraitColor == LOSE_COLOR <==> p1 > p2)
  {
  }

  /** A sprite reference: an asset id, or `None` for an empty array slot. */
  type Sprite = Option<nat>

  /**
   * IsValidSpriteIndex: the index lies in the sprite array and that slot
   * is filled.
   */
  predicate IsValidSpriteIndex(teamSprites: seq<Sprite>, idx: int)
  {
    0 <= idx < |teamSprites| && teamSprites[idx].Some?
  }

  /** The two portraits and the two team-name texts. */
  datatype Portraits = Portraits(left: Sprite, right: Sprite, leftName: Option<string>, rightName: Option<string>)

  /**
   * ApplyTeamSpritesAndNames: without a session nothing changes; otherwise a
   * portrait takes its team's sprite only when that index is valid, and the
   * name texts take the session's names.
   */
  function ApplyTeamSpritesAndNames(session: Option<Selection>, teamSprites: seq<Sprite>, shown: Portraits): (r: Portraits)
    ensures session.None? ==> r == shown
    ensures session.Some? ==>
      var s := session.value;
      && r.left == (if IsValidSpriteIndex(teamSprites, s.player1TeamIndex) then teamSprites[s.player1TeamIndex] else shown.left)
      && r.right == (if IsValidSpriteIndex(teamSprites, s.player2TeamIndex) then teamSprites[s.player2TeamIndex] else shown.right)
      && r.leftName == s.player1Team && r.rightName == s.player2Team
  {
    match session
    case None => shown
    case Some(s) =>
      Portraits(
        if IsValidSpriteIndex(teamSprites, s.player1TeamIndex) then teamSprites[s.player1TeamIndex] else shown.left,
        if IsValidSpriteIndex(teamSprites, s.player2TeamIndex) then teamSprites[s.player2TeamIndex] else shown.right,
        s.player1Team, s.player2Team)
  }

  /** A portrait never becomes empty: it either keeps what it showed or takes a filled slot. */
  lemma {:induction false} PortraitNeverCleared(session: Option<Selection>, teamSprites: seq<Sprite>, shown: Portraits)
    requires shown.left.Some? && shown.right.Some?
    ensures var r := ApplyTeamSpritesAndNames(session, teamSprites, shown);
      r.left.Some? && r.right.Some?
  {
  }
}
