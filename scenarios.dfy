// Concrete games: the opening moves and the hit that the repository's
// specs exercise, and bear-off positions for both players.

module Scenarios {
  import opened Players
  import opened Rules
  import opened Boards

  /** Red from 24: a 6 reaches the open point 18, a 5 meets Black's five checkers on 19,
      and there is no Red checker on 23 to move. */
  lemma RedOpeningMoves()
    ensures Legal(Start(), Red, 24, 6)
    ensures !Legal(Start(), Red, 24, 5)
    ensures !Legal(Start(), Red, 23, 1)
  {
  }

  /** Black from 1: a 6 reaches the open point 7, a 5 meets Red's five checkers on 6,
      and there is no Black checker on 2 to move. */
  lemma BlackOpeningMoves()
    ensures Legal(Start(), Black, 1, 6)
    ensures !Legal(Start(), Black, 1, 5)
    ensures !Legal(Start(), Black, 2, 1)
  {
  }

  lemma RedMovesFrom24()
    ensures Legal(Start(), Red, 24, 6)
    ensures AfterMove(Start(), Red, 24, 6)[24].Of(Red) == 1
    ensures AfterMove(Start(), Red, 24, 6)[18].Of(Red) == 1
  {
  }

  lemma BlackMovesFrom17()
    ensures Legal(Start(), Black, 17, 2)
    ensures AfterMove(Start(), Black, 17, 2)[17].Of(Black) == 2
    ensures AfterMove(Start(), Black, 17, 2)[19].Of(Black) == 6
  {
  }

  /** The opening after Black moves 17 -> 22. */
  function BlackRunsTo22(): Position {
    AfterMove(Start(), Black, 17, 5)
  }

  /** ... and after Red hits that checker from 24. */
  function RedHitsOn22(): Position {
    AfterMove(BlackRunsTo22(), Red, 24, 2)
  }

  /** Black moves 17 -> 22, Red hits it from 24; from then on Black may only
      re-enter from the bar, onto a point Red does not hold. */
  lemma RedHitsBlack()
    ensures Legal(Start(), Black, 17, 5)
    ensures Legal(BlackRunsTo22(), Red, 24, 2)
    ensures RedHitsOn22()[22] == Checkers(0, 1)
    ensures RedHitsOn22()[BAR].Of(Black) == 1
    ensures !Legal(RedHitsOn22(), Black, 17, 5) && !Legal(RedHitsOn22(), Black, 17, 6)
    ensures !Legal(RedHitsOn22(), Black, BAR, 6)
    ensures Legal(RedHitsOn22(), Black, BAR, 5) && Legal(RedHitsOn22(), Black, BAR, 1)
    ensures AfterMove(RedHitsOn22(), Black, BAR, 1)[1].Of(Black) == 3
    ensures AfterMove(RedHitsOn22(), Black, BAR, 1)[BAR].Of(Black) == 0
  {
  }

  /** Black 5@19, 5@20, 5@24 and Red 15@1. */
  function BlackBearingOff(): Position {
    seq(26, i => Checkers(if i == 19 || i == 20 || i == 24 then 5 else 0, if i == 1 then 15 else 0))
  }

  /** Bearing off needs a clear outer board; then an exact roll always bears off and a
      larger one only from the point farthest out. */
  lemma BlackBearOff()
    ensures !Legal(Start(), Black, 19, 6)
    ensures Legal(BlackBearingOff(), Black, 19, 6)
    ensures Legal(BlackBearingOff(), Black, 20, 5)
    ensures Legal(BlackBearingOff(), Black, 24, 1)
    ensures !Legal(BlackBearingOff(), Black, 24, 2)
    ensures !Legal(BlackBearingOff(), Black, 20, 6)
  {
    assert Start()[1].Of(Black) > 0;
  }

  /** Red 5@6, 10@2 and Black 15@24. */
  function RedBearingOff(): Position {
    seq(26, i => Checkers(if i == 24 then 15 else 0, if i == 6 then 5 else if i == 2 then 10 else 0))
  }

  lemma RedBearOff()
    ensures !Legal(Start(), Red, 6, 6)
    ensures Legal(RedBearingOff(), Red, 6, 6)
    ensures Legal(RedBearingOff(), Red, 2, 2)
    ensures !Legal(RedBearingOff(), Red, 2, 3)
    ensures AfterMove(RedBearingOff(), Red, 6, 6)[HOME].Of(Red) == 1
  {
    assert Start()[24].Of(Red) > 0;
    assert RedBearingOff()[6].Of(Red) > 0;
  }

  /** Red's opening move from 24 played on a board object: the contracts of the
      constructor and of Move alone determine the outcome. */
  method RedMovesOnTheBoard()
  {
    var board := new Board();
    RedMovesFrom24();
    var moved := board.Move(Red, 24, 6);
    assert moved;
    assert board.Current()[24].Of(Red) == 1 && board.Current()[18].Of(Red) == 1;
  }
}
