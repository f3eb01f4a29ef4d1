/** Whole games played on the model from a fresh board. */
module Scenarios {
  import opened Rules
  import opened Game

  /** A run through the given states, one selection per state change. */
  lemma {:induction false} RunThrough(states: seq<GameState>, moves: seq<CellIndex>)
    requires |states| == |moves| + 1 && Consistent(states[0])
    requires forall k :: 0 <= k < |moves| ==> Consistent(states[k]) && Step(states[k], moves[k]).0 == states[k + 1]
    ensures Run(states[0], moves) == states[|moves|]
    decreases |moves|
  {
    if moves != [] {
      RunThrough(states[1..], moves[1..]);
    }
  }

  /** A marking move that leaves the game running with the other player to
      move; square `open` of the new board is still empty. */
  lemma MoveContinues(s: GameState, index: CellIndex, t: GameState, open: CellIndex)
    requires Consistent(s) && s.winningPlayer == Undecided && s.board[index].playerMark == Empty
    requires t.board == s.board[index := s.board[index].(playerMark := Taken(s.currentPlayer.mark))]
    requires !ListedLineHeld(t.board, s.currentPlayer.mark) && t.board[open].playerMark == Empty
    requires t.currentPlayer == Alternate(s.currentPlayer) && t.winningPlayer == Undecided
    ensures Step(s, index) == (t, Marked)
  {
    IsWinUnfolded(t.board, s.currentPlayer.mark);
    IsDrawIffAllMarked(t.board);
  }

  /** A marking move that wins the game for the mover. */
  lemma MoveWins(s: GameState, index: CellIndex, t: GameState)
    requires Consistent(s) && s.winningPlayer == Undecided && s.board[index].playerMark == Empty
    requires t.board == s.board[index := s.board[index].(playerMark := Taken(s.currentPlayer.mark))]
    requires ListedLineHeld(t.board, s.currentPlayer.mark)
    requires t.currentPlayer == NoPlayer && t.winningPlayer == Won(s.currentPlayer.mark)
    ensures Step(s, index) == (t, Marked)
  {
    IsWinUnfolded(t.board, s.currentPlayer.mark);
  }

  /** A marking move that fills the board without a win. */
  lemma MoveDraws(s: GameState, index: CellIndex, t: GameState)
    requires Consistent(s) && s.winningPlayer == Undecided && s.board[index].playerMark == Empty
    requires t.board == s.board[index := s.board[index].(playerMark := Taken(s.currentPlayer.mark))]
    requires !ListedLineHeld(t.board, s.currentPlayer.mark) && forall i :: 0 <= i < 9 ==> t.board[i].playerMark != Empty
    requires t.currentPlayer == NoPlayer && t.winningPlayer == Draw
    ensures Step(s, index) == (t, Marked)
  {
    IsWinUnfolded(t.board, s.currentPlayer.mark);
    IsDrawIffAllMarked(t.board);
  }

  /** The diagonal game after X 0, O 1. */
  function DiagonalGameAfter2(): GameState
  {
    var e, x, o := Empty, Taken(X), Taken(O);
    GameState([Square(0, x), Square(1, o), Square(2, e), Square(3, e), Square(4, e), Square(5, e), Square(6, e), Square(7, e), Square(8, e)], Player(X), Undecided)
  }

  /** The diagonal game after X 0, O 1, X 4, O 2. */
  function DiagonalGameAfter4(): GameState
  {
    var e, x, o := Empty, Taken(X), Taken(O);
    GameState([Square(0, x), Square(1, o), Square(2, o), Square(3, e), Square(4, x), Square(5, e), Square(6, e), Square(7, e), Square(8, e)], Player(X), Undecided)
  }

  /** The board after X 0, O 1, X 4, O 2, X 8. */
  function DiagonalBoard(): (squares: seq<Square>)
    ensures |squares| == 9
  {
    [Square(0, Taken(X)), Square(1, Taken(O)), Square(2, Taken(O)), Square(3, Empty), Square(4, Taken(X)),
     Square(5, Empty), Square(6, Empty), Square(7, Empty), Square(8, Taken(X))]
  }

  /** X 0, O 1 from a fresh board. */
  lemma DiagonalGameOpening()
    ensures Run(InitialState(), [0, 1]) == DiagonalGameAfter2()
  {
    var e, x, o := Empty, Taken(X), Taken(O);
    var s0 := GameState([Square(0, e), Square(1, e), Square(2, e), Square(3, e), Square(4, e), Square(5, e), Square(6, e), Square(7, e), Square(8, e)], Player(X), Undecided);
    var s1 := GameState([Square(0, x), Square(1, e), Square(2, e), Square(3, e), Square(4, e), Square(5, e), Square(6, e), Square(7, e), Square(8, e)], Player(O), Undecided);
    var s2 := GameState([Square(0, x), Square(1, o), Square(2, e), Square(3, e), Square(4, e), Square(5, e), Square(6, e), Square(7, e), Square(8, e)], Player(X), Undecided);
    assert InitialState() == s0;
    MoveContinues(s0, 0, s1, 1);
    MoveContinues(s1, 1, s2, 2);
    RunThrough([s0, s1, s2], [0, 1]);
    assert DiagonalGameAfter2() == s2;
  }

  /** X 4, O 2 after the opening: still no line, X to move. */
  lemma DiagonalGameMiddle()
    ensures Run(DiagonalGameAfter2(), [4, 2]) == DiagonalGameAfter4()
  {
    var e, x, o := Empty, Taken(X), Taken(O);
    var s0 := GameState([Square(0, x), Square(1, o), Square(2, e), Square(3, e), Square(4, e), Square(5, e), Square(6, e), Square(7, e), Square(8, e)], Player(X), Undecided);
    var s1 := GameState([Square(0, x), Square(1, o), Square(2, e), Square(3, e), Square(4, x), Square(5, e), Square(6, e), Square(7, e), Square(8, e)], Player(O), Undecided);
    var s2 := GameState([Square(0, x), Square(1, o), Square(2, o), Square(3, e), Square(4, x), Square(5, e), Square(6, e), Square(7, e), Square(8, e)], Player(X), Undecided);
    assert DiagonalGameAfter2() == s0;
    MoveContinues(s0, 4, s1, 2);
    MoveContinues(s1, 2, s2, 3);
    RunThrough([s0, s1, s2], [4, 2]);
    assert DiagonalGameAfter4() == s2;
  }

  /** X 8 completes the diagonal 0, 4, 8: X wins and no one is to move. */
  lemma DiagonalGameLastMove()
    ensures Run(DiagonalGameAfter4(), [8]) == GameState(DiagonalBoard(), NoPlayer, Won(X))
  {
    var s4 := DiagonalGameAfter4();
    MoveWins(s4, 8, GameState(DiagonalBoard(), NoPlayer, Won(X)));
    assert Run(s4, [8]) == Step(s4, 8).0;
  }

  /** X takes the diagonal 0, 4, 8 on the fifth move: X 0, O 1, X 4, O 2, X 8. */
  lemma DiagonalWin()
    ensures var s := Run(InitialState(), [0, 1, 4, 2, 8]);
      s.board == DiagonalBoard() && s.currentPlayer == NoPlayer && s.winningPlayer == Won(X)
  {
    DiagonalGameOpening();
    DiagonalGameMiddle();
    DiagonalGameLastMove();
    assert [0, 1, 4, 2, 8] == [0, 1] + [4, 2] + [8];
    RunAppend(InitialState(), [0, 1] + [4, 2], [8]);
    RunAppend(InitialState(), [0, 1], [4, 2]);
  }

  /** After the diagonal win, selecting the empty square 3 is refused as a
      finished game and selecting the taken square 0 is refused as taken:
      the taken-square test comes first. */
  lemma SelectionsAfterWin()
    ensures var s := Run(InitialState(), [0, 1, 4, 2, 8]);
      Step(s, 3) == (s, GameOver) && Step(s, 0) == (s, AlreadySelected)
  {
    DiagonalWin();
    var s := Run(InitialState(), [0, 1, 4, 2, 8]);
    FinishedGameIsRefused(s, 3);
    TakenSquareIsRefused(s, 0);
  }

  /** Selecting square 0 twice: the second selection is refused, X's mark
      stays and O is still to move. */
  lemma SameSquareTwice()
    ensures var s := Run(InitialState(), [0]);
      s.board[0].playerMark == Taken(X) && s.currentPlayer == Player(O) &&
      Step(s, 0) == (s, AlreadySelected)
  {
    var e, x, o := Empty, Taken(X), Taken(O);
    var s0 := GameState([Square(0, e), Square(1, e), Square(2, e), Square(3, e), Square(4, e), Square(5, e), Square(6, e), Square(7, e), Square(8, e)], Player(X), Undecided);
    var s1 := GameState([Square(0, x), Square(1, e), Square(2, e), Square(3, e), Square(4, e), Square(5, e), Square(6, e), Square(7, e), Square(8, e)], Player(O), Undecided);
    assert InitialState() == s0;
    MoveContinues(s0, 0, s1, 1);
    RunThrough([s0, s1], [0]);
    TakenSquareIsRefused(s1, 0);
  }

  /** X on 0, 2, 7, 8 and O on 1, 3, 5, 6 with X to move: the position after
      X 0, O 1, X 2, O 3, X 7, O 5, X 8, O 6. */
  function LastSquarePosition(): GameState
  {
    var e, x, o := Empty, Taken(X), Taken(O);
    GameState([Square(0, x), Square(1, o), Square(2, x), Square(3, o), Square(4, e), Square(5, o), Square(6, o), Square(7, x), Square(8, x)], Player(X), Undecided)
  }

  /** The last empty square 4 both fills the board and completes X's
      diagonal 0, 4, 8: the game is won, not drawn. */
  lemma WinOnLastSquare()
    ensures var t := Step(LastSquarePosition(), 4).0;
      IsDraw(t.board) && t.winningPlayer == Won(X) && t.currentPlayer == NoPlayer
  {
    var e, x, o := Empty, Taken(X), Taken(O);
    var s := LastSquarePosition();
    var t := GameState([Square(0, x), Square(1, o), Square(2, x), Square(3, o), Square(4, x), Square(5, o), Square(6, o), Square(7, x), Square(8, x)], NoPlayer, Won(X));
    MoveWins(s, 4, t);
    IsDrawIffAllMarked(t.board);
  }

  /** The right-column game after X 2, O 0. */
  function RightColumnGameAfter2(): GameState
  {
    var e, x, o := Empty, Taken(X), Taken(O);
    GameState([Square(0, o), Square(1, e), Square(2, x), Square(3, e), Square(4, e), Square(5, e), Square(6, e), Square(7, e), Square(8, e)], Player(X), Undecided)
  }

  /** The right-column game after X 2, O 0, X 5, O 4. */
  function RightColumnGameAfter4(): GameState
  {
    var e, x, o := Empty, Taken(X), Taken(O);
    GameState([Square(0, o), Square(1, e), Square(2, x), Square(3, e), Square(4, o), Square(5, x), Square(6, e), Square(7, e), Square(8, e)], Player(X), Undecided)
  }

  /** X 2, O 0 from a fresh board. */
  lemma RightColumnGameOpening()
    ensures Run(InitialState(), [2, 0]) == RightColumnGameAfter2()
  {
    var e, x, o := Empty, Taken(X), Taken(O);
    var s0 := GameState([Square(0, e), Square(1, e), Square(2, e), Square(3, e), Square(4, e), Square(5, e), Square(6, e), Square(7, e), Square(8, e)], Player(X), Undecided);
    var s1 := GameState([Square(0, e), Square(1, e), Square(2, x), Square(3, e), Square(4, e), Square(5, e), Square(6, e), Square(7, e), Square(8, e)], Player(O), Undecided);
    var s2 := GameState([Square(0, o), Square(1, e), Square(2, x), Square(3, e), Square(4, e), Square(5, e), Square(6, e), Square(7, e), Square(8, e)], Player(X), Undecided);
    assert InitialState() == s0;
    MoveContinues(s0, 2, s1, 0);
    MoveContinues(s1, 0, s2, 1);
    RunThrough([s0, s1, s2], [2, 0]);
    assert RightColumnGameAfter2() == s2;
  }

  /** X 5, O 4 after the opening. */
  lemma RightColumnGameMiddle()
    ensures Run(RightColumnGameAfter2(), [5, 4]) == RightColumnGameAfter4()
  {
    var e, x, o := Empty, Taken(X), Taken(O);
    var s0 := GameState([Square(0, o), Square(1, e), Square(2, x), Square(3, e), Square(4, e), Square(5, e), Square(6, e), Square(7, e), Square(8, e)], Player(X), Undecided);
    var s1 := GameState([Square(0, o), Square(1, e), Square(2, x), Square(3, e), Square(4, e), Square(5, x), Square(6, e), Square(7, e), Square(8, e)], Player(O), Undecided);
    var s2 := GameState([Square(0, o), Square(1, e), Square(2, x), Square(3, e), Square(4, o), Square(5, x), Square(6, e), Square(7, e), Square(8, e)], Player(X), Undecided);
    assert RightColumnGameAfter2() == s0;
    MoveContinues(s0, 5, s1, 1);
    MoveContinues(s1, 4, s2, 1);
    RunThrough([s0, s1, s2], [5, 4]);
    assert RightColumnGameAfter4() == s2;
  }

  /** The right-column game after X 2, O 0, X 5, O 4, X 8. */
  function RightColumnGameAfter5(): GameState
  {
    var e, x, o := Empty, Taken(X), Taken(O);
    GameState([Square(0, o), Square(1, e), Square(2, x), Square(3, e), Square(4, o), Square(5, x), Square(6, e), Square(7, e), Square(8, x)], Player(O), Undecided)
  }

  /** X 8 after the middle of the right-column game: X completes the right
      column, and the table does not see it. */
  lemma RightColumnGameFifthMove()
    ensures Run(InitialState(), [2, 0, 5, 4, 8]) == RightColumnGameAfter5()
  {
    var e, x, o := Empty, Taken(X), Taken(O);
    RightColumnGameOpening();
    RightColumnGameMiddle();
    var s4 := RightColumnGameAfter4();
    var s5 := RightColumnGameAfter5();
    assert s5 == GameState([Square(0, o), Square(1, e), Square(2, x), Square(3, e), Square(4, o), Square(5, x), Square(6, e), Square(7, e), Square(8, x)], Player(O), Undecided);
    MoveContinues(s4, 8, s5, 1);
    assert [2, 0, 5, 4, 8] == [2, 0] + [5, 4] + [8];
    RunAppend(InitialState(), [2, 0] + [5, 4], [8]);
    RunAppend(InitialState(), [2, 0], [5, 4]);
    assert Run(s4, [8]) == Step(s4, 8).0;
  }

  /** X completes the right column 2, 5, 8 on the fifth move (X 2, O 0, X 5,
      O 4, X 8), a line of the standard game, yet the game goes on with O to
      move, because the table lacks that column. */
  lemma RightColumnGameGoesOn()
    ensures var s := Run(InitialState(), [2, 0, 5, 4, 8]);
      IsStandardWin(s.board, X) && s.winningPlayer == Undecided && s.currentPlayer == Player(O)
  {
    RightColumnGameFifthMove();
    var s5 := RightColumnGameAfter5();
    RightColumnIsStandardWin(s5.board, X);
  }

  /** The right-column game after X 2, O 0, X 5, O 4, X 8, O 6, X 3. */
  function RightColumnGameAfter7(): GameState
  {
    var e, x, o := Empty, Taken(X), Taken(O);
    GameState([Square(0, o), Square(1, e), Square(2, x), Square(3, x), Square(4, o), Square(5, x), Square(6, o), Square(7, e), Square(8, x)], Player(O), Undecided)
  }

  /** The right-column game after X 2, O 0, X 5, O 4, X 8, O 6, X 3, O 1. */
  function RightColumnGameAfter8(): GameState
  {
    var e, x, o := Empty, Taken(X), Taken(O);
    GameState([Square(0, o), Square(1, o), Square(2, x), Square(3, x), Square(4, o), Square(5, x), Square(6, o), Square(7, e), Square(8, x)], Player(X), Undecided)
  }

  /** The right-column game after all nine moves: a full board, drawn. */
  function RightColumnGameFinal(): GameState
  {
    var e, x, o := Empty, Taken(X), Taken(O);
    GameState([Square(0, o), Square(1, o), Square(2, x), Square(3, x), Square(4, o), Square(5, x), Square(6, o), Square(7, x), Square(8, x)], NoPlayer, Draw)
  }

  /** O 6, X 3 after X has the right column: still no line of the table. */
  lemma RightColumnGameLate()
    ensures Run(RightColumnGameAfter5(), [6, 3]) == RightColumnGameAfter7()
  {
    var e, x, o := Empty, Taken(X), Taken(O);
    var s0 := GameState([Square(0, o), Square(1, e), Square(2, x), Square(3, e), Square(4, o), Square(5, x), Square(6, e), Square(7, e), Square(8, x)], Player(O), Undecided);
    var s1 := GameState([Square(0, o), Square(1, e), Square(2, x), Square(3, e), Square(4, o), Square(5, x), Square(6, o), Square(7, e), Square(8, x)], Player(X), Undecided);
    var s2 := GameState([Square(0, o), Square(1, e), Square(2, x), Square(3, x), Square(4, o), Square(5, x), Square(6, o), Square(7, e), Square(8, x)], Player(O), Undecided);
    assert RightColumnGameAfter5() == s0;
    MoveContinues(s0, 6, s1, 1);
    MoveContinues(s1, 3, s2, 1);
    RunThrough([s0, s1, s2], [6, 3]);
    assert RightColumnGameAfter7() == s2;
  }

  /** O 1: one empty square is left and the game goes on. */
  lemma RightColumnGameEighthMove()
    ensures Run(RightColumnGameAfter7(), [1]) == RightColumnGameAfter8()
  {
    var e, x, o := Empty, Taken(X), Taken(O);
    var s0 := GameState([Square(0, o), Square(1, e), Square(2, x), Square(3, x), Square(4, o), Square(5, x), Square(6, o), Square(7, e), Square(8, x)], Player(O), Undecided);
    var s1 := GameState([Square(0, o), Square(1, o), Square(2, x), Square(3, x), Square(4, o), Square(5, x), Square(6, o), Square(7, e), Square(8, x)], Player(X), Undecided);
    assert RightColumnGameAfter7() == s0;
    MoveContinues(s0, 1, s1, 7);
    RunThrough([s0, s1], [1]);
    assert RightColumnGameAfter8() == s1;
  }

  /** X 7 fills the board without a line of the table: a draw. */
  lemma RightColumnGameLastMove()
    ensures Run(RightColumnGameAfter8(), [7]) == RightColumnGameFinal()
  {
    var e, x, o := Empty, Taken(X), Taken(O);
    var s0 := GameState([Square(0, o), Square(1, o), Square(2, x), Square(3, x), Square(4, o), Square(5, x), Square(6, o), Square(7, e), Square(8, x)], Player(X), Undecided);
    var s1 := GameState([Square(0, o), Square(1, o), Square(2, x), Square(3, x), Square(4, o), Square(5, x), Square(6, o), Square(7, x), Square(8, x)], NoPlayer, Draw);
    assert RightColumnGameAfter8() == s0;
    MoveDraws(s0, 7, s1);
    RunThrough([s0, s1], [7]);
    assert RightColumnGameFinal() == s1;
  }

  /** The first seven moves of the right-column game lead to the position
      after O 6, X 3. */
  lemma RightColumnGameReachesSeventhMove()
    ensures Run(InitialState(), [2, 0, 5, 4, 8, 6, 3]) == RightColumnGameAfter7()
  {
    RightColumnGameFifthMove();
    RightColumnGameLate();
    assert [2, 0, 5, 4, 8, 6, 3] == [2, 0, 5, 4, 8] + [6, 3];
    RunAppend(InitialState(), [2, 0, 5, 4, 8], [6, 3]);
  }

  /** The nine moves of the right-column game lead to its final position. */
  lemma RightColumnGameReachesEnd()
    ensures Run(InitialState(), [2, 0, 5, 4, 8, 6, 3, 1, 7]) == RightColumnGameFinal()
  {
    RightColumnGameReachesSeventhMove();
    RightColumnGameEighthMove();
    RightColumnGameLastMove();
    assert [2, 0, 5, 4, 8, 6, 3, 1, 7] == [2, 0, 5, 4, 8, 6, 3] + [1] + [7];
    RunAppend(InitialState(), [2, 0, 5, 4, 8, 6, 3] + [1], [7]);
    RunAppend(InitialState(), [2, 0, 5, 4, 8, 6, 3], [1]);
  }

  /** The right-column game played to the end (X 2, O 0, X 5, O 4, X 8, O 6,
      X 3, O 1, X 7) is a draw: a full board and no line of the table for
      either player, although X holds the right column, a line of the
      standard game. */
  lemma RightColumnGameIsDrawn()
    ensures var s := Run(InitialState(), [2, 0, 5, 4, 8, 6, 3, 1, 7]);
      s.winningPlayer == Draw && s.currentPlayer == NoPlayer && IsDraw(s.board) &&
      IsStandardWin(s.board, X) && !IsWin(s.board, X) && !IsWin(s.board, O)
  {
    RightColumnGameReachesEnd();
    InitialStateSatisfiesInvariant();
    RunPreservesInvariant(InitialState(), [2, 0, 5, 4, 8, 6, 3, 1, 7]);
    var s := RightColumnGameFinal();
    RightColumnIsStandardWin(s.board, X);
  }
}
