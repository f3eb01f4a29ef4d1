/** The Board component: its state fields and the handlers that change them.
    Each React state setter is a plain assignment to the field it sets. */
module BoardComponent {
  import opened Rules
  import opened Game

  class Board {
    var boardSquares: array<Square>
    var currentPlayer: Player
    var winningPlayer: Outcome

    /** The component's state as a value. */
    ghost function State(): GameState
      reads this, boardSquares
    {
      GameState(boardSquares[..], currentPlayer, winningPlayer)
    }

    ghost predicate Valid()
      reads this, boardSquares
    {
      boardSquares.Length == 9 && Invariant(State())
    }

    /** A fresh board: nine empty squares, X to move, no winner. */
    constructor ()
      ensures Valid() && fresh(boardSquares)
      ensures State() == InitialState()
    {
      var squares := InitialBoardState();
      boardSquares := new Square[9](i requires 0 <= i < 9 => squares[i]);
      currentPlayer := Player(X);
      winningPlayer := Undecided;
      new;
      assert boardSquares[..] == squares;
      InitialStateSatisfiesInvariant();
    }

    /** Replaces the board with a fresh one and starts over with X. */
    method ResetBoardState()
      modifies this
      ensures Valid() && fresh(boardSquares)
      ensures State() == InitialState()
    {
      var squares := InitialBoardState();
      boardSquares := new Square[9](i requires 0 <= i < 9 => squares[i]);
      currentPlayer := Player(X);
      winningPlayer := Undecided;
      assert boardSquares[..] == squares;
      InitialStateSatisfiesInvariant();
    }

    /** Ends the game with `m` as the winner. */
    method SetWinningState(m: Mark)
      modifies this`winningPlayer, this`currentPlayer
      ensures winningPlayer == Won(m) && currentPlayer == NoPlayer
    {
      winningPlayer := Won(m);
      currentPlayer := NoPlayer;
    }

    /** Ends the game as a draw. */
    method SetDrawState()
      modifies this`winningPlayer, this`currentPlayer
      ensures winningPlayer == Draw && currentPlayer == NoPlayer
    {
      winningPlayer := Draw;
      currentPlayer := NoPlayer;
    }

    /** Gives the turn to the other player. */
    method AlternateCurrentPlayer()
      modifies this`currentPlayer
      ensures currentPlayer == Alternate(old(currentPlayer))
    {
      if currentPlayer == Player(X) {
        currentPlayer := Player(O);
      } else {
        currentPlayer := Player(X);
      }
    }

    /** A click on square `index`. A taken square is refused first, then a
        finished game; otherwise the square gets the current player's mark in
        place and the game is decided as `Step` says. */
    method HandleMarkSquare(index: int) returns (result: MoveResult)
      requires 0 <= index < 9
      requires Valid()
      modifies this, boardSquares
      ensures Valid() && boardSquares == old(boardSquares)
      ensures (State(), result) == Step(old(State()), index)
    {
      ghost var before := State();
      StepPreservesInvariant(before, index);
      if boardSquares[index].playerMark != Empty {
        return AlreadySelected;
      }
      if winningPlayer != Undecided {
        return GameOver;
      }
      var mover := currentPlayer.mark;
      boardSquares[index] := boardSquares[index].(playerMark := Taken(mover));
      assert boardSquares[..] == before.board[index := before.board[index].(playerMark := Taken(mover))];
      var hasWinningPlayer := HasWinningPlayer(boardSquares, mover);
      if hasWinningPlayer {
        SetWinningState(mover);
        return Marked;
      }
      var isDraw := IsDraw(boardSquares[..]);
      if isDraw {
        SetDrawState();
        return Marked;
      }
      AlternateCurrentPlayer();
      result := Marked;
    }
  }
}
