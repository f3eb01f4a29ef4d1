/** The Board component's state machine as values: the state it keeps, one
    move as a function of the state and the selected square, and the
    properties every run of moves from a fresh board keeps. */
module Game {
  import opened Rules

  /** The player to move: a mark, or the string 'None' once the game is over. */
  datatype Player = Player(mark: Mark) | NoPlayer

  /** The winning-player field: 'None' while the game runs, the winner's mark,
      or 'Draw!'. */
  datatype Outcome = Undecided | Won(mark: Mark) | Draw

  /** What a move did: it marked the square, or it was refused because the
      square was taken or because the game was over. */
  datatype MoveResult = Marked | AlreadySelected | GameOver

  /** The component's three pieces of state. */
  datatype GameState = GameState(board: seq<Square>, currentPlayer: Player, winningPlayer: Outcome)

  /** The turn rule: after X it is O's turn, after anything else X's. */
  function Alternate(p: Player): (r: Player)
    ensures r.Player? && r != p
  {
    if p == Player(X) then Player(O) else Player(X)
  }

  /** Alternating twice gives a player the turn back. */
  lemma AlternateTwice(m: Mark)
    ensures Alternate(Alternate(Player(m))) == Player(m)
  {
  }

  /** A board of nine squares, and a player to move exactly while the game runs. */
  predicate Consistent(s: GameState)
  {
    |s.board| == 9 && (s.winningPlayer == Undecided <==> s.currentPlayer.Player?)
  }

  /** The state of a fresh or reset board. */
  function InitialState(): (s: GameState)
    ensures Consistent(s)
    ensures s.board == InitialBoardState() && s.currentPlayer == Player(X) && s.winningPlayer == Undecided
  {
    GameState(InitialBoardState(), Player(X), Undecided)
  }

  /** One selection of square `index`: refuse a taken square, then refuse a
      finished game, otherwise mark the square for the player to move and
      decide in order: a win for that player, a draw, or the other player's turn. */
  function Step(s: GameState, index: CellIndex): (r: (GameState, MoveResult))
    requires Consistent(s)
    ensures Consistent(r.0)
    ensures r.1 == Marked <==> s.board[index].playerMark == Empty && s.winningPlayer == Undecided
    ensures r.1 != Marked ==> r.0 == s
  {
    if s.board[index].playerMark != Empty then (s, AlreadySelected)
    else if s.winningPlayer != Undecided then (s, GameOver)
    else
      var mover := s.currentPlayer.mark;
      var board := s.board[index := s.board[index].(playerMark := Taken(mover))];
      if IsWin(board, mover) then (GameState(board, NoPlayer, Won(mover)), Marked)
      else if IsDraw(board) then (GameState(board, NoPlayer, Draw), Marked)
      else (GameState(board, Alternate(s.currentPlayer), Undecided), Marked)
  }

  /** The state after selecting the squares of `moves` one after the other. */
  function Run(s: GameState, moves: seq<CellIndex>): (r: GameState)
    requires Consistent(s)
    ensures Consistent(r)
    decreases |moves|
  {
    if moves == [] then s else Run(Step(s, moves[0]).0, moves[1..])
  }

  /** What holds of every state reached from a fresh board: each square keeps
      its index; X has as many marks as O or one more; while the game runs it
      is X's turn exactly when the counts are equal and no one holds a line;
      a won game has a line for the winner, none for the loser, and the winner
      made the last move; a drawn game has a full board and no line for
      either player. */
  predicate Invariant(s: GameState)
  {
    Consistent(s) &&
    (forall i :: 0 <= i < 9 ==> s.board[i].index == i) &&
    var cx, co := Count(s.board, Taken(X)), Count(s.board, Taken(O));
    (cx == co || cx == co + 1) &&
    (s.winningPlayer == Undecided ==>
      (s.currentPlayer == Player(X) <==> cx == co) && !IsWin(s.board, X) && !IsWin(s.board, O)) &&
    (s.winningPlayer.Won? ==>
      var w := s.winningPlayer.mark;
      IsWin(s.board, w) && !IsWin(s.board, if w == X then O else X) && (w == X <==> cx == co + 1)) &&
    (s.winningPlayer == Draw ==> IsDraw(s.board) && !IsWin(s.board, X) && !IsWin(s.board, O))
  }

  /** A fresh board satisfies the invariant. */
  lemma InitialStateSatisfiesInvariant()
    ensures Invariant(InitialState())
  {
    InitialBoardIsOpen(X);
    InitialBoardIsOpen(O);
  }

  /** Every move keeps the invariant. */
  lemma StepPreservesInvariant(s: GameState, index: CellIndex)
    requires Invariant(s)
    ensures Invariant(Step(s, index).0)
  {
    if s.board[index].playerMark == Empty && s.winningPlayer == Undecided {
      var mover := s.currentPlayer.mark;
      var other := if mover == X then O else X;
      var sq := s.board[index].(playerMark := Taken(mover));
      var board := s.board[index := sq];
      CountUpdate(s.board, index, sq, Taken(X));
      CountUpdate(s.board, index, sq, Taken(O));
      IsWinIgnoresOtherMark(s.board, index, other, mover);
      assert !IsWin(board, other);
    }
  }

  /** Selecting a taken square changes nothing, whatever the state. */
  lemma TakenSquareIsRefused(s: GameState, index: CellIndex)
    requires Consistent(s) && s.board[index].playerMark != Empty
    ensures Step(s, index) == (s, AlreadySelected)
  {
  }

  /** Once the game is won or drawn, selecting an empty square changes nothing. */
  lemma FinishedGameIsRefused(s: GameState, index: CellIndex)
    requires Consistent(s) && s.winningPlayer != Undecided && s.board[index].playerMark == Empty
    ensures Step(s, index) == (s, GameOver)
  {
  }

  /** A move that is not refused writes the mover's mark into the selected
      square and changes no other square. */
  lemma MoveWritesOneSquare(s: GameState, index: CellIndex)
    requires Consistent(s) && s.board[index].playerMark == Empty && s.winningPlayer == Undecided
    ensures var (t, res) := Step(s, index);
      res == Marked &&
      t.board[index] == Square(s.board[index].index, Taken(s.currentPlayer.mark)) &&
      forall j :: 0 <= j < 9 && j != index ==> t.board[j] == s.board[j]
  {
  }

  /** After a marking move the outcome is decided in order: a win for the
      mover even when the board is also full, else a draw when the board is
      full, else the other player's turn. */
  lemma MoveOutcome(s: GameState, index: CellIndex)
    requires Consistent(s) && s.board[index].playerMark == Empty && s.winningPlayer == Undecided
    ensures var t := Step(s, index).0; var m := s.currentPlayer.mark;
      (IsWin(t.board, m) ==> t.winningPlayer == Won(m) && t.currentPlayer == NoPlayer) &&
      (!IsWin(t.board, m) && IsDraw(t.board) ==> t.winningPlayer == Draw && t.currentPlayer == NoPlayer) &&
      (!IsWin(t.board, m) && !IsDraw(t.board) ==>
        t.winningPlayer == Undecided && t.currentPlayer == Player(if m == X then O else X))
  {
  }

  /** Selecting the squares of `a` and then those of `b` is the run of `a + b`. */
  lemma {:induction false} RunAppend(s: GameState, a: seq<CellIndex>, b: seq<CellIndex>)
    requires Consistent(s)
    ensures Run(s, a + b) == Run(Run(s, a), b)
    decreases |a|
  {
    if a == [] {
      assert a + b == b;
    } else {
      assert (a + b)[0] == a[0];
      assert (a + b)[1..] == a[1..] + b;
      RunAppend(Step(s, a[0]).0, a[1..], b);
    }
  }

  /** Every run from a state satisfying the invariant keeps it. */
  lemma {:induction false} RunPreservesInvariant(s: GameState, moves: seq<CellIndex>)
    requires Invariant(s)
    ensures Invariant(Run(s, moves))
    decreases |moves|
  {
    if moves != [] {
      StepPreservesInvariant(s, moves[0]);
      RunPreservesInvariant(Step(s, moves[0]).0, moves[1..]);
    }
  }

  /** From a fresh board, any sequence of selections keeps the counts of X
      and O within one of each other and gives the turn to X exactly when
      they are equal; a drawn game has a full board and no line for either
      player. */
  lemma RunFromFreshBoard(moves: seq<CellIndex>)
    ensures var s := Run(InitialState(), moves);
      var cx, co := Count(s.board, Taken(X)), Count(s.board, Taken(O));
      (cx == co || cx == co + 1) &&
      (s.winningPlayer == Undecided ==> (s.currentPlayer == Player(X) <==> cx == co)) &&
      (s.winningPlayer == Draw ==> IsDraw(s.board) && !IsWin(s.board, X) && !IsWin(s.board, O))
  {
    InitialStateSatisfiesInvariant();
    RunPreservesInvariant(InitialState(), moves);
  }

  /** A finished game absorbs every further sequence of selections. */
  lemma {:induction false} FinishedGameAbsorbsRun(s: GameState, moves: seq<CellIndex>)
    requires Consistent(s) && s.winningPlayer != Undecided
    ensures Run(s, moves) == s
    decreases |moves|
  {
    if moves != [] {
      FinishedGameAbsorbsRun(Step(s, moves[0]).0, moves[1..]);
    }
  }

  /** A marked square keeps its mark through every sequence of selections. */
  lemma {:induction false} RunKeepsMarkedSquare(s: GameState, moves: seq<CellIndex>, j: CellIndex)
    requires Consistent(s) && s.board[j].playerMark != Empty
    ensures Run(s, moves).board[j] == s.board[j]
    decreases |moves|
  {
    if moves != [] {
      var t := Step(s, moves[0]).0;
      assert t.board[j] == s.board[j];
      RunKeepsMarkedSquare(t, moves[1..], j);
    }
  }

  /** A drawn game from a fresh board always ends with five X and four O. */
  lemma DrawHasFiveXAndFourO(s: GameState)
    requires Invariant(s) && s.winningPlayer == Draw
    ensures Count(s.board, Taken(X)) == 5 && Count(s.board, Taken(O)) == 4
  {
    CountsPartition(s.board);
    IsDrawIffNoEmptySquare(s.board);
  }
}
