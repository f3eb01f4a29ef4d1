/** The board-level helpers of the React tic-tac-toe game: the squares, the
    table of winning index triples, the win scan, the draw test and the
    fresh board. */
module Rules {

  /** A player's mark, the strings 'X' and 'O' of the game. */
  datatype Mark = X | O

  /** What a square holds: nothing yet (the empty string) or a mark. */
  datatype Occupant = Empty | Taken(mark: Mark)

  /** One square: its fixed position on the board and what it holds. */
  datatype Square = Square(index: int, playerMark: Occupant)

  /** A position on the 3x3 board, row-major. */
  type CellIndex = i: int | 0 <= i < 9

  /** The combinations of indexes the game accepts as a win, exactly as the
      game lists them: three rows, the left and the middle column and the two
      diagonals. The right column [2, 5, 8] is not in the table. */
  const WinningIndexes: seq<seq<CellIndex>> :=
    [[0, 1, 2], [3, 4, 5], [6, 7, 8], [0, 3, 6], [1, 4, 7], [0, 4, 8], [2, 4, 6]]

  /** The eight lines of standard tic-tac-toe, for comparison with the table. */
  const StandardLines: seq<seq<CellIndex>> :=
    [[0, 1, 2], [3, 4, 5], [6, 7, 8], [0, 3, 6], [1, 4, 7], [2, 5, 8], [0, 4, 8], [2, 4, 6]]

  /** Every square of `line` holds mark `m`: the flag the inner scan keeps,
      taken over the line from its first index to its last. */
  predicate HoldsLine(squares: seq<Square>, line: seq<CellIndex>, m: Mark)
    requires 9 <= |squares|
    decreases |line|
  {
    |line| == 0 ||
    (HoldsLine(squares, line[..|line| - 1], m) && squares[line[|line| - 1]].playerMark == Taken(m))
  }

  /** Some line of `lines` is held by `m`: the flag the outer scan keeps. */
  predicate AnyLineHeld(squares: seq<Square>, lines: seq<seq<CellIndex>>, m: Mark)
    requires 9 <= |squares|
    decreases |lines|
  {
    |lines| > 0 &&
    (AnyLineHeld(squares, lines[..|lines| - 1], m) || HoldsLine(squares, lines[|lines| - 1], m))
  }

  /** Mark `m` holds one of the combinations of the winning table. */
  predicate IsWin(squares: seq<Square>, m: Mark)
    requires 9 <= |squares|
  {
    AnyLineHeld(squares, WinningIndexes, m)
  }

  /** Mark `m` holds one of the eight standard lines. */
  predicate IsStandardWin(squares: seq<Square>, m: Mark)
    requires 9 <= |squares|
  {
    AnyLineHeld(squares, StandardLines, m)
  }

  /** A line is held exactly when each of its squares holds the mark. */
  lemma {:induction false} HoldsLineIff(squares: seq<Square>, line: seq<CellIndex>, m: Mark)
    requires 9 <= |squares|
    ensures HoldsLine(squares, line, m) <==> forall k :: 0 <= k < |line| ==> squares[line[k]].playerMark == Taken(m)
    decreases |line|
  {
    if |line| > 0 {
      var init := line[..|line| - 1];
      HoldsLineIff(squares, init, m);
      assert forall k :: 0 <= k < |init| ==> init[k] == line[k];
    }
  }

  /** Some line of `lines` is held exactly when one of them, by position, is. */
  lemma {:induction false} AnyLineHeldIff(squares: seq<Square>, lines: seq<seq<CellIndex>>, m: Mark)
    requires 9 <= |squares|
    ensures AnyLineHeld(squares, lines, m) <==> exists j :: 0 <= j < |lines| && HoldsLine(squares, lines[j], m)
    decreases |lines|
  {
    if |lines| > 0 {
      var init := lines[..|lines| - 1];
      AnyLineHeldIff(squares, init, m);
      if exists j :: 0 <= j < |lines| && HoldsLine(squares, lines[j], m) {
        var j :| 0 <= j < |lines| && HoldsLine(squares, lines[j], m);
        if j < |init| {
          assert init[j] == lines[j];
        }
      }
      if AnyLineHeld(squares, init, m) {
        var j :| 0 <= j < |init| && HoldsLine(squares, init[j], m);
        assert lines[j] == init[j];
      }
    }
  }

  /** Squares a, b and c all hold mark m. */
  predicate Holds3(squares: seq<Square>, a: CellIndex, b: CellIndex, c: CellIndex, m: Mark)
    requires 9 <= |squares|
  {
    squares[a].playerMark == Taken(m) && squares[b].playerMark == Taken(m) && squares[c].playerMark == Taken(m)
  }

  /** The win scan: for every combination of the table, a flag starts true
      and is cleared at the first square that does not hold the mark; the
      result turns true when some combination keeps its flag. As in the
      game's scan, neither loop stops early. */
  method HasWinningPlayer(boardSquares: array<Square>, playerMark: Mark) returns (output: bool)
    requires 9 <= boardSquares.Length
    ensures output == IsWin(boardSquares[..], playerMark)
  {
    output := false;
    var t := 0;
    while t < |WinningIndexes|
      invariant 0 <= t <= |WinningIndexes|
      invariant output == AnyLineHeld(boardSquares[..], WinningIndexes[..t], playerMark)
    {
      var indexArr := WinningIndexes[t];
      var hasWinningIndexes := true;
      var k := 0;
      while k < |indexArr|
        invariant 0 <= k <= |indexArr|
        invariant hasWinningIndexes == HoldsLine(boardSquares[..], indexArr[..k], playerMark)
      {
        if hasWinningIndexes && boardSquares[indexArr[k]].playerMark != Taken(playerMark) {
          hasWinningIndexes := false;
        }
        assert indexArr[..k + 1][..k] == indexArr[..k];
        k := k + 1;
      }
      assert indexArr[..k] == indexArr;
      if hasWinningIndexes {
        output := true;
      }
      assert WinningIndexes[..t + 1][..t] == WinningIndexes[..t];
      t := t + 1;
    }
    assert WinningIndexes[..t] == WinningIndexes;
  }

  /** One of the seven listed triples, written out, is held by `m`. */
  predicate ListedLineHeld(squares: seq<Square>, m: Mark)
    requires 9 <= |squares|
  {
    Holds3(squares, 0, 1, 2, m) || Holds3(squares, 3, 4, 5, m) || Holds3(squares, 6, 7, 8, m) ||
    Holds3(squares, 0, 3, 6, m) || Holds3(squares, 1, 4, 7, m) ||
    Holds3(squares, 0, 4, 8, m) || Holds3(squares, 2, 4, 6, m)
  }

  /** The table, written out: a win is exactly one of the seven listed triples. */
  lemma IsWinUnfolded(squares: seq<Square>, m: Mark)
    requires 9 <= |squares|
    ensures IsWin(squares, m) <==> ListedLineHeld(squares, m)
  {
    AnyLineHeldIff(squares, WinningIndexes, m);
    forall j | 0 <= j < |WinningIndexes|
      ensures HoldsLine(squares, WinningIndexes[j], m) <==>
        Holds3(squares, WinningIndexes[j][0], WinningIndexes[j][1], WinningIndexes[j][2], m)
    {
      HoldsLineIff(squares, WinningIndexes[j], m);
      assert |WinningIndexes[j]| == 3;
    }
    if ListedLineHeld(squares, m) {
      if Holds3(squares, 0, 1, 2, m) { assert HoldsLine(squares, WinningIndexes[0], m); }
      else if Holds3(squares, 3, 4, 5, m) { assert HoldsLine(squares, WinningIndexes[1], m); }
      else if Holds3(squares, 6, 7, 8, m) { assert HoldsLine(squares, WinningIndexes[2], m); }
      else if Holds3(squares, 0, 3, 6, m) { assert HoldsLine(squares, WinningIndexes[3], m); }
      else if Holds3(squares, 1, 4, 7, m) { assert HoldsLine(squares, WinningIndexes[4], m); }
      else if Holds3(squares, 0, 4, 8, m) { assert HoldsLine(squares, WinningIndexes[5], m); }
      else { assert HoldsLine(squares, WinningIndexes[6], m); }
    }
  }

  /** Against the standard rules: the table accepts exactly the standard
      lines other than the right column [2, 5, 8]. */
  lemma IsWinIsStandardWinWithoutRightColumn(squares: seq<Square>, m: Mark)
    requires 9 <= |squares|
    ensures IsWin(squares, m) <==>
      exists j :: 0 <= j < |StandardLines| && StandardLines[j] != [2, 5, 8] && HoldsLine(squares, StandardLines[j], m)
  {
    AnyLineHeldIff(squares, WinningIndexes, m);
    assert WinningIndexes == StandardLines[..5] + StandardLines[6..];
    if IsWin(squares, m) {
      var j :| 0 <= j < |WinningIndexes| && HoldsLine(squares, WinningIndexes[j], m);
      var j' := if j < 5 then j else j + 1;
      assert StandardLines[j'] == WinningIndexes[j];
    }
    if exists j :: 0 <= j < |StandardLines| && StandardLines[j] != [2, 5, 8] && HoldsLine(squares, StandardLines[j], m) {
      var j :| 0 <= j < |StandardLines| && StandardLines[j] != [2, 5, 8] && HoldsLine(squares, StandardLines[j], m);
      assert j != 5;
      var j' := if j < 5 then j else j - 1;
      assert WinningIndexes[j'] == StandardLines[j];
    }
  }

  /** Holding the right column 2, 5, 8 is a win under the standard rules. */
  lemma RightColumnIsStandardWin(squares: seq<Square>, m: Mark)
    requires 9 <= |squares| && Holds3(squares, 2, 5, 8, m)
    ensures IsStandardWin(squares, m)
  {
    AnyLineHeldIff(squares, StandardLines, m);
    HoldsLineIff(squares, StandardLines[5], m);
    assert HoldsLine(squares, StandardLines[5], m);
  }

  /** A board where X holds the right column and nothing else of its own:
      every standard rule calls it a win for X, the table does not. */
  lemma RightColumnIsNotAWin()
    ensures var squares := [Square(0, Taken(O)), Square(1, Empty), Square(2, Taken(X)),
                            Square(3, Empty), Square(4, Taken(O)), Square(5, Taken(X)),
                            Square(6, Empty), Square(7, Empty), Square(8, Taken(X))];
      IsStandardWin(squares, X) && !IsWin(squares, X) && !IsWin(squares, O)
  {
    var squares := [Square(0, Taken(O)), Square(1, Empty), Square(2, Taken(X)),
                    Square(3, Empty), Square(4, Taken(O)), Square(5, Taken(X)),
                    Square(6, Empty), Square(7, Empty), Square(8, Taken(X))];
    RightColumnIsStandardWin(squares, X);
    IsWinUnfolded(squares, X);
    IsWinUnfolded(squares, O);
  }

  /** A mark placed by the other player on an empty square cannot give `m`
      a line it did not already hold. */
  lemma {:induction false} IsWinIgnoresOtherMark(squares: seq<Square>, i: CellIndex, m: Mark, other: Mark)
    requires 9 <= |squares| && other != m
    ensures IsWin(squares[i := squares[i].(playerMark := Taken(other))], m) ==> IsWin(squares, m)
  {
    var after := squares[i := squares[i].(playerMark := Taken(other))];
    AnyLineHeldIff(after, WinningIndexes, m);
    AnyLineHeldIff(squares, WinningIndexes, m);
    if IsWin(after, m) {
      var j :| 0 <= j < |WinningIndexes| && HoldsLine(after, WinningIndexes[j], m);
      HoldsLineIff(after, WinningIndexes[j], m);
      HoldsLineIff(squares, WinningIndexes[j], m);
      forall k | 0 <= k < |WinningIndexes[j]|
        ensures squares[WinningIndexes[j][k]].playerMark == Taken(m)
      {
        assert after[WinningIndexes[j][k]].playerMark == Taken(m);
      }
      assert HoldsLine(squares, WinningIndexes[j], m);
    }
  }

  /** Some square is still empty: the scan of the draw test, first square first. */
  predicate HasEmptySquare(squares: seq<Square>)
  {
    |squares| > 0 && (squares[0].playerMark == Empty || HasEmptySquare(squares[1..]))
  }

  /** The draw test: no square is empty any more. */
  predicate IsDraw(boardSquares: seq<Square>)
  {
    !HasEmptySquare(boardSquares)
  }

  /** The draw test holds exactly when every square holds a mark. */
  lemma {:induction false} IsDrawIffAllMarked(squares: seq<Square>)
    ensures IsDraw(squares) <==> forall i :: 0 <= i < |squares| ==> squares[i].playerMark != Empty
  {
    if squares != [] {
      IsDrawIffAllMarked(squares[1..]);
      assert forall i :: 0 < i < |squares| ==> squares[i] == squares[1..][i - 1];
    }
  }

  /** The number of squares holding `o`. */
  function Count(squares: seq<Square>, o: Occupant): (n: nat)
    ensures n <= |squares|
  {
    if squares == [] then 0 else (if squares[0].playerMark == o then 1 else 0) + Count(squares[1..], o)
  }

  /** Replacing one square changes each count by what left and what came in. */
  lemma {:induction false} CountUpdate(squares: seq<Square>, i: nat, sq: Square, o: Occupant)
    requires i < |squares|
    ensures Count(squares[i := sq], o) ==
      Count(squares, o) - (if squares[i].playerMark == o then 1 else 0) + (if sq.playerMark == o then 1 else 0)
  {
    if i > 0 {
      assert squares[i := sq][1..] == squares[1..][i - 1 := sq];
      CountUpdate(squares[1..], i - 1, sq, o);
    } else {
      assert squares[i := sq][1..] == squares[1..];
    }
  }

  /** Every square is empty, an X or an O. */
  lemma {:induction false} CountsPartition(squares: seq<Square>)
    ensures Count(squares, Empty) + Count(squares, Taken(X)) + Count(squares, Taken(O)) == |squares|
  {
    if squares != [] {
      CountsPartition(squares[1..]);
      match squares[0].playerMark
      case Empty =>
      case Taken(m) => assert m == X || m == O;
    }
  }

  /** The draw test holds exactly when no square is counted empty. */
  lemma {:induction false} IsDrawIffNoEmptySquare(squares: seq<Square>)
    ensures IsDraw(squares) <==> Count(squares, Empty) == 0
  {
    if squares != [] {
      IsDrawIffNoEmptySquare(squares[1..]);
    }
  }

  /** The fresh board: nine squares, square i at index i, all empty. */
  function InitialBoardState(): (squares: seq<Square>)
    ensures |squares| == 9
    ensures forall i :: 0 <= i < 9 ==> squares[i] == Square(i, Empty)
  {
    seq(9, i => Square(i, Empty))
  }

  /** The fresh board holds no mark, is not a draw and is no one's win. */
  lemma InitialBoardIsOpen(m: Mark)
    ensures Count(InitialBoardState(), Empty) == 9
    ensures Count(InitialBoardState(), Taken(X)) == 0 && Count(InitialBoardState(), Taken(O)) == 0
    ensures !IsDraw(InitialBoardState()) && !IsWin(InitialBoardState(), m)
  {
    var b := InitialBoardState();
    assert b == [Square(0, Empty), Square(1, Empty), Square(2, Empty), Square(3, Empty), Square(4, Empty),
                 Square(5, Empty), Square(6, Empty), Square(7, Empty), Square(8, Empty)];
    assert b[0].playerMark == Empty;
    IsWinUnfolded(b, m);
  }
}
