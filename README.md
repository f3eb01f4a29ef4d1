# React tic-tac-toe: the Board component's rules, in Dafny

This project models the game logic of the `Board` component of a React
tic-tac-toe game (`src/App.jsx`). It covers:

- the nine-square board and its fresh state (`getInitialBoardState`);
- the win scan over the game's own table of index triples (`getHasWinningPlayer`);
- the draw test (`getIsDraw`);
- the component's three pieces of state and the handlers that change them
  (`resetBoardState`, `setWinningState`, `setDrawState`,
  `alternateCurrentPlayer` and the click handler `handleMarkSquare`).

The model has four modules:

- `Rules` (`rules.dfy`) covers marks, squares, the win table, the win scan,
  the draw test and the fresh board.
  - The win scan is a method with the source's two nested loops over an
    array of squares.
  - Every other operation in `Rules` is a function.
- `Game` (`game.dfy`) holds the state as a value.
  - `Step` is one click, written as a function. It is the specification of
    the click handler.
  - `Run` is a sequence of clicks.
  - `Invariant` describes every state reachable from a fresh board. Lemmas
    prove that it holds and state the handler's promises.
- `BoardComponent` (`board.dfy`) is a class `Board`.
  - Its fields are `boardSquares`, a 9-element array updated in place as
    the source does, with `currentPlayer` and `winningPlayer` beside it.
  - One method per handler changes exactly the fields whose setters the
    handler calls.
  - `HandleMarkSquare` is proved to move the state exactly as `Step` says
    and to keep `Invariant`.
- `Scenarios` (`scenarios.dfy`) holds concrete games played on the model.

How the source's strings map onto the model:

| source | model |
|---|---|
| mark `''` | `Empty` |
| marks `'X'`, `'O'` | `Taken(X)`, `Taken(O)` |
| `currentPlayer` `'X'` or `'O'` | `Player(m)` |
| `currentPlayer` `'None'` | `NoPlayer` |
| `winningPlayer` `'None'` | `Undecided` |
| `winningPlayer` `'X'` or `'O'` | `Won(m)` |
| `winningPlayer` `'Draw!'` | `Draw` |

The click handler's two early returns print a warning in the source. In the
model they return the reason `AlreadySelected` or `GameOver`, and a move
that is played returns `Marked`.

Four behaviours of the code are modelled as written:

- **The win table has seven triples.** They are the three rows, the left
  and middle columns and both diagonals. The right column `[2, 5, 8]` is
  missing.
  - Descriptions of the game speak of eight winning lines. The model
    follows the code.
  - `IsWinIsStandardWinWithoutRightColumn` and `RightColumnIsNotAWin` state
    the difference from the standard rules.
  - `RightColumnGameGoesOn` plays a game in which X completes the right
    column and the game goes on.
  - `RightColumnGameIsDrawn` plays that game on to a draw.
- **The handler checks for a taken square before it checks for a finished
  game.** Clicking a marked square after the game ended is reported as
  already selected (`SelectionsAfterWin`).
- **A win is tested before a draw.** So a last move that fills the board
  and completes a line is a win (`MoveOutcome`, `WinOnLastSquare`).
- **Both scan loops run to the end.** Neither stops at the first result.

## Model

| member | source | states |
|---|---|---|
| Rules.HasWinningPlayer | src/App.jsx:97-141 | The loop scan over the 9-square array returns true exactly when the mark holds every square of some triple of the seven-entry table. Each loop's invariant is the flag over the prefix scanned so far. |
| Rules.HoldsLineIff | src/App.jsx:118-132 | The inner flag, taken over a whole triple, is true exactly when every square of the triple holds the mark. |
| Rules.AnyLineHeldIff | src/App.jsx:111-138 | The outer result, taken over a list of triples, is true exactly when some triple of the list is fully held. |
| Rules.IsWinUnfolded | src/App.jsx:100-108 | A win is exactly one of the seven listed triples, written out: rows 012, 345, 678, columns 036, 147, diagonals 048, 246. |
| Rules.IsWinIsStandardWinWithoutRightColumn | src/App.jsx:100-108 | A win under the table is exactly a held standard line other than the right column [2, 5, 8]. |
| Rules.RightColumnIsStandardWin | src/App.jsx:100-108 | Every board on which a mark holds 2, 5 and 8 is a standard win for that mark. |
| Rules.RightColumnIsNotAWin | src/App.jsx:100-108 | A board where X holds 2, 5, 8 is a standard win for X but not a win for X or O under the table. |
| Rules.IsWinIgnoresOtherMark | src/App.jsx:122-131 | Putting the other player's mark on a square never creates a win for a mark that had none. |
| Rules.IsDrawIffAllMarked | src/App.jsx:143-149 | The draw test is true exactly when no square holds the empty mark. |
| Rules.IsDrawIffNoEmptySquare | src/App.jsx:143-149 | The draw test is true exactly when the count of empty squares is zero. |
| Rules.InitialBoardState | src/App.jsx:151-160 | The fresh board has nine squares; square i has index i and no mark. |
| Rules.InitialBoardIsOpen | src/App.jsx:151-160 | The fresh board holds nine empty squares and no X or O, is not a draw, and is no one's win. |
| Game.Alternate | src/App.jsx:188-194 | The turn rule: the result is always a player and never the one given. |
| Game.AlternateTwice | src/App.jsx:188-194 | Alternating twice gives either player the turn back. |
| Game.InitialState | src/App.jsx:162-165 | The initial state is the fresh board, X to move, no winner. |
| Game.Step | src/App.jsx:197-234 | A click reports `Marked` exactly when the square is empty and the game undecided. Otherwise the state is unchanged. The result keeps a nine-square board, with a player to move exactly while the game is undecided. |
| Game.Run | src/App.jsx:197-234 | A sequence of clicks keeps a nine-square board, with a player to move exactly while the game is undecided. |
| Game.RunAppend | src/App.jsx:197-234 | Two sequences of clicks in a row are the run of their concatenation. |
| Game.InitialStateSatisfiesInvariant | src/App.jsx:162-165 | The initial state satisfies `Invariant`: indexes in place, counts 0 and 0, X to move, no line held. |
| Game.StepPreservesInvariant | src/App.jsx:197-234 | Every click keeps `Invariant`. While undecided, X has as many marks as O or one more, X moves exactly when the counts are equal, and no one holds a line. A won game has a line for the winner, none for the loser, and the winner's mark count fits them having moved last. A draw has a full board and no line for either player. |
| Game.TakenSquareIsRefused | src/App.jsx:198-202 | Clicking a marked square changes nothing and reports `AlreadySelected`, whatever the game state. |
| Game.FinishedGameIsRefused | src/App.jsx:204-208 | Once the game is won or drawn, clicking an empty square changes nothing and reports `GameOver`. |
| Game.MoveWritesOneSquare | src/App.jsx:210-212 | A played move writes the mover's mark into the clicked square, keeps its index and changes no other square. |
| Game.MoveOutcome | src/App.jsx:214-233 | After a played move: a win for the mover ends the game as theirs even on a full board. Otherwise a full board ends it as a draw. Otherwise the other player is to move. |
| Game.RunPreservesInvariant | src/App.jsx:197-234 | Every sequence of clicks keeps `Invariant`. |
| Game.RunFromFreshBoard | src/App.jsx:162-165 | From a fresh board, any clicks leave X with as many marks as O or one more, and X to move exactly when the counts are equal. A drawn game has a full board and no line for either player. |
| Game.FinishedGameAbsorbsRun | src/App.jsx:204-208 | A won or drawn game is unchanged by any sequence of further clicks. |
| Game.RunKeepsMarkedSquare | src/App.jsx:198-202 | A marked square keeps its mark through any sequence of clicks. |
| Game.DrawHasFiveXAndFourO | src/App.jsx:223-230 | A drawn game reached from a fresh board has five X and four O. |
| BoardComponent.Board.constructor | src/App.jsx:162-165 | A new board is a fresh array of nine empty squares, X to move, no winner, and satisfies the invariant. |
| BoardComponent.Board.ResetBoardState | src/App.jsx:168-174 | Reset installs a fresh array of nine empty squares, X to move, no winner, and the invariant holds again. |
| BoardComponent.Board.SetWinningState | src/App.jsx:176-180 | The winner becomes the given mark and no one is to move; nothing else changes. |
| BoardComponent.Board.SetDrawState | src/App.jsx:182-186 | The game becomes a draw and no one is to move; nothing else changes. |
| BoardComponent.Board.AlternateCurrentPlayer | src/App.jsx:188-194 | The player to move becomes `Alternate` of the previous one; nothing else changes. |
| BoardComponent.Board.HandleMarkSquare | src/App.jsx:196-234 | A click updates the same array in place. The new state and the reported result are exactly `Step` of the old state, and the invariant is kept. |
| Scenarios.DiagonalGameOpening | src/App.jsx:197-234 | From a fresh board, X 0, O 1 gives the listed position with X to move. |
| Scenarios.DiagonalGameMiddle | src/App.jsx:197-234 | Then X 4, O 2 gives the listed position with X to move. |
| Scenarios.DiagonalGameLastMove | src/App.jsx:214-221 | In that position, X 8 completes 0, 4, 8: X wins and no one is to move. |
| Scenarios.DiagonalWin | src/App.jsx:214-221 | X 0, O 1, X 4, O 2, X 8 wins for X on the diagonal 0, 4, 8; no one is to move. |
| Scenarios.SelectionsAfterWin | src/App.jsx:198-208 | After that win, clicking empty square 3 is refused as game over, and clicking taken square 0 is refused as already selected. |
| Scenarios.SameSquareTwice | src/App.jsx:198-202 | Clicking square 0 twice leaves X's mark with O to move; the second click is refused. |
| Scenarios.WinOnLastSquare | src/App.jsx:214-230 | In the 8-mark position, X's click on the last empty square fills the board and completes 0, 4, 8: the game is won by X, not drawn. |
| Scenarios.RightColumnGameOpening | src/App.jsx:197-234 | From a fresh board, X 2, O 0 gives the listed position. |
| Scenarios.RightColumnGameMiddle | src/App.jsx:197-234 | Then X 5, O 4 gives the listed position. |
| Scenarios.RightColumnGameFifthMove | src/App.jsx:197-234 | X 2, O 0, X 5, O 4, X 8 from a fresh board give the listed position with O to move. |
| Scenarios.RightColumnGameGoesOn | src/App.jsx:100-108 | After X 2, O 0, X 5, O 4, X 8, X holds a standard line, yet the game is undecided with O to move. |
| Scenarios.RightColumnGameLate | src/App.jsx:197-234 | Then O 6, X 3 give the listed position: the game is still undecided, with O to move. |
| Scenarios.RightColumnGameEighthMove | src/App.jsx:197-234 | Then O 1 leaves one empty square, with X to move. |
| Scenarios.RightColumnGameLastMove | src/App.jsx:223-230 | Then X 7 fills the board without a line of the table, and the game is a draw. |
| Scenarios.RightColumnGameReachesSeventhMove | src/App.jsx:197-234 | The first seven moves of the right-column game from a fresh board give the listed position. |
| Scenarios.RightColumnGameReachesEnd | src/App.jsx:197-234 | All nine moves from a fresh board give the listed final position. |
| Scenarios.RightColumnGameIsDrawn | src/App.jsx:100-108 | X 2, O 0, X 5, O 4, X 8, O 6, X 3, O 1, X 7 ends in a draw. The board is full and neither player holds a line of the table, although X holds a standard line. |

## Left out

- Styles, colours, the `Square`, `Game` and `App` components and all JSX rendering: presentation only.
- The status text ("Next Player" and "Winner") is a rendering of `currentPlayer` and `winningPlayer`. Its query is those fields.
- `console.warn` messages are returned as the reasons `AlreadySelected` and `GameOver`, without the text.
- React's state scheduling is not modelled. A setter in the source takes effect at the next render, while the model assigns at once.
  - Within one click the handler reads `currentPlayer` and `winningPlayer` only before it sets them, so the outcome is the same.
  - The source calls `setBoardState` with the same, mutated array. Whether React re-renders for it is not modelled. The model writes the square into the array in place and keeps the same array.
- BoardComponent.Board.HandleMarkSquare: requires `0 <= index < 9`. The only caller passes a square's own index (src/App.jsx:89). For any other index the source throws a TypeError reading `boardSquares[index].playerMark` (src/App.jsx:199). The model excludes those indexes by the precondition.
- Scenarios.WinOnLastSquare: starts from the 8-mark position `LastSquarePosition`. The model does not prove that this position is reached by a game of eight clicks from a fresh board, because evaluating eight steps on concrete boards is too costly for the verifier.
