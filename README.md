# Xiangqi rules engine, modelled and proved in Dafny

This project models the rules engine of a browser Xiangqi (Chinese chess) board, `app.js`. It covers:

- **The board.** A 10 × 9 grid of optional pieces. Row 0 is Black's back rank and row 9 is Red's; columns run 0 to 8. The start position, the copy with a move played, and the king search are modelled (module `Board`).
- **The pseudo-move generator.** This is where each kind of piece may go by geometry alone (module `Moves`):
  - rook slides that stop at the first piece;
  - the cannon's capture over exactly one screen;
  - the horse's blocked leg;
  - the elephant's blocked eye and its river limit;
  - the palace for king and advisor;
  - pawns that gain sideways steps once across the river.

  Module `MoveLaws` proves rook and cannon lines equal to a screen-counting reference definition. Module `LeapLaws` proves the jump gates of horse, elephant, advisor and king, and the pawn rules.
- **The legality filter** (module `Rules`):
  - check, by enemy attack or by the two kings facing each other on an open column (the "flying general");
  - the legal moves of a piece, found by trying every pseudo-legal move on a copy of the board;
  - all legal moves of one side, in row-major order;
  - checkmate.
- **The two text codecs the engine bridge uses** (module `Notation`). The Xiangqi FEN of a position has digit runs for empty squares, rows joined by `/`, then `w` or `b` and ` - - 0 1`. A UCI move such as `h2e2` is read into grid coordinates, with row = 10 − rank.
- **The start position's promises** (module `StartPosition`): sixteen pieces a side with the canonical count of each kind, each king alone on the middle file of its back rank, and neither side in check.
- **The game state the page keeps** (module `Game`). The class `Game` holds the board array, the side to move, the last move, the undo stack of snapshots and the side that starts the next game. Its methods are moving a piece, undo and reset.

The loop-based routines of the source are methods, each proved equal to a specification function:

- the generator's in-place appends to a move list;
- the nested scans of the check test, the king search and the all-moves collector;
- the FEN row encoder with its `empty` counter.

Lemmas state what those functions mean. Where one source loop holds another loop, or holds a long body, the inner part is its own method: `ScanRow`, `RowAttacks`, `SquareAttacks`, `ScanColumn`, `TryMove`, `AddLine`, `AddLeap`, `AddPawnMoves`, `PushIfOnBoard`, `AddPieceMoves`, `PushMoves`, `EncodeRow`, `Relocate`. Each is called exactly where the source runs that body. The game state is a class whose board is a two-dimensional array. `movePiece` writes that array in place, while undo and reset install a new array, as the source does.

## Model

| member | source | states |
|---|---|---|
| Board.InitialBoard | app.js:46-58 | the start position has the black king on row 0, column 4 and the red king on row 9, column 4 |
| Board.InitialBoardSymmetric | app.js:46-58 | the start position is mirror-symmetric: the piece on row y is the piece on row 9 − y, of the other colour |
| Board.LetterInjective | app.js:64-67 | two pieces with the same one-letter code are the same piece, so a board of pieces carries everything a board of codes does |
| Board.InBounds | app.js:69-71 | a square is on the board exactly when its column is 0–8 and its row 0–9 (the reference definition every bounds test of the generator uses) |
| Board.PieceColor | app.js:64-67 | an empty cell has no colour; a piece's colour is the one its one-letter code's case gives (upper case Red, lower case Black) |
| StartPosition.InitialTally | app.js:46-58 | for either colour and any set of kinds, the start position holds as many of those pieces as one king, five pawns and two of each other kind give |
| StartPosition.InitialMaterial | app.js:46-58 | each side starts with sixteen pieces |
| StartPosition.InitialKindCount | app.js:46-58 | each side starts with one king, five pawns and two each of rooks, horses, elephants, advisors and cannons |
| StartPosition.InitialKings | app.js:46-58 | each king stands on the middle file of its own back rank and nowhere else, so the king search finds it there |
| StartPosition.NoOpeningAttack | app.js:150-216 | in the start position no piece of the other side has a king's home square among its pseudo-moves |
| StartPosition.InitialNotAttacked | app.js:90-98 | in the start position neither king is attacked |
| StartPosition.InitialKingsScreened | app.js:100-110 | the kings share a file in the start position, but the face-off test fails because a pawn stands between them |
| StartPosition.InitialNotInCheck | app.js:85-112 | neither side is in check in the start position |
| Board.CloneBoard | app.js:60-62 | the row-by-row copy equals the board it copies |
| Board.Apply | app.js:121-123 | the copy with a move played holds the moved piece on the destination, an empty source square, and every other square unchanged |
| Board.KingPosition | app.js:75-83 | the position found holds that king and no earlier square in row-major order does; no position is found exactly when no square holds that king |
| Board.GetKingPosition | app.js:75-83 | the nested scan with early return finds exactly KingPosition |
| Board.ScanRow | app.js:77-79 | the scan of one row finds the first cell holding the king in that row |
| Moves.PushMove | app.js:220-223 | the target is appended when empty or held by the other side, and the list is unchanged when the mover's own piece stands there |
| Moves.AddLine | app.js:228-252 | the walk along one direction, with its `jumped` flag, appends exactly that direction's line moves |
| Moves.AddLineMoves | app.js:225-254 | the four directions' walks append exactly the rook's or cannon's line moves, in the order right, left, down, up |
| Moves.AddLeap | app.js:170-200 | one jump is appended exactly when its gate is open (horse leg, elephant eye and river, palace) and the push rule keeps it |
| Moves.AddLeaps | app.js:163-202 | the loop over a jump table appends exactly the admitted jumps, in table order |
| Moves.AddPawnMoves | app.js:203-216 | the pawn appends the forward step, then the two side steps only once across the river, each only when on the board and kept by the push rule |
| Moves.PushIfOnBoard | app.js:206-215 | an on-board target is pushed by the push rule; an off-board target adds nothing |
| Moves.GetPseudoMoves | app.js:150-218 | the generator returns exactly PseudoMoves, the per-kind dispatch of the reference definitions |
| MoveLaws.LineFromSound | app.js:225-254 | every square of a line walk is on the board and never holds a piece of the mover's colour |
| MoveLaws.LinesSound | app.js:225-254 | the same holds for the four directions together |
| MoveLaws.LeapsSound | app.js:163-202 | every jump destination is on the board and never holds a piece of the mover's colour |
| MoveLaws.PawnMovesSound | app.js:203-216 | every pawn destination is on the board and never holds a piece of the mover's colour |
| MoveLaws.PieceMovesSound | app.js:150-223 | for every kind, each pseudo-legal destination is on the board and free of the mover's pieces |
| MoveLaws.PseudoMovesSound | app.js:150-223 | an empty source square yields no moves; otherwise every destination is on the board and not the mover's own |
| MoveLaws.LinesInOrder | app.js:226-227 | the line moves are the right, left, down and up walks concatenated in that order |
| MoveLaws.RookLineIsScan | app.js:233-240 | the rook's walk equals the reference scan: squares with no piece in between, stopping at the first piece and taking it only if it is an enemy |
| MoveLaws.CannonTailIsScan | app.js:245-250 | past its screen, the cannon's walk skips empty squares and takes only the next piece, and only if it is an enemy, as the reference scan says |
| MoveLaws.CannonLineIsScan | app.js:241-250 | the cannon's walk equals the reference scan: quiet moves before the first piece, one capture beyond exactly one screen |
| MoveLaws.ScanBlocked | app.js:233-250 | beyond one piece for a rook, or two for a cannon, nothing further along the line is reached |
| MoveLaws.LineIsScan | app.js:228-252 | each direction's walk equals its reference scan, for rook and cannon alike |
| MoveLaws.LineMovesAreScans | app.js:225-254 | a rook's or cannon's pseudo-moves are its four reference scans concatenated |
| MoveLaws.LineMovesOnLines | app.js:225-254 | every rook or cannon destination lies on one of its four lines and satisfies the screen-counting rule |
| MoveLaws.LineMoveAt | app.js:225-254 | the k-th square along a direction is a destination exactly when it satisfies the screen-counting rule (both directions of the iff) |
| LeapLaws.LeapMoves | app.js:163-202 | a jump's target is a destination exactly when its gate is open and the push rule keeps it; every destination comes from such a jump |
| LeapLaws.HorseMoves | app.js:163-174 | a horse jump lands exactly when its leg square is on the board and empty and the landing square is on the board and not the mover's own; a blocked leg removes just that jump |
| LeapLaws.ElephantMoves | app.js:175-185 | elephants never cross the river (Red keeps y ≥ 5, Black y ≤ 4); a jump lands exactly when on board, home side, not own, with an empty eye |
| LeapLaws.PalaceMoves | app.js:186-202 | king and advisor destinations stay in the palace (x in 3..5; y in 7..9 for Red, 0..2 for Black); a step lands exactly when on board, in the palace and not own |
| LeapLaws.PawnMovesShape | app.js:203-216 | a pawn steps one square forward (Red −y, Black +y) and sideways only once across the river, never backward; each of the three steps is present exactly when allowed |
| Rules.AnyFromSpec | app.js:90-98 | the row-major scan from a square finds a match exactly when some square it visits passes the test |
| Rules.AnyFromRow | app.js:92-97 | the scan from a column of a row finds a match exactly when that row, from that column on, holds one or the later rows do |
| Rules.AttackedSpec | app.js:90-98 | a square is attacked exactly when some piece of the attacking colour has it among its pseudo-legal destinations |
| Rules.IsAttacked | app.js:90-98 | the nested scan over enemy pieces answers exactly Attacked |
| Rules.RowAttacks | app.js:92-97 | one row of the scan returns true exactly when some square of that row holds an enemy piece whose pseudo-moves reach the king square |
| Rules.SquareAttacks | app.js:93-96 | one square attacks the king square exactly when it holds an enemy piece whose pseudo-moves reach it |
| Rules.ScanColumn | app.js:103-108 | the column walk reports clear exactly when no piece stands strictly between the two rows |
| Rules.KingsFacing | app.js:101-110 | the face-off test is true exactly when the other king is on the same column with the squares between empty |
| Rules.InCheck | app.js:85-112 | reference definition of check: the side's king is on the board and is attacked or faces the enemy king; a side without a king is never in check |
| Rules.IsInCheck | app.js:85-112 | in check exactly when the king is present and either attacked by an enemy piece or facing the enemy king on an open column; false without a king |
| Rules.FlyingGeneral | app.js:100-110 | two kings on one open column put both sides in check |
| Rules.TryMove | app.js:121-124 | one trial keeps a move exactly when the side is not in check on the copy with the piece relocated and the source cleared |
| Rules.LegalMoves | app.js:114-127 | reference definition of the legal moves: the pseudo-moves filtered by the trial on a copy of the board; none for an empty square |
| Rules.GetLegalMoves | app.js:114-127 | the filter loop returns exactly the pseudo-moves whose trial leaves the side out of check, in order; none for an empty square |
| Rules.LegalMovesSpec | app.js:114-127 | the legal moves are a sub-sequence of the pseudo-moves in the same order, and a pseudo-move is legal exactly when the mover is not in check after it |
| Rules.WithSource | app.js:137-139 | one pair per destination, and a pair is listed exactly when it starts on the source square and ends on one of the destinations |
| Rules.PieceMovesSpec | app.js:133-139 | a pair is listed for a square exactly when it starts there, the square holds a piece of that side, and its destination is a legal move |
| Rules.PushMoves | app.js:137-139 | the inner loop appends one pair per legal destination, in order |
| Rules.AddPieceMoves | app.js:133-140 | one square of the scan appends that piece's pairs when it belongs to the side, nothing otherwise |
| Rules.GetAllLegalMoves | app.js:129-144 | the nested scan returns exactly AllLegalMoves, squares taken in row-major order |
| Rules.MovesOnBoard | app.js:129-144 | the collected list holds exactly the moves listed for some board square, and is empty exactly when every square's list is |
| Rules.AllLegalMovesSpec | app.js:129-144 | a pair is among all legal moves exactly when its source holds a piece of that side and its destination is a legal move of it; the list is empty exactly when no piece has a legal move |
| Rules.IsCheckmate | app.js:146-148 | checkmate exactly when in check and no piece of that side has a legal move |
| Rules.CheckmateHasNoEscape | app.js:146-148 | when checkmated, every pseudo-legal move of every piece of that side leaves it in check |
| Notation.EncodeRow | app.js:451-459 | the row loop with its `empty` counter produces exactly the row's FEN text |
| Notation.BoardToFen | app.js:449-462 | the encoder returns exactly Fen: the ten row texts joined by `/`, a space, `w` for Red or `b` otherwise, and ` - - 0 1` |
| Notation.RowFenRoundTrip | app.js:451-459 | expanding a row's FEN (digit n as n empty squares, letters as their pieces) gives back exactly its nine cells |
| Notation.RowFenShape | app.js:451-459 | a FEN row never has two digits side by side and holds no `/` or space |
| Notation.FenSpec | app.js:449-462 | the FEN is the joined rows plus the side field; splitting the board field at `/` gives back the ten rows, and each expands to the board's row |
| Notation.SplitJoin | app.js:461 | joining separator-free rows with `/` and splitting again returns the rows |
| Notation.ParseUciMove | app.js:464-483 | an accepted text gives two on-board squares, and its first character is the source file's letter |
| Notation.UciRoundTrip | app.js:464-483 | reading the UCI text of any on-board move gives back that move, whatever non-digit text follows |
| Notation.UciRejects | app.js:465-481 | the text is refused when empty, when the first or second file letter is outside a–i, or when the first rank is outside 1–10 |
| Notation.UciAccepts | app.js:471-482 | an accepted text maps y = 10 − rank and x = the file's index, the second file coming right after the first rank's digits |
| Game.Moved | app.js:258-266 | reference transition of a move: an empty source changes nothing; otherwise the old position is pushed, the piece relocated, the move remembered and the turn passed |
| Game.Undone | app.js:275-281 | reference transition of undo: an empty stack changes nothing; otherwise the top snapshot is popped and becomes the position |
| Game.Restarted | app.js:289-297 | reference transition of reset: the start position, the chosen side to move, an empty stack and no last move |
| Game.UndoAfterMove | app.js:258-287 | undoing a move restores board, turn, last move and undo stack exactly |
| Game.MoveEffect | app.js:258-266 | a move passes the turn, relocates the piece, clears its source and leaves every other square unchanged |
| Game.MoveOrNothing | app.js:258-266 | a move either changes nothing (empty source) or pushes exactly one snapshot that undo pops to the state before it |
| Game.UndoAll | app.js:258-287 | after any sequence of moves, undoing once per pushed snapshot gives back the starting state |
| Game.BoardOfCells | app.js:60-62 | an array and a board value with the same cells stand for the same board |
| Game.Game.constructor | app.js:657 | the start-up state is the start position installed at page load, with the globals' initial values declared at lines 31-38: Red to move, an empty undo stack, no last move, and Red to start the next game |
| Game.Game.MovePiece | app.js:258-273 | with a piece on the source, the position is pushed, the piece is relocated on the same array and the turn passes; with none, nothing changes and false is returned |
| Game.Game.HandleUndo | app.js:275-287 | an empty stack changes nothing; otherwise the top snapshot is popped and becomes the position on a new array |
| Game.Game.ResetGame | app.js:289-302 | a new start-position array, the chosen first mover to move, an empty stack and no last move |
| Game.Game.CopyBoard | app.js:261 | the snapshot copy equals the live board |
| Game.Relocate | app.js:262-263 | the two writes of a move turn the array's board into Apply of the old board |
| Game.NewBoard | app.js:278 | the new array has the dimensions of a board and holds the given cells |

## Left out

- DOM rendering, status and analysis text, the click handlers, the AI-move button (`handleAiMove`, a guard around `movePiece` for the UI), pixel coordinates and the win-rate bar. They are presentation with no effect on the rules.
- The start buttons that set `nextGameTurn` are left out because they are event handlers. The `Game` class keeps `nextGameTurn`, which its constructor sets and `ResetGame` reads.
- The UI-only fields `selected`, `legalMoves`, `aiSuggestion` and `engineScore` are left out, and nothing in the rules reads them. `movePiece`, `handleUndo` and `resetGame` clear the first three. Only `resetGame` clears `engineScore`; otherwise only the engine's replies set it.
- Loading the external engine, the UCI message exchange with it, and the service worker. These are asynchronous foreign code and network caching.
- `pieceValues` is never used by the source, and the source has no search or FEN decoder. `Expand` and `Split` exist only to state what a FEN says.
- The move lists that the generator's helpers append to in place are values here. Each helper returns the extended list, so the aliasing of one shared array is not modelled.
- The rules functions take the board as a value. `getLegalMoves` not writing its input board therefore holds by construction rather than by proof.
- The board stores pieces, not one-letter strings. `Letter` gives the code, and `Board.LetterInjective` shows that no two pieces share a code, so nothing the codes distinguish is lost. A cell holding any other string cannot be represented.
- The start position's legal-move count (44 moves for Red) is not proved. It would mean evaluating the legality filter on all sixteen pieces, each trial running the check test over the whole board, which is far beyond what the verifier can unfold at an acceptable cost. The material, the kings' squares and the absence of check are proved.
- Moves.GetPseudoMoves requires `from` on the board, as do Rules.GetLegalMoves and Rules.LegalMoves. The source reads `boardState[from.y][from.x]` unguarded, and every caller passes an on-board square. The specification function `PseudoMoves` itself is total (an off-board square reads as empty).
- Game.Game.MovePiece requires both squares on the board. The source's callers pass squares from a board click or from a parsed UCI move, and both are on the board.
- Notation.ParseUciMove reads ranks as exact integers. JavaScript's `parseInt` is exact up to 15 significant digits. A rank with more significant digits than that is far above 10, so both the source and the model refuse it. Leading zeros are not significant: a zero-padded rank such as the one in `a0000000000000000001b1` is read exactly as 1 by both, and the move is accepted.
- Notation.ParseUciMove omits the `files.indexOf(...) < 0` and `isNaN` tests. The pattern already guarantees a file letter and at least one digit, so neither test can fail.
- Notation.BoardToFen takes the side to move as a colour. The source takes a string and writes `w` only for `"red"`.
