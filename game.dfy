/** The game state the page keeps: the board, the side to move, the last move,
    the stack of snapshots that undo pops, and the side that starts the next
    game. Moving writes the board in place; undo and reset install a new board. */
module Game {
  import opened Board
  import opened Rules

  /** What a move pushes on the undo stack: a copy of the board and the turn
      and last move before the move. */
  datatype Snapshot = Snapshot(board: Board, turn: Color, lastMove: Option<Move>)

  /** The abstract value of the game. */
  datatype State = State(board: Board, turn: Color, lastMove: Option<Move>, history: seq<Snapshot>)

  // ---------------------------------------------------------------------------
  // The transitions, on values

  /** Moving the piece on `from` to `to`: the old position goes on the stack,
      the piece is relocated, the move is remembered and the turn passes. An
      empty source square changes nothing. */
  function Moved(s: State, from: Pos, to: Pos): State
    requires InBounds(from.x, from.y) && InBounds(to.x, to.y)
  {
    if At(s.board, from).None? then s
    else State(Apply(s.board, from, to), Opponent(s.turn), Some(Move(from, to)),
               s.history + [Snapshot(s.board, s.turn, s.lastMove)])
  }

  /** Undo: the top snapshot is popped and becomes the position; with an
      empty stack nothing changes. */
  function Undone(s: State): State {
    if s.history == [] then s
    else
      var prev := s.history[|s.history| - 1];
      State(prev.board, prev.turn, prev.lastMove, s.history[..|s.history| - 1])
  }

  /** A fresh game with `first` to move. */
  function Restarted(first: Color): State {
    State(InitialBoard(), first, None, [])
  }

  /** Undoing a move restores everything the move changed. */
  lemma UndoAfterMove(s: State, from: Pos, to: Pos)
    requires InBounds(from.x, from.y) && InBounds(to.x, to.y)
    requires At(s.board, from).Some?
    ensures Moved(s, from, to).history == s.history + [Snapshot(s.board, s.turn, s.lastMove)]
    ensures Undone(Moved(s, from, to)) == s
  {
    var h := s.history + [Snapshot(s.board, s.turn, s.lastMove)];
    assert h[..|h| - 1] == s.history;
  }

  /** A move of a piece passes the turn and moves nothing but that piece. */
  lemma MoveEffect(s: State, from: Pos, to: Pos)
    requires InBounds(from.x, from.y) && InBounds(to.x, to.y)
    requires At(s.board, from).Some? && from != to
    ensures Moved(s, from, to).turn != s.turn
    ensures At(Moved(s, from, to).board, to) == At(s.board, from)
    ensures At(Moved(s, from, to).board, from).None?
    ensures forall q: Pos :: q != from && q != to ==> At(Moved(s, from, to).board, q) == At(s.board, q)
  {
  }

  /** A move between two squares of the board. */
  type BoardMove = m: Move | InBounds(m.from.x, m.from.y) && InBounds(m.to.x, m.to.y)
    witness Move(Pos(0, 0), Pos(0, 0))

  /** Playing a sequence of moves; moves from empty squares are no-ops. */
  function Played(s: State, moves: seq<BoardMove>): State
  {
    if moves == [] then s
    else
      var m := moves[|moves| - 1];
      Moved(Played(s, moves[..|moves| - 1]), m.from, m.to)
  }

  /** Undoing n times. */
  function UndoneTimes(s: State, n: nat): State
    decreases n
  {
    if n == 0 then s else UndoneTimes(Undone(s), n - 1)
  }

  /** A move either changes nothing or pushes exactly one snapshot that
      undo pops to give back the state before it. */
  lemma MoveOrNothing(t: State, m: BoardMove)
    ensures var after := Moved(t, m.from, m.to);
      after == t || (|after.history| == |t.history| + 1 && Undone(after) == t)
  {
    if At(t.board, m.from).Some? {
      UndoAfterMove(t, m.from, m.to);
    }
  }

  /** Every effective move pushes exactly one snapshot, so undoing as many
      times as the stack grew gives back the starting state. */
  lemma {:induction false} UndoAll(s: State, moves: seq<BoardMove>)
    ensures |Played(s, moves).history| >= |s.history|
    ensures UndoneTimes(Played(s, moves), |Played(s, moves).history| - |s.history|) == s
    decreases |moves|
  {
    if moves != [] {
      var m := moves[|moves| - 1];
      var before := Played(s, moves[..|moves| - 1]);
      UndoAll(s, moves[..|moves| - 1]);
      MoveOrNothing(before, m);
      var after := Played(s, moves);
      assert after == Moved(before, m.from, m.to);
      if after != before {
        var n := |before.history| - |s.history|;
        assert UndoneTimes(after, n + 1) == UndoneTimes(Undone(after), n);
      }
    }
  }

  // ---------------------------------------------------------------------------
  // The page's globals

  class Game {
    var board: array2<Cell>
    var turn: Color
    var nextGameTurn: Color
    var lastMove: Option<Move>
    var history: seq<Snapshot>

    ghost predicate Valid()
      reads this
    {
      board.Length0 == Rows && board.Length1 == Cols
    }

    /** The board as a value. */
    function Contents(): Board
      reads this, board
      requires Valid()
    {
      BoardOf(board)
    }

    function Current(): State
      reads this, board
      requires Valid()
    {
      State(Contents(), turn, lastMove, history)
    }

    /** The page's start-up: Red to move on the start position, an empty
        stack, and Red to start the next game. */
    constructor ()
      ensures Valid() && fresh(board)
      ensures Current() == Restarted(Red) && nextGameTurn == Red
    {
      var start := NewBoard(InitialBoard());
      BoardOfCells(start, InitialBoard());
      board := start;
      turn := Red;
      nextGameTurn := Red;
      lastMove := None;
      history := [];
    }

    /** movePiece: with a piece on `from`, the current position is pushed,
        the piece is written to `to` and `from` cleared on the same board, and
        the turn passes; with none, nothing happens and false is returned. */
    method MovePiece(from: Pos, to: Pos) returns (moved: bool)
      requires Valid() && InBounds(from.x, from.y) && InBounds(to.x, to.y)
      modifies this, board
      ensures Valid() && board == old(board) && nextGameTurn == old(nextGameTurn)
      ensures moved == old(At(Contents(), from)).Some?
      ensures Current() == Moved(old(Current()), from, to)
    {
      var piece := board[from.y, from.x];
      if piece.None? {
        return false;
      }
      var copy := CopyBoard();
      history := history + [Snapshot(copy, turn, lastMove)];
      Relocate(board, from, to);
      lastMove := Some(Move(from, to));
      turn := if turn == Red then Black else Red;
      return true;
    }

    /** handleUndo: an empty stack leaves everything as it is; otherwise the
        top snapshot is popped and a copy of its board, its turn and its last
        move become current. */
    method HandleUndo()
      requires Valid()
      modifies this
      ensures Valid() && nextGameTurn == old(nextGameTurn)
      ensures old(history) == [] ==> board == old(board)
      ensures old(history) != [] ==> fresh(board)
      ensures Current() == Undone(old(Current()))
    {
      if history == [] {
        return;
      }
      var prev := history[|history| - 1];
      history := history[..|history| - 1];
      board := NewBoard(prev.board);
      BoardOfCells(board, prev.board);
      turn := prev.turn;
      lastMove := prev.lastMove;
    }

    /** resetGame: a new start position, the chosen first mover to move, an
        empty stack and no last move. */
    method ResetGame()
      requires Valid()
      modifies this
      ensures Valid() && fresh(board) && nextGameTurn == old(nextGameTurn)
      ensures Current() == Restarted(old(nextGameTurn))
    {
      board := NewBoard(InitialBoard());
      BoardOfCells(board, InitialBoard());
      turn := nextGameTurn;
      history := [];
      lastMove := None;
    }

    /** cloneBoard applied to the live board: its cells, read row by row. */
    method CopyBoard() returns (b: Board)
      requires Valid()
      ensures b == Contents()
    {
      var rows: seq<seq<Cell>> := [];
      for y := 0 to Rows
        invariant |rows| == y
        invariant forall k :: 0 <= k < y ==> rows[k] == Contents()[k]
      {
        var row: seq<Cell> := [];
        for x := 0 to Cols
          invariant row == Contents()[y][..x]
        {
          row := row + [board[y, x]];
        }
        rows := rows + [row];
      }
      return rows;
    }
  }

  /** The cells of a 10 x 9 array as a board value. */
  function BoardOf(a: array2<Cell>): Board
    reads a
    requires a.Length0 == Rows && a.Length1 == Cols
  {
    seq(Rows, y reads a requires 0 <= y < Rows && a.Length0 == Rows && a.Length1 == Cols =>
      seq(Cols, x reads a requires 0 <= x < Cols && 0 <= y < Rows && a.Length0 == Rows && a.Length1 == Cols => a[y, x]))
  }

  /** An array and a board value with the same cells stand for the same board. */
  lemma BoardOfCells(a: array2<Cell>, b: Board)
    requires a.Length0 == Rows && a.Length1 == Cols
    requires forall y, x :: 0 <= y < Rows && 0 <= x < Cols ==> a[y, x] == b[y][x]
    ensures BoardOf(a) == b
  {
    forall y | 0 <= y < Rows ensures BoardOf(a)[y] == b[y] {
    }
  }

  /** The cells of a board after a move, one by one. */
  lemma ApplyCell(b: Board, from: Pos, to: Pos, y: int, x: int)
    requires InBounds(from.x, from.y) && InBounds(to.x, to.y) && InBounds(x, y)
    ensures Apply(b, from, to)[y][x] ==
      if Pos(x, y) == from then None else if Pos(x, y) == to then b[from.y][from.x] else b[y][x]
  {
    assert At(Apply(b, from, to), Pos(x, y)) == Apply(b, from, to)[y][x];
  }

  /** The two writes of movePiece on the live board: the piece on `from` is
      written to `to`, then `from` is cleared. */
  method Relocate(a: array2<Cell>, from: Pos, to: Pos)
    requires a.Length0 == Rows && a.Length1 == Cols
    requires InBounds(from.x, from.y) && InBounds(to.x, to.y)
    modifies a
    ensures BoardOf(a) == Apply(old(BoardOf(a)), from, to)
  {
    ghost var was := BoardOf(a);
    var piece := a[from.y, from.x];
    a[to.y, to.x] := piece;
    a[from.y, from.x] := None;
    forall y, x | 0 <= y < Rows && 0 <= x < Cols ensures a[y, x] == Apply(was, from, to)[y][x] {
      ApplyCell(was, from, to, y, x);
    }
    BoardOfCells(a, Apply(was, from, to));
  }

  /** A new board array holding the cells of b. */
  method NewBoard(b: Board) returns (a: array2<Cell>)
    ensures fresh(a) && a.Length0 == Rows && a.Length1 == Cols
    ensures forall y, x :: 0 <= y < Rows && 0 <= x < Cols ==> a[y, x] == b[y][x]
  {
    a := new Cell[Rows, Cols]((y, x) requires 0 <= y < Rows && 0 <= x < Cols => b[y][x]);
  }
}
