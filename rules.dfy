/** The legality filter: check (by attack or by the flying-general face-off),
    legal moves by trying each pseudo-legal move on a copy of the board, all
    legal moves of one side, and checkmate. */
module Rules {
  import opened Board
  import opened Moves
  import MoveLaws
  import opened Seqs

  datatype Move = Move(from: Pos, to: Pos)

  // ---------------------------------------------------------------------------
  // Check

  /** The square p holds a piece of colour `attacker` that has k among its
      pseudo-legal destinations. */
  predicate Threatens(b: Board, p: Pos, k: Pos, attacker: Color) {
    Holds(b, p, attacker) && k in PseudoMoves(b, p)
  }

  /** The test the check scan applies to each square. */
  function Threat(b: Board, k: Pos, attacker: Color): Pos -> bool {
    p => Threatens(b, p, k, attacker)
  }

  /** Whether t holds of some square that a row-major scan starting at
      column x of row y visits. */
  predicate AnyFrom(t: Pos -> bool, y: int, x: int)
    requires 0 <= y <= Rows && 0 <= x <= Cols
    decreases Rows - y, Cols - x
  {
    if y == Rows then false
    else if x == Cols then AnyFrom(t, y + 1, 0)
    else t(Pos(x, y)) || AnyFrom(t, y, x + 1)
  }

  /** Some piece of colour `attacker`, on row y from column x on or on a later
      row, has square k among its pseudo-legal destinations. */
  predicate AttackedFrom(b: Board, k: Pos, attacker: Color, y: int, x: int)
    requires 0 <= y <= Rows && 0 <= x <= Cols
  {
    AnyFrom(Threat(b, k, attacker), y, x)
  }

  /** Some piece of colour `attacker` has square k among its pseudo-legal destinations. */
  predicate Attacked(b: Board, k: Pos, attacker: Color) {
    AttackedFrom(b, k, attacker, 0, 0)
  }

  /** The pieces that the scan from (y, x) visits. */
  predicate Visited(p: Pos, y: int, x: int) {
    InBounds(p.x, p.y) && (p.y > y || (p.y == y && p.x >= x))
  }

  /** The scan from (y, x) finds a square exactly when some visited square
      passes the test. */
  lemma {:induction false} AnyFromSpec(t: Pos -> bool, y: int, x: int)
    requires 0 <= y <= Rows && 0 <= x <= Cols
    ensures AnyFrom(t, y, x) <==> exists p: Pos :: Visited(p, y, x) && t(p)
    decreases Rows - y, Cols - x
  {
    if y == Rows {
    } else if x == Cols {
      AnyFromSpec(t, y + 1, 0);
      forall p: Pos | Visited(p, y, x) ensures Visited(p, y + 1, 0) { }
    } else {
      AnyFromSpec(t, y, x + 1);
      var here := Pos(x, y);
      if t(here) {
        assert Visited(here, y, x);
      } else {
        forall p: Pos | Visited(p, y, x) && p != here ensures Visited(p, y, x + 1) { }
      }
    }
  }

  /** The scan from column x of row y finds a square exactly when a square
      of row y from column x on passes the test, or the scan of the later
      rows finds one. */
  lemma {:induction false} AnyFromRow(t: Pos -> bool, y: int, x: int)
    requires 0 <= y < Rows && 0 <= x <= Cols
    ensures AnyFrom(t, y, x) == ((exists i :: x <= i < Cols && t(Pos(i, y))) || AnyFrom(t, y + 1, 0))
    decreases Cols - x
  {
    if x < Cols {
      AnyFromRow(t, y, x + 1);
      if t(Pos(x, y)) {
        assert x <= x < Cols;
      }
    }
  }

  /** A square is attacked exactly when some piece of the attacking colour has
      it among its pseudo-legal destinations. */
  lemma AttackedSpec(b: Board, k: Pos, attacker: Color)
    ensures Attacked(b, k, attacker) <==> exists p: Pos {:trigger PseudoMoves(b, p)} ::
      InBounds(p.x, p.y) && Holds(b, p, attacker) && k in PseudoMoves(b, p)
  {
    AnyFromSpec(Threat(b, k, attacker), 0, 0);
    if Attacked(b, k, attacker) {
      var p: Pos :| Visited(p, 0, 0) && Threat(b, k, attacker)(p);
      assert InBounds(p.x, p.y) && Holds(b, p, attacker) && k in PseudoMoves(b, p);
    } else {
      forall p: Pos | InBounds(p.x, p.y) ensures !(Holds(b, p, attacker) && k in PseudoMoves(b, p)) {
        assert Visited(p, 0, 0);
      }
    }
  }

  function Min(a: int, c: int): int { if a < c then a else c }
  function Max(a: int, c: int): int { if a < c then c else a }

  /** No piece on column x strictly between rows y1 and y2. */
  predicate ColumnClear(b: Board, x: int, y1: int, y2: int) {
    forall y :: Min(y1, y2) < y < Max(y1, y2) ==> At(b, Pos(x, y)).None?
  }

  /** The flying-general rule: the king on k and the other side's king stand
      on one column with no piece between them. */
  predicate FacesKing(b: Board, k: Pos, color: Color) {
    match KingPosition(b, Opponent(color))
    case None => false
    case Some(o) => o.x == k.x && ColumnClear(b, k.x, k.y, o.y)
  }

  /** The side `color` is in check: its king is on the board and is either
      attacked by an enemy piece or faces the enemy king. Without a king, a
      side is never in check. */
  predicate InCheck(b: Board, color: Color) {
    match KingPosition(b, color)
    case None => false
    case Some(k) => Attacked(b, k, Opponent(color)) || FacesKing(b, k, color)
  }

  /** The first half of the check test: every enemy piece's pseudo-moves
      are generated and searched for the king's square. */
  method IsAttacked(b: Board, k: Pos, opponent: Color) returns (r: bool)
    ensures r == Attacked(b, k, opponent)
  {
    for y := 0 to Rows
      invariant Attacked(b, k, opponent) == AttackedFrom(b, k, opponent, y, 0)
    {
      AnyFromRow(Threat(b, k, opponent), y, 0);
      r := RowAttacks(b, k, opponent, y);
      if r {
        return;
      }
    }
    return false;
  }

  /** The inner loop of the check test, over the columns of row y. */
  method RowAttacks(b: Board, k: Pos, opponent: Color, y: int) returns (r: bool)
    requires 0 <= y < Rows
    ensures r <==> exists x :: 0 <= x < Cols && Threatens(b, Pos(x, y), k, opponent)
  {
    for x := 0 to Cols
      invariant forall i :: 0 <= i < x ==> !Threatens(b, Pos(i, y), k, opponent)
    {
      r := SquareAttacks(b, k, opponent, Pos(x, y));
      if r {
        return;
      }
    }
    return false;
  }

  /** One square of the scan: an enemy piece there whose pseudo-moves
      reach the king's square. */
  method SquareAttacks(b: Board, k: Pos, opponent: Color, p: Pos) returns (r: bool)
    requires InBounds(p.x, p.y)
    ensures r == Threatens(b, p, k, opponent)
  {
    var piece := b[p.y][p.x];
    if piece.None? || PieceColor(piece) != Some(opponent) {
      return false;
    }
    var moves := GetPseudoMoves(b, p);
    return Pos(k.x, k.y) in moves;
  }

  /** The scan of the source: every enemy piece's pseudo-moves, then the
      column between the two kings. */
  method IsInCheck(b: Board, color: Color) returns (r: bool)
    ensures r == InCheck(b, color)
  {
    var king := GetKingPosition(b, color);
    if king.None? {
      return false;
    }
    var k := king.value;
    var opponent := if color == Red then Black else Red;
    var attacked := IsAttacked(b, k, opponent);
    if attacked {
      return true;
    }
    r := KingsFacing(b, k, color);
  }

  /** The second half of the check test: the enemy king on the same column
      as k, with every square between them empty. */
  method KingsFacing(b: Board, k: Pos, color: Color) returns (r: bool)
    requires InBounds(k.x, k.y)
    ensures r == FacesKing(b, k, color)
  {
    var otherKing := GetKingPosition(b, Opponent(color));
    if otherKing.Some? && otherKing.value.x == k.x {
      r := ScanColumn(b, k.x, k.y, otherKing.value.y);
      return;
    }
    return false;
  }

  /** The walk along column x strictly between rows y1 and y2, stopping at
      the first piece. */
  method ScanColumn(b: Board, x: int, y1: int, y2: int) returns (clear: bool)
    requires 0 <= x < Cols && 0 <= y1 < Rows && 0 <= y2 < Rows
    ensures clear == ColumnClear(b, x, y1, y2)
  {
    var minY := Min(y1, y2) + 1;
    var maxY := Max(y1, y2);
    var y := minY;
    while y < maxY
      invariant minY <= y
      invariant forall yy :: minY <= yy < y ==> At(b, Pos(x, yy)).None?
    {
      if b[y][x].Some? {
        assert At(b, Pos(x, y)).Some?;
        return false;
      }
      y := y + 1;
    }
    return true;
  }

  /** Two kings on one column with nothing between them put both sides in
      check, whatever else is on the board. */
  lemma FlyingGeneral(b: Board, red: Pos, black: Pos)
    requires KingPosition(b, Red) == Some(red) && KingPosition(b, Black) == Some(black)
    requires red.x == black.x && ColumnClear(b, red.x, red.y, black.y)
    ensures InCheck(b, Red) && InCheck(b, Black)
  {
    assert ColumnClear(b, black.x, black.y, red.y);
  }

  // ---------------------------------------------------------------------------
  // Legal moves

  /** Whether moving the piece on `from` to q leaves `color` out of check. */
  function Safe(b: Board, from: Pos, color: Color): Pos -> bool
    requires InBounds(from.x, from.y)
  {
    (q: Pos) => InBounds(q.x, q.y) && !InCheck(Apply(b, from, q), color)
  }

  /** The legal destinations of the piece on `from`: its pseudo-legal moves
      that do not leave its own side in check; none for an empty square. */
  function LegalMoves(b: Board, from: Pos): seq<Pos>
    requires InBounds(from.x, from.y)
  {
    match At(b, from)
    case None => []
    case Some(pc) => Filter(PseudoMoves(b, from), Safe(b, from, pc.color))
  }

  /** Each pseudo-legal move is tried on a fresh copy of the board: the piece
      written to the destination, the source cleared, and the move kept when
      its side is then not in check. The input board is never written. */
  method GetLegalMoves(b: Board, from: Pos) returns (legal: seq<Pos>)
    requires InBounds(from.x, from.y)
    ensures legal == LegalMoves(b, from)
  {
    var piece := b[from.y][from.x];
    if piece.None? {
      return [];
    }
    var color := piece.value.color;
    var pseudo := GetPseudoMoves(b, from);
    MoveLaws.PseudoMovesSound(b, from);
    legal := [];
    for i := 0 to |pseudo|
      invariant legal == Filter(pseudo[..i], Safe(b, from, color))
    {
      assert pseudo[..i + 1][..i] == pseudo[..i];
      var move := pseudo[i];
      var safe := TryMove(b, from, move, piece.value);
      if safe {
        legal := legal + [move];
      }
    }
    assert pseudo[..|pseudo|] == pseudo;
  }

  /** One trial of the legality filter: the move is played on a fresh copy
      of the board and kept when its side is then not in check. */
  method TryMove(b: Board, from: Pos, move: Pos, piece: Piece) returns (safe: bool)
    requires InBounds(from.x, from.y) && InBounds(move.x, move.y)
    requires At(b, from) == Some(piece)
    ensures safe == Safe(b, from, piece.color)(move)
  {
    var copy := CloneBoard(b);
    copy := copy[move.y := copy[move.y][move.x := Some(piece)]];
    copy := copy[from.y := copy[from.y][from.x := None]];
    assert copy == Apply(b, from, move);
    var check := IsInCheck(copy, piece.color);
    return !check;
  }

  /** The legal moves are the pseudo-legal moves, in the same order, with some
      left out; a pseudo-legal move is legal exactly when playing it on a copy
      of the board leaves the mover out of check. */
  lemma LegalMovesSpec(b: Board, from: Pos)
    requires InBounds(from.x, from.y)
    ensures Subsequence(LegalMoves(b, from), PseudoMoves(b, from))
    ensures At(b, from).None? ==> LegalMoves(b, from) == []
    ensures At(b, from).Some? ==> forall q :: q in PseudoMoves(b, from) ==>
      InBounds(q.x, q.y) && (q in LegalMoves(b, from) <==> !InCheck(Apply(b, from, q), At(b, from).value.color))
  {
    MoveLaws.PseudoMovesSound(b, from);
    match At(b, from)
    case None =>
    case Some(pc) =>
      FilterSubsequence(PseudoMoves(b, from), Safe(b, from, pc.color));
      forall q | q in PseudoMoves(b, from)
        ensures q in LegalMoves(b, from) <==> !InCheck(Apply(b, from, q), pc.color)
      {
        FilterMember(PseudoMoves(b, from), Safe(b, from, pc.color), q);
      }
  }

  // ---------------------------------------------------------------------------
  // All legal moves of one side

  /** The destinations as (from, to) pairs: a move is listed exactly when it
      starts on `from` and ends on one of the destinations. */
  function WithSource(from: Pos, tos: seq<Pos>): (r: seq<Move>)
    ensures |r| == |tos|
    ensures forall mv :: mv in r <==> mv.from == from && mv.to in tos
  {
    var r := seq(|tos|, i requires 0 <= i < |tos| => Move(from, tos[i]));
    assert forall t :: t in tos ==> Move(from, t) in r by {
      forall t | t in tos ensures Move(from, t) in r {
        var i :| 0 <= i < |tos| && tos[i] == t;
        assert r[i] == Move(from, t);
      }
    }
    r
  }

  /** For each square, the legal moves of the piece of colour c on it as
      (from, to) pairs; none for a square off the board, empty or held by the
      other side. */
  function PieceMoves(b: Board, color: Color): Pos -> seq<Move> {
    (p: Pos) => if InBounds(p.x, p.y) && Holds(b, p, color) then WithSource(p, LegalMoves(b, p)) else []
  }

  /** Every move listed for a square starts on that square. */
  ghost predicate FromSquare(movesOf: Pos -> seq<Move>) {
    forall p: Pos, m: Move {:trigger m in movesOf(p)} :: m in movesOf(p) ==> m.from == p
  }

  lemma PieceMovesSpec(b: Board, color: Color, p: Pos, mv: Move)
    ensures FromSquare(PieceMoves(b, color))
    ensures mv in PieceMoves(b, color)(p) <==>
      mv.from == p && InBounds(p.x, p.y) && Holds(b, p, color) && mv.to in LegalMoves(b, p)
    ensures PieceMoves(b, color)(p) == [] <==>
      !InBounds(p.x, p.y) || !Holds(b, p, color) || LegalMoves(b, p) == []
  {
    if mv.from == p && InBounds(p.x, p.y) && Holds(b, p, color) && mv.to in LegalMoves(b, p) {
      var i :| 0 <= i < |LegalMoves(b, p)| && LegalMoves(b, p)[i] == mv.to;
      assert PieceMoves(b, color)(p)[i] == mv;
    }
  }

  /** The moves listed for the squares scanned before column x of row y,
      in row-major order. */
  function MovesBefore(movesOf: Pos -> seq<Move>, y: nat, x: nat): seq<Move>
    requires (y < Rows && x <= Cols) || (y == Rows && x == 0)
    decreases y, x
  {
    if x > 0 then MovesBefore(movesOf, y, x - 1) + movesOf(Pos(x - 1, y))
    else if y > 0 then MovesBefore(movesOf, y - 1, Cols)
    else []
  }

  /** Every legal move of colour c, its pieces taken in row-major order. */
  function AllLegalMoves(b: Board, color: Color): seq<Move> {
    MovesBefore(PieceMoves(b, color), Rows, 0)
  }

  /** Appends one (from, to) pair per destination, in order. */
  method PushMoves(moves: seq<Move>, from: Pos, tos: seq<Pos>) returns (out: seq<Move>)
    ensures out == moves + WithSource(from, tos)
  {
    out := moves;
    for i := 0 to |tos|
      invariant out == moves + WithSource(from, tos[..i])
    {
      assert WithSource(from, tos[..i + 1]) == WithSource(from, tos[..i]) + [Move(from, tos[i])];
      out := out + [Move(from, tos[i])];
    }
    assert tos[..|tos|] == tos;
  }

  method GetAllLegalMoves(b: Board, color: Color) returns (moves: seq<Move>)
    ensures moves == AllLegalMoves(b, color)
  {
    ghost var movesOf := PieceMoves(b, color);
    moves := [];
    for y := 0 to Rows
      invariant moves == MovesBefore(movesOf, y, 0)
    {
      for x := 0 to Cols
        invariant moves == MovesBefore(movesOf, y, x)
      {
        moves := AddPieceMoves(b, color, moves, Pos(x, y));
      }
    }
  }

  /** The body of the scan for one square: when it holds a piece of colour
      c, one (from, to) pair per legal move of that piece is appended. */
  method AddPieceMoves(b: Board, color: Color, moves: seq<Move>, from: Pos) returns (out: seq<Move>)
    requires InBounds(from.x, from.y)
    ensures out == moves + PieceMoves(b, color)(from)
  {
    var piece := b[from.y][from.x];
    if piece.Some? && PieceColor(piece) == Some(color) {
      var legal := GetLegalMoves(b, from);
      out := PushMoves(moves, from, legal);
    } else {
      out := moves;
    }
  }

  lemma {:induction false} MovesBeforeMember(movesOf: Pos -> seq<Move>, y: nat, x: nat, mv: Move)
    requires (y < Rows && x <= Cols) || (y == Rows && x == 0)
    requires FromSquare(movesOf)
    ensures mv in MovesBefore(movesOf, y, x) <==>
      InBounds(mv.from.x, mv.from.y) && Before(mv.from, Pos(x, y)) && mv in movesOf(mv.from)
    decreases y, x
  {
    if x > 0 {
      MovesBeforeMember(movesOf, y, x - 1, mv);
      var here := Pos(x - 1, y);
      assert MovesBefore(movesOf, y, x) == MovesBefore(movesOf, y, x - 1) + movesOf(here);
      if mv in movesOf(here) {
        assert mv.from == here;
      }
    } else if y > 0 {
      MovesBeforeMember(movesOf, y - 1, Cols, mv);
    }
  }

  /** The whole board's list holds exactly the moves listed for some
      square, and is empty exactly when every square's list is. */
  lemma MovesOnBoard(movesOf: Pos -> seq<Move>)
    requires FromSquare(movesOf)
    ensures forall mv :: mv in MovesBefore(movesOf, Rows, 0) <==> InBounds(mv.from.x, mv.from.y) && mv in movesOf(mv.from)
    ensures MovesBefore(movesOf, Rows, 0) == [] <==> forall p: Pos :: InBounds(p.x, p.y) ==> movesOf(p) == []
  {
    forall mv
      ensures mv in MovesBefore(movesOf, Rows, 0) <==> InBounds(mv.from.x, mv.from.y) && mv in movesOf(mv.from)
    {
      MovesBeforeMember(movesOf, Rows, 0, mv);
    }
    if MovesBefore(movesOf, Rows, 0) != [] {
      var mv := MovesBefore(movesOf, Rows, 0)[0];
      assert mv in MovesBefore(movesOf, Rows, 0);
    }
    if exists p: Pos :: InBounds(p.x, p.y) && movesOf(p) != [] {
      var p: Pos :| InBounds(p.x, p.y) && movesOf(p) != [];
      assert movesOf(p)[0] in movesOf(p);
    }
  }

  /** A pair is among all legal moves of colour c exactly when its source
      holds a piece of colour c and its destination is a legal move of it;
      the list is empty exactly when no piece of colour c has a legal move. */
  lemma AllLegalMovesSpec(b: Board, color: Color)
    ensures forall mv :: mv in AllLegalMoves(b, color) <==>
      InBounds(mv.from.x, mv.from.y) && Holds(b, mv.from, color) && mv.to in LegalMoves(b, mv.from)
    ensures AllLegalMoves(b, color) == [] <==>
      forall p: Pos :: InBounds(p.x, p.y) && Holds(b, p, color) ==> LegalMoves(b, p) == []
  {
    var movesOf := PieceMoves(b, color);
    PieceMovesSpec(b, color, Pos(0, 0), Move(Pos(0, 0), Pos(0, 0)));
    MovesOnBoard(movesOf);
    forall mv
      ensures mv in AllLegalMoves(b, color) <==>
        InBounds(mv.from.x, mv.from.y) && Holds(b, mv.from, color) && mv.to in LegalMoves(b, mv.from)
    {
      PieceMovesSpec(b, color, mv.from, mv);
    }
    forall p: Pos
      ensures InBounds(p.x, p.y) ==> (movesOf(p) == [] <==> !Holds(b, p, color) || LegalMoves(b, p) == [])
    {
      PieceMovesSpec(b, color, p, Move(p, p));
    }
  }

  // ---------------------------------------------------------------------------
  // Checkmate

  /** In check, and no piece of that side has a legal move. */
  method IsCheckmate(b: Board, color: Color) returns (r: bool)
    ensures r <==> InCheck(b, color) && forall p: Pos :: InBounds(p.x, p.y) && Holds(b, p, color) ==> LegalMoves(b, p) == []
  {
    var check := IsInCheck(b, color);
    if !check {
      return false;
    }
    var all := GetAllLegalMoves(b, color);
    AllLegalMovesSpec(b, color);
    r := |all| == 0;
  }

  /** A checkmated side has no escape: every pseudo-legal move of every one of
      its pieces leaves it in check. */
  lemma CheckmateHasNoEscape(b: Board, color: Color, p: Pos, q: Pos)
    requires InCheck(b, color) && AllLegalMoves(b, color) == []
    requires InBounds(p.x, p.y) && Holds(b, p, color) && q in PseudoMoves(b, p)
    ensures InBounds(q.x, q.y) && InCheck(Apply(b, p, q), color)
  {
    AllLegalMovesSpec(b, color);
    LegalMovesSpec(b, p);
  }
}
