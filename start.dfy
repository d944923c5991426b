/** What the start position promises: sixteen pieces a side, one king, two
    each of advisors, elephants, horses, rooks and cannons, and five pawns;
    the kings on the middle file of their back ranks; and neither side in
    check when the game begins. */
module StartPosition {
  import opened Board
  import opened Moves
  import MoveLaws
  import LeapLaws
  import opened Rules

  // ---------------------------------------------------------------------------
  // Material

  /** One for a cell holding a piece of colour c whose kind is one of
      `kinds`, zero otherwise. */
  function Score(cell: Cell, c: Color, kinds: set<Kind>): nat {
    if cell.Some? && cell.value.color == c && cell.value.kind in kinds then 1 else 0
  }

  /** The number of cells of a row holding a piece of colour c whose kind is
      one of `kinds`. */
  function RowTally(row: seq<Cell>, c: Color, kinds: set<Kind>): nat {
    if row == [] then 0 else Score(row[0], c, kinds) + RowTally(row[1..], c, kinds)
  }

  /** The same count over whole rows, top to bottom. */
  function Tally(rows: seq<seq<Cell>>, c: Color, kinds: set<Kind>): nat {
    if rows == [] then 0 else RowTally(rows[0], c, kinds) + Tally(rows[1..], c, kinds)
  }

  const AllKinds: set<Kind> := {Rook, Horse, Elephant, Advisor, King, Cannon, Pawn}

  /** How many pieces of a kind each side starts with. */
  function StartCount(k: Kind): nat {
    match k
    case King => 1
    case Pawn => 5
    case _ => 2
  }

  lemma RowTallyStep(row: seq<Cell>, i: int, c: Color, kinds: set<Kind>)
    requires 0 <= i < |row|
    ensures RowTally(row[i..], c, kinds) == Score(row[i], c, kinds) + RowTally(row[i + 1..], c, kinds)
  {
    assert row[i..][1..] == row[i + 1..];
  }

  /** A row of nine cells counts its cells one by one. */
  lemma RowTallyNine(row: seq<Cell>, c: Color, kinds: set<Kind>)
    requires |row| == Cols
    ensures RowTally(row, c, kinds) ==
      Score(row[0], c, kinds) + Score(row[1], c, kinds) + Score(row[2], c, kinds)
      + Score(row[3], c, kinds) + Score(row[4], c, kinds) + Score(row[5], c, kinds)
      + Score(row[6], c, kinds) + Score(row[7], c, kinds) + Score(row[8], c, kinds)
  {
    assert row[0..] == row;
    RowTallyStep(row, 0, c, kinds);
    RowTallyStep(row, 1, c, kinds);
    RowTallyStep(row, 2, c, kinds);
    RowTallyStep(row, 3, c, kinds);
    RowTallyStep(row, 4, c, kinds);
    RowTallyStep(row, 5, c, kinds);
    RowTallyStep(row, 6, c, kinds);
    RowTallyStep(row, 7, c, kinds);
    RowTallyStep(row, 8, c, kinds);
  }

  lemma TallyStep(rows: seq<seq<Cell>>, i: int, c: Color, kinds: set<Kind>)
    requires 0 <= i < |rows|
    ensures Tally(rows[i..], c, kinds) == RowTally(rows[i], c, kinds) + Tally(rows[i + 1..], c, kinds)
  {
    assert rows[i..][1..] == rows[i + 1..];
  }

  /** A board counts its rows one by one. */
  lemma TallyTen(b: Board, c: Color, kinds: set<Kind>)
    ensures Tally(b, c, kinds) ==
      RowTally(b[0], c, kinds) + RowTally(b[1], c, kinds) + RowTally(b[2], c, kinds)
      + RowTally(b[3], c, kinds) + RowTally(b[4], c, kinds) + RowTally(b[5], c, kinds)
      + RowTally(b[6], c, kinds) + RowTally(b[7], c, kinds) + RowTally(b[8], c, kinds)
      + RowTally(b[9], c, kinds)
  {
    assert b[0..] == b;
    TallyStep(b, 0, c, kinds);
    TallyStep(b, 1, c, kinds);
    TallyStep(b, 2, c, kinds);
    TallyStep(b, 3, c, kinds);
    TallyStep(b, 4, c, kinds);
    TallyStep(b, 5, c, kinds);
    TallyStep(b, 6, c, kinds);
    TallyStep(b, 7, c, kinds);
    TallyStep(b, 8, c, kinds);
    TallyStep(b, 9, c, kinds);
  }

  /** How many pieces of `kinds` one side starts with. */
  function StartTally(kinds: set<Kind>): nat {
    (if Rook in kinds then 2 else 0) + (if Horse in kinds then 2 else 0)
    + (if Elephant in kinds then 2 else 0) + (if Advisor in kinds then 2 else 0)
    + (if King in kinds then 1 else 0) + (if Cannon in kinds then 2 else 0)
    + (if Pawn in kinds then 5 else 0)
  }

  lemma BackRankTally(d: Color, c: Color, kinds: set<Kind>)
    ensures RowTally(BackRank(d), c, kinds) ==
      if d != c then 0
      else ((if Rook in kinds then 2 else 0) + (if Horse in kinds then 2 else 0)
        + (if Elephant in kinds then 2 else 0) + (if Advisor in kinds then 2 else 0)
        + (if King in kinds then 1 else 0))
  {
    RowTallyNine(BackRank(d), c, kinds);
  }

  lemma CannonRowTally(d: Color, c: Color, kinds: set<Kind>)
    ensures RowTally(CannonRow(d), c, kinds) == if d == c && Cannon in kinds then 2 else 0
  {
    RowTallyNine(CannonRow(d), c, kinds);
  }

  lemma PawnRowTally(d: Color, c: Color, kinds: set<Kind>)
    ensures RowTally(PawnRow(d), c, kinds) == if d == c && Pawn in kinds then 5 else 0
  {
    RowTallyNine(PawnRow(d), c, kinds);
  }

  lemma EmptyRowTally(c: Color, kinds: set<Kind>)
    ensures RowTally(EmptyRow(), c, kinds) == 0
  {
    RowTallyNine(EmptyRow(), c, kinds);
  }

  /** Each side starts with the same material in every combination of kinds. */
  lemma InitialTally(c: Color, kinds: set<Kind>)
    ensures Tally(InitialBoard(), c, kinds) == StartTally(kinds)
  {
    TallyTen(InitialBoard(), c, kinds);
    EmptyRowTally(c, kinds);
    BackRankTally(Black, c, kinds);
    BackRankTally(Red, c, kinds);
    CannonRowTally(Black, c, kinds);
    CannonRowTally(Red, c, kinds);
    PawnRowTally(Black, c, kinds);
    PawnRowTally(Red, c, kinds);
  }

  /** Each side starts with sixteen pieces. */
  lemma InitialMaterial(c: Color)
    ensures Tally(InitialBoard(), c, AllKinds) == 16
  {
    InitialTally(c, AllKinds);
  }

  /** Each side starts with one king, five pawns and two of every other kind. */
  lemma InitialKindCount(c: Color, k: Kind)
    ensures Tally(InitialBoard(), c, {k}) == StartCount(k)
  {
    InitialTally(c, {k});
  }

  // ---------------------------------------------------------------------------
  // The kings

  /** The king's starting square: the middle file of its back rank. */
  function KingHome(c: Color): Pos {
    if c == Red then Pos(4, 9) else Pos(4, 0)
  }

  /** Each king stands on its home square and nowhere else, so the king scan
      finds it there. */
  lemma InitialKings(c: Color)
    ensures forall p: Pos :: At(InitialBoard(), p) == Some(Piece(King, c)) <==> p == KingHome(c)
    ensures KingPosition(InitialBoard(), c) == Some(KingHome(c))
  {
    var b := InitialBoard();
    forall p: Pos | At(b, p) == Some(Piece(King, c)) ensures p == KingHome(c) {
      assert InBounds(p.x, p.y);
    }
  }

  /** The middle file holds only kings and pawns, never a rook or a cannon. */
  lemma MiddleFile(y: int)
    requires 0 <= y < Rows
    ensures InitialBoard()[y][4].Some? ==> InitialBoard()[y][4].value.kind in {King, Pawn}
  {
  }

  // ---------------------------------------------------------------------------
  // Nobody starts in check

  /** The side of the river where the pieces of colour o start. */
  predicate StartHalf(o: Color, p: Pos) {
    if o == Red then p.y >= 5 else p.y <= 4
  }

  /** A rook or cannon off the middle file on its own half never reaches the
      other king's home square: that square is neither on its rank nor on its
      file. */
  lemma LineMissesKing(b: Board, c: Color, p: Pos, cannon: bool)
    requires InBounds(p.x, p.y) && StartHalf(Opponent(c), p) && p.x != 4
    requires At(b, p) == Some(Piece(if cannon then Cannon else Rook, Opponent(c)))
    ensures KingHome(c) !in PseudoMoves(b, p)
  {
    MoveLaws.LineMovesOnLines(b, p, Opponent(c), cannon);
  }

  /** A horse moves at most two rows, so from its own half it never reaches
      the other king's back rank. */
  lemma HorseMissesKing(b: Board, c: Color, p: Pos)
    requires StartHalf(Opponent(c), p) && At(b, p) == Some(Piece(Horse, Opponent(c)))
    ensures KingHome(c) !in PseudoMoves(b, p)
  {
    LeapLaws.HorseMoves(b, p, Opponent(c));
  }

  /** Elephants, advisors and kings stay on their own side of the river. */
  lemma HomeMissesKing(b: Board, c: Color, p: Pos, kind: Kind)
    requires kind == Elephant || kind == Advisor || kind == King
    requires At(b, p) == Some(Piece(kind, Opponent(c)))
    ensures KingHome(c) !in PseudoMoves(b, p)
  {
    if kind == Elephant {
      LeapLaws.ElephantMoves(b, p, Opponent(c));
    } else {
      LeapLaws.PalaceMoves(b, p, Opponent(c), kind);
    }
  }

  /** A pawn moves one row at most, so from its own half it never reaches the
      other king's back rank. */
  lemma PawnMissesKing(b: Board, c: Color, p: Pos)
    requires StartHalf(Opponent(c), p) && At(b, p) == Some(Piece(Pawn, Opponent(c)))
    ensures KingHome(c) !in PseudoMoves(b, p)
  {
    LeapLaws.PawnMovesShape(b, p, Opponent(c));
  }

  /** No piece of the other side reaches the king's starting square. */
  lemma NoOpeningAttack(c: Color, p: Pos)
    requires InBounds(p.x, p.y) && Holds(InitialBoard(), p, Opponent(c))
    ensures KingHome(c) !in PseudoMoves(InitialBoard(), p)
  {
    var b := InitialBoard();
    var pc := At(b, p).value;
    assert StartHalf(Opponent(c), p);
    match pc.kind
    case Rook =>
      MiddleFile(p.y);
      LineMissesKing(b, c, p, false);
    case Cannon =>
      MiddleFile(p.y);
      LineMissesKing(b, c, p, true);
    case Horse =>
      HorseMissesKing(b, c, p);
    case Pawn =>
      PawnMissesKing(b, c, p);
    case _ =>
      HomeMissesKing(b, c, p, pc.kind);
  }

  /** No enemy piece attacks a king on its starting square. */
  lemma InitialNotAttacked(c: Color)
    ensures !Attacked(InitialBoard(), KingHome(c), Opponent(c))
  {
    var b := InitialBoard();
    AttackedSpec(b, KingHome(c), Opponent(c));
    forall p: Pos | InBounds(p.x, p.y) && Holds(b, p, Opponent(c))
      ensures KingHome(c) !in PseudoMoves(b, p)
    {
      NoOpeningAttack(c, p);
    }
  }

  /** The two kings share the middle file, but pawns stand between them. */
  lemma InitialKingsScreened(c: Color)
    ensures !FacesKing(InitialBoard(), KingHome(c), c)
  {
    var b := InitialBoard();
    InitialKings(Opponent(c));
    assert At(b, Pos(4, 3)).Some?;
    assert !ColumnClear(b, 4, KingHome(c).y, KingHome(Opponent(c)).y);
  }

  /** Neither side is in check in the start position. */
  lemma InitialNotInCheck(c: Color)
    ensures !InCheck(InitialBoard(), c)
  {
    InitialKings(c);
    InitialNotAttacked(c);
    InitialKingsScreened(c);
  }
}
