/** What the pseudo-move generator promises: every destination is on the board
    and free of the mover's own pieces; rook and cannon lines are exactly the
    squares that the screen-counting rule allows; horse, elephant, advisor and
    king jumps are exactly the jumps whose gate is open; pawns never retreat. */
module MoveLaws {
  import opened Board
  import opened Moves

  // ---------------------------------------------------------------------------
  // Soundness: on the board, never onto a piece of the mover's colour

  lemma {:induction false} LineFromSound(b: Board, from: Pos, d: Dir, i: int, color: Color, cannon: bool, jumped: bool)
    ensures forall q :: q in LineFrom(b, from, d, i, color, cannon, jumped) ==> InBounds(q.x, q.y) && !Holds(b, q, color)
    decreases Ahead(from, d, i)
  {
    var q := Step(from, d, i);
    if InBounds(q.x, q.y) {
      LineFromSound(b, from, d, i + 1, color, cannon, true);
      LineFromSound(b, from, d, i + 1, color, cannon, jumped);
    }
  }

  lemma {:induction false} LinesSound(b: Board, from: Pos, color: Color, cannon: bool, ds: seq<Dir>)
    ensures forall q :: q in Lines(b, from, color, cannon, ds) ==> InBounds(q.x, q.y) && !Holds(b, q, color)
    decreases |ds|
  {
    if ds != [] {
      LinesSound(b, from, color, cannon, ds[..|ds| - 1]);
      LineFromSound(b, from, ds[|ds| - 1], 1, color, cannon, false);
    }
  }

  lemma {:induction false} LeapsSound(b: Board, from: Pos, color: Color, kind: Kind, steps: seq<Jump>)
    ensures forall q :: q in Leaps(b, from, color, kind, steps) ==> InBounds(q.x, q.y) && !Holds(b, q, color)
    decreases |steps|
  {
    if steps != [] {
      LeapsSound(b, from, color, kind, steps[..|steps| - 1]);
    }
  }

  lemma StepIfSound(b: Board, t: Pos, color: Color)
    ensures forall q :: q in StepIf(b, t, color) ==> q == t && InBounds(t.x, t.y) && !Holds(b, t, color)
  {
  }

  lemma PawnMovesSound(b: Board, from: Pos, color: Color)
    ensures forall q :: q in PawnMoves(b, from, color) ==> InBounds(q.x, q.y) && !Holds(b, q, color)
  {
    var ahead := StepIf(b, Pos(from.x, from.y + Forward(color)), color);
    var left := StepIf(b, Pos(from.x - 1, from.y), color);
    var right := StepIf(b, Pos(from.x + 1, from.y), color);
    StepIfSound(b, Pos(from.x, from.y + Forward(color)), color);
    StepIfSound(b, Pos(from.x - 1, from.y), color);
    StepIfSound(b, Pos(from.x + 1, from.y), color);
    forall q | q in PawnMoves(b, from, color) ensures q in ahead || q in left || q in right {
      if Crossed(color, from.y) {
        assert PawnMoves(b, from, color) == ahead + (left + right);
      } else {
        assert PawnMoves(b, from, color) == ahead;
      }
    }
  }

  /** The soundness of one piece's moves, by kind. */
  lemma PieceMovesSound(b: Board, from: Pos, pc: Piece)
    requires At(b, from) == Some(pc)
    ensures forall q :: q in PseudoMoves(b, from) ==> InBounds(q.x, q.y) && !Holds(b, q, pc.color)
  {
    match pc.kind
    case Rook =>
      assert PseudoMoves(b, from) == Lines(b, from, pc.color, false, LineDirs);
      LinesSound(b, from, pc.color, false, LineDirs);
    case Cannon =>
      assert PseudoMoves(b, from) == Lines(b, from, pc.color, true, LineDirs);
      LinesSound(b, from, pc.color, true, LineDirs);
    case Pawn =>
      assert PseudoMoves(b, from) == PawnMoves(b, from, pc.color);
      PawnMovesSound(b, from, pc.color);
    case Horse =>
      assert PseudoMoves(b, from) == Leaps(b, from, pc.color, Horse, HorseJumps);
      LeapsSound(b, from, pc.color, Horse, HorseJumps);
    case Elephant =>
      assert PseudoMoves(b, from) == Leaps(b, from, pc.color, Elephant, ElephantJumps);
      LeapsSound(b, from, pc.color, Elephant, ElephantJumps);
    case Advisor =>
      assert PseudoMoves(b, from) == Leaps(b, from, pc.color, Advisor, AdvisorJumps);
      LeapsSound(b, from, pc.color, Advisor, AdvisorJumps);
    case King =>
      assert PseudoMoves(b, from) == Leaps(b, from, pc.color, King, KingJumps);
      LeapsSound(b, from, pc.color, King, KingJumps);
  }

  /** Every pseudo-legal destination is on the board and does not hold a piece
      of the mover's colour; an empty square has no moves. */
  lemma PseudoMovesSound(b: Board, from: Pos)
    ensures At(b, from).None? ==> PseudoMoves(b, from) == []
    ensures At(b, from).Some? ==> forall q :: q in PseudoMoves(b, from) ==>
      InBounds(q.x, q.y) && !Holds(b, q, At(b, from).value.color)
  {
    if At(b, from).Some? {
      PieceMovesSound(b, from, At(b, from).value);
    }
  }

  /** The line moves are the four directions' walks, in generator order. */
  lemma LinesInOrder(b: Board, from: Pos, color: Color, cannon: bool)
    ensures Lines(b, from, color, cannon, LineDirs)
      == LineFrom(b, from, Right, 1, color, cannon, false) + LineFrom(b, from, Left, 1, color, cannon, false)
       + LineFrom(b, from, Down, 1, color, cannon, false) + LineFrom(b, from, Up, 1, color, cannon, false)
  {
    assert [Right][..0] == [];
    assert Lines(b, from, color, cannon, [Right]) == LineFrom(b, from, Right, 1, color, cannon, false);
    assert [Right, Left][..1] == [Right];
    assert Lines(b, from, color, cannon, [Right, Left])
      == Lines(b, from, color, cannon, [Right]) + LineFrom(b, from, Left, 1, color, cannon, false);
    assert [Right, Left, Down][..2] == [Right, Left];
    assert Lines(b, from, color, cannon, [Right, Left, Down])
      == Lines(b, from, color, cannon, [Right, Left]) + LineFrom(b, from, Down, 1, color, cannon, false);
    assert LineDirs[..3] == [Right, Left, Down];
  }

  // ---------------------------------------------------------------------------
  // Rook and cannon lines, by counting screens

  /** The number of pieces strictly between `from` and its i-th square along d. */
  function Screens(b: Board, from: Pos, d: Dir, i: int): nat
    decreases i
  {
    if i <= 1 then 0
    else Screens(b, from, d, i - 1) + (if At(b, Step(from, d, i - 1)).Some? then 1 else 0)
  }

  /** The i-th square along d is a destination: on the board, not holding a
      piece of the mover's colour, and for a rook with nothing in between; for
      a cannon either empty with nothing in between, or an enemy with exactly
      one piece (of either colour) in between. */
  predicate Reaches(b: Board, from: Pos, d: Dir, i: int, color: Color, cannon: bool) {
    var q := Step(from, d, i);
    InBounds(q.x, q.y) && !Holds(b, q, color) &&
    if cannon then Screens(b, from, d, i) == (if At(b, q).None? then 0 else 1)
    else Screens(b, from, d, i) == 0
  }

  /** The reference definition: every square along d that Reaches, nearest first. */
  function Scan(b: Board, from: Pos, d: Dir, i: int, color: Color, cannon: bool): seq<Pos>
    decreases Rows + 1 - i
  {
    if i > Rows then []
    else if Reaches(b, from, d, i, color, cannon) then [Step(from, d, i)] + Scan(b, from, d, i + 1, color, cannon)
    else Scan(b, from, d, i + 1, color, cannon)
  }

  lemma {:induction false} ScanOffBoard(b: Board, from: Pos, d: Dir, i: int, color: Color, cannon: bool)
    requires InBounds(from.x, from.y) && 1 <= i
    requires !InBounds(Step(from, d, i).x, Step(from, d, i).y)
    ensures Scan(b, from, d, i, color, cannon) == []
    decreases Rows + 1 - i
  {
    if i <= Rows {
      ScanOffBoard(b, from, d, i + 1, color, cannon);
    }
  }

  /** Once a rook has one piece behind it, or a cannon two, nothing further
      along the line is reached. */
  lemma {:induction false} ScanBlocked(b: Board, from: Pos, d: Dir, i: int, color: Color, cannon: bool)
    requires 1 <= i
    requires Screens(b, from, d, i) >= if cannon then 2 else 1
    ensures Scan(b, from, d, i, color, cannon) == []
    decreases Rows + 1 - i
  {
    if i <= Rows {
      assert Screens(b, from, d, i + 1) >= Screens(b, from, d, i);
      ScanBlocked(b, from, d, i + 1, color, cannon);
    }
  }

  /** The rook's walk from step i equals the reference scan while no piece
      has been passed. */
  lemma {:induction false} RookLineIsScan(b: Board, from: Pos, d: Dir, i: int, color: Color)
    requires InBounds(from.x, from.y) && 1 <= i
    requires Screens(b, from, d, i) == 0
    ensures LineFrom(b, from, d, i, color, false, false) == Scan(b, from, d, i, color, false)
    decreases Ahead(from, d, i)
  {
    var q := Step(from, d, i);
    if !InBounds(q.x, q.y) {
      ScanOffBoard(b, from, d, i, color, false);
      assert LineFrom(b, from, d, i, color, false, false) == [];
    } else if At(b, q).Some? {
      assert i <= Rows;
      ScanBlocked(b, from, d, i + 1, color, false);
      assert LineFrom(b, from, d, i, color, false, false) == if Holds(b, q, color) then [] else [q];
      assert Scan(b, from, d, i, color, false) == if Holds(b, q, color) then [] else [q];
    } else {
      assert i <= Rows;
      RookLineIsScan(b, from, d, i + 1, color);
      assert Reaches(b, from, d, i, color, false);
      assert LineFrom(b, from, d, i, color, false, false) == [q] + LineFrom(b, from, d, i + 1, color, false, false);
    }
  }

  /** The cannon's walk from step i, once past its screen, equals the
      reference scan. */
  lemma {:induction false} CannonTailIsScan(b: Board, from: Pos, d: Dir, i: int, color: Color)
    requires InBounds(from.x, from.y) && 1 <= i
    requires Screens(b, from, d, i) == 1
    ensures LineFrom(b, from, d, i, color, true, true) == Scan(b, from, d, i, color, true)
    decreases Ahead(from, d, i)
  {
    var q := Step(from, d, i);
    if !InBounds(q.x, q.y) {
      ScanOffBoard(b, from, d, i, color, true);
      assert LineFrom(b, from, d, i, color, true, true) == [];
    } else if At(b, q).Some? {
      assert i <= Rows;
      ScanBlocked(b, from, d, i + 1, color, true);
      assert LineFrom(b, from, d, i, color, true, true) == if Holds(b, q, color) then [] else [q];
      assert Scan(b, from, d, i, color, true) == if Holds(b, q, color) then [] else [q];
    } else {
      assert i <= Rows;
      CannonTailIsScan(b, from, d, i + 1, color);
      assert !Reaches(b, from, d, i, color, true);
      assert LineFrom(b, from, d, i, color, true, true) == LineFrom(b, from, d, i + 1, color, true, true);
      assert Scan(b, from, d, i, color, true) == Scan(b, from, d, i + 1, color, true);
    }
  }

  /** The cannon's walk from step i, before any screen, equals the reference
      scan. */
  lemma {:induction false} CannonLineIsScan(b: Board, from: Pos, d: Dir, i: int, color: Color)
    requires InBounds(from.x, from.y) && 1 <= i
    requires Screens(b, from, d, i) == 0
    ensures LineFrom(b, from, d, i, color, true, false) == Scan(b, from, d, i, color, true)
    decreases Ahead(from, d, i)
  {
    var q := Step(from, d, i);
    if !InBounds(q.x, q.y) {
      ScanOffBoard(b, from, d, i, color, true);
      assert LineFrom(b, from, d, i, color, true, false) == [];
    } else if At(b, q).Some? {
      CannonTailIsScan(b, from, d, i + 1, color);
      ScreenStep(b, from, d, i, color);
    } else {
      CannonLineIsScan(b, from, d, i + 1, color);
      OpenStep(b, from, d, i, color);
    }
  }

  /** The cannon meets its screen at step i: neither walk takes that square. */
  lemma ScreenStep(b: Board, from: Pos, d: Dir, i: int, color: Color)
    requires InBounds(from.x, from.y) && 1 <= i && Screens(b, from, d, i) == 0
    requires InBounds(Step(from, d, i).x, Step(from, d, i).y) && At(b, Step(from, d, i)).Some?
    ensures Screens(b, from, d, i + 1) == 1
    ensures LineFrom(b, from, d, i, color, true, false) == LineFrom(b, from, d, i + 1, color, true, true)
    ensures Scan(b, from, d, i, color, true) == Scan(b, from, d, i + 1, color, true)
  {
    assert i <= Rows;
  }

  /** The cannon crosses an empty square at step i before its screen: both
      walks take it. */
  lemma OpenStep(b: Board, from: Pos, d: Dir, i: int, color: Color)
    requires InBounds(from.x, from.y) && 1 <= i && Screens(b, from, d, i) == 0
    requires InBounds(Step(from, d, i).x, Step(from, d, i).y) && At(b, Step(from, d, i)).None?
    ensures Screens(b, from, d, i + 1) == 0
    ensures LineFrom(b, from, d, i, color, true, false) == [Step(from, d, i)] + LineFrom(b, from, d, i + 1, color, true, false)
    ensures Scan(b, from, d, i, color, true) == [Step(from, d, i)] + Scan(b, from, d, i + 1, color, true)
  {
    assert i <= Rows;
  }

  lemma {:induction false} ScanMember(b: Board, from: Pos, d: Dir, i: int, color: Color, cannon: bool, k: int)
    requires InBounds(from.x, from.y) && 1 <= i && 1 <= k
    ensures Step(from, d, k) in Scan(b, from, d, i, color, cannon) <==> i <= k && Reaches(b, from, d, k, color, cannon)
    decreases Rows + 1 - i
  {
    if i <= Rows {
      ScanMember(b, from, d, i + 1, color, cannon, k);
    }
  }

  lemma {:induction false} ScanOnLine(b: Board, from: Pos, d: Dir, i: int, color: Color, cannon: bool, q: Pos)
    requires q in Scan(b, from, d, i, color, cannon)
    ensures exists k :: i <= k && q == Step(from, d, k) && Reaches(b, from, d, k, color, cannon)
    decreases Rows + 1 - i
  {
    if q != Step(from, d, i) || !Reaches(b, from, d, i, color, cannon) {
      ScanOnLine(b, from, d, i + 1, color, cannon, q);
    }
  }

  /** The moves of a rook or a cannon along one direction are exactly the
      squares that Reach, nearest first. */
  lemma LineIsScan(b: Board, from: Pos, d: Dir, color: Color, cannon: bool)
    requires InBounds(from.x, from.y)
    ensures LineFrom(b, from, d, 1, color, cannon, false) == Scan(b, from, d, 1, color, cannon)
  {
    if cannon {
      CannonLineIsScan(b, from, d, 1, color);
    } else {
      RookLineIsScan(b, from, d, 1, color);
    }
  }

  /** The four walks of a rook or a cannon are the four reference scans. */
  lemma LineMovesAreScans(b: Board, from: Pos, color: Color, cannon: bool)
    requires InBounds(from.x, from.y)
    requires At(b, from) == Some(Piece(if cannon then Cannon else Rook, color))
    ensures PseudoMoves(b, from) == Scan(b, from, Right, 1, color, cannon) + Scan(b, from, Left, 1, color, cannon)
      + Scan(b, from, Down, 1, color, cannon) + Scan(b, from, Up, 1, color, cannon)
  {
    assert PseudoMoves(b, from) == Lines(b, from, color, cannon, LineDirs);
    LinesInOrder(b, from, color, cannon);
    LineIsScan(b, from, Right, color, cannon);
    LineIsScan(b, from, Left, color, cannon);
    LineIsScan(b, from, Down, color, cannon);
    LineIsScan(b, from, Up, color, cannon);
  }

  /** Every destination of a rook or a cannon lies on one of its four lines and Reaches. */
  lemma LineMovesOnLines(b: Board, from: Pos, color: Color, cannon: bool)
    requires InBounds(from.x, from.y)
    requires At(b, from) == Some(Piece(if cannon then Cannon else Rook, color))
    ensures forall q :: q in PseudoMoves(b, from) ==>
      exists d, k :: 1 <= k && q == Step(from, d, k) && Reaches(b, from, d, k, color, cannon)
  {
    LineMovesAreScans(b, from, color, cannon);
    forall q | q in PseudoMoves(b, from)
      ensures exists d, k :: 1 <= k && q == Step(from, d, k) && Reaches(b, from, d, k, color, cannon)
    {
      if q in Scan(b, from, Right, 1, color, cannon) {
        ScanOnLine(b, from, Right, 1, color, cannon, q);
      } else if q in Scan(b, from, Left, 1, color, cannon) {
        ScanOnLine(b, from, Left, 1, color, cannon, q);
      } else if q in Scan(b, from, Down, 1, color, cannon) {
        ScanOnLine(b, from, Down, 1, color, cannon, q);
      } else {
        ScanOnLine(b, from, Up, 1, color, cannon, q);
      }
    }
  }

  /** A square of one line never appears in the scan of another. */
  lemma OtherLine(b: Board, from: Pos, d: Dir, e: Dir, k: int, color: Color, cannon: bool)
    requires 1 <= k && d != e
    ensures Step(from, d, k) !in Scan(b, from, e, 1, color, cannon)
  {
    if Step(from, d, k) in Scan(b, from, e, 1, color, cannon) {
      ScanOnLine(b, from, e, 1, color, cannon, Step(from, d, k));
    }
  }

  /** The k-th square in direction d from a rook (cannon false) or a cannon is
      one of its destinations exactly when it Reaches. */
  lemma LineMoveAt(b: Board, from: Pos, color: Color, cannon: bool, d: Dir, k: int)
    requires InBounds(from.x, from.y) && 1 <= k
    requires At(b, from) == Some(Piece(if cannon then Cannon else Rook, color))
    ensures Step(from, d, k) in PseudoMoves(b, from) <==> Reaches(b, from, d, k, color, cannon)
  {
    LineMovesAreScans(b, from, color, cannon);
    var q := Step(from, d, k);
    ScanMember(b, from, d, 1, color, cannon, k);
    var r, l, dn, u := Scan(b, from, Right, 1, color, cannon), Scan(b, from, Left, 1, color, cannon),
      Scan(b, from, Down, 1, color, cannon), Scan(b, from, Up, 1, color, cannon);
    assert q in PseudoMoves(b, from) <==> q in r || q in l || q in dn || q in u;
    match d
    case Right =>
      OtherLine(b, from, d, Left, k, color, cannon);
      OtherLine(b, from, d, Down, k, color, cannon);
      OtherLine(b, from, d, Up, k, color, cannon);
    case Left =>
      OtherLine(b, from, d, Right, k, color, cannon);
      OtherLine(b, from, d, Down, k, color, cannon);
      OtherLine(b, from, d, Up, k, color, cannon);
    case Down =>
      OtherLine(b, from, d, Right, k, color, cannon);
      OtherLine(b, from, d, Left, k, color, cannon);
      OtherLine(b, from, d, Up, k, color, cannon);
    case Up =>
      OtherLine(b, from, d, Right, k, color, cannon);
      OtherLine(b, from, d, Left, k, color, cannon);
      OtherLine(b, from, d, Down, k, color, cannon);
  }
}

module LeapLaws {
  import opened Board
  import opened Moves

  // ---------------------------------------------------------------------------
  // Jumps: exactly the jumps whose gate is open

  /** No two jumps of a table share a destination offset. */
  predicate DistinctOffsets(steps: seq<Jump>) {
    forall i, k :: 0 <= i < k < |steps| ==> steps[i].dx != steps[k].dx || steps[i].dy != steps[k].dy
  }

  lemma {:induction false} LeapOrigin(b: Board, from: Pos, color: Color, kind: Kind, steps: seq<Jump>, q: Pos)
    requires q in Leaps(b, from, color, kind, steps)
    ensures exists j ::
      0 <= j < |steps| && q == Target(from, steps[j]) && Admits(b, from, color, kind, steps[j]) && !Holds(b, q, color)
    decreases |steps|
  {
    var n := |steps| - 1;
    if q in Leaps(b, from, color, kind, steps[..n]) {
      LeapOrigin(b, from, color, kind, steps[..n], q);
      var j :| 0 <= j < n && q == Target(from, steps[..n][j])
        && Admits(b, from, color, kind, steps[..n][j]) && !Holds(b, q, color);
      assert steps[..n][j] == steps[j];
    } else {
      assert q == Target(from, steps[n]) && Admits(b, from, color, kind, steps[n]);
    }
  }

  lemma {:induction false} LeapAt(b: Board, from: Pos, color: Color, kind: Kind, steps: seq<Jump>, j: int)
    requires 0 <= j < |steps| && DistinctOffsets(steps)
    ensures (Target(from, steps[j]) in Leaps(b, from, color, kind, steps))
      <==> Admits(b, from, color, kind, steps[j]) && !Holds(b, Target(from, steps[j]), color)
    decreases |steps|
  {
    var n := |steps| - 1;
    var t := Target(from, steps[j]);
    assert DistinctOffsets(steps[..n]);
    if j < n {
      assert steps[..n][j] == steps[j];
      LeapAt(b, from, color, kind, steps[..n], j);
      assert t != Target(from, steps[n]);
    } else if t in Leaps(b, from, color, kind, steps[..n]) {
      LeapOrigin(b, from, color, kind, steps[..n], t);
    }
  }

  /** Every destination is the target of one jump whose gate is open, and the
      target of each jump is a destination exactly when its gate is open and
      the push rule keeps it. */
  lemma LeapMoves(b: Board, from: Pos, color: Color, kind: Kind, steps: seq<Jump>)
    requires DistinctOffsets(steps)
    ensures forall j :: 0 <= j < |steps| ==>
      ((Target(from, steps[j]) in Leaps(b, from, color, kind, steps))
       <==> Admits(b, from, color, kind, steps[j]) && !Holds(b, Target(from, steps[j]), color))
    ensures forall q :: q in Leaps(b, from, color, kind, steps) ==>
      exists j :: 0 <= j < |steps| && q == Target(from, steps[j]) && Admits(b, from, color, kind, steps[j])
  {
    forall j | 0 <= j < |steps|
      ensures Target(from, steps[j]) in Leaps(b, from, color, kind, steps)
        <==> Admits(b, from, color, kind, steps[j]) && !Holds(b, Target(from, steps[j]), color)
    {
      LeapAt(b, from, color, kind, steps, j);
    }
    forall q | q in Leaps(b, from, color, kind, steps)
      ensures exists j :: 0 <= j < |steps| && q == Target(from, steps[j]) && Admits(b, from, color, kind, steps[j])
    {
      LeapOrigin(b, from, color, kind, steps, q);
    }
  }

  /** Horse: the jump j lands exactly when its leg square is on the board and
      empty and the landing square is on the board and not the mover's own; a
      blocked leg removes that jump and no other. */
  lemma HorseMoves(b: Board, from: Pos, c: Color)
    requires At(b, from) == Some(Piece(Horse, c))
    ensures forall j :: 0 <= j < |HorseJumps| ==>
      var t, leg := Target(from, HorseJumps[j]), Leg(from, HorseJumps[j]);
      (t in PseudoMoves(b, from) <==>
        InBounds(leg.x, leg.y) && At(b, leg).None? && InBounds(t.x, t.y) && !Holds(b, t, c))
    ensures forall q :: q in PseudoMoves(b, from) ==>
      exists j :: 0 <= j < |HorseJumps| && q == Target(from, HorseJumps[j]) && At(b, Leg(from, HorseJumps[j])).None?
  {
    assert DistinctOffsets(HorseJumps);
    LeapMoves(b, from, c, Horse, HorseJumps);
  }

  /** Elephant: never across the river (Red stays on rows 5 to 9, Black on
      rows 0 to 4); the jump j lands exactly when its landing square is on the
      board, on the home side and not the mover's own, and its eye is empty. */
  lemma ElephantMoves(b: Board, from: Pos, c: Color)
    requires At(b, from) == Some(Piece(Elephant, c))
    ensures forall q :: q in PseudoMoves(b, from) ==> (c == Red ==> q.y >= 5) && (c == Black ==> q.y <= 4)
    ensures forall j :: 0 <= j < |ElephantJumps| ==>
      var t := Target(from, ElephantJumps[j]);
      (t in PseudoMoves(b, from) <==>
        InBounds(t.x, t.y) && HomeSide(c, t.y) && At(b, Eye(from, ElephantJumps[j])).None? && !Holds(b, t, c))
    ensures forall q :: q in PseudoMoves(b, from) ==>
      exists j :: 0 <= j < |ElephantJumps| && q == Target(from, ElephantJumps[j]) && At(b, Eye(from, ElephantJumps[j])).None?
  {
    assert DistinctOffsets(ElephantJumps);
    LeapMoves(b, from, c, Elephant, ElephantJumps);
  }

  /** Advisor and king: every destination is inside the mover's palace
      (columns 3 to 5; rows 7 to 9 for Red, 0 to 2 for Black); the step j lands
      exactly when its square is on the board, in the palace and not the
      mover's own. */
  lemma PalaceMoves(b: Board, from: Pos, c: Color, kind: Kind)
    requires kind == Advisor || kind == King
    requires At(b, from) == Some(Piece(kind, c))
    ensures forall q :: q in PseudoMoves(b, from) ==>
      3 <= q.x <= 5 && (c == Red ==> 7 <= q.y <= 9) && (c == Black ==> 0 <= q.y <= 2)
    ensures var steps := if kind == Advisor then AdvisorJumps else KingJumps;
      forall j :: 0 <= j < |steps| ==>
        var t := Target(from, steps[j]);
        (t in PseudoMoves(b, from) <==> InBounds(t.x, t.y) && InPalace(c, t) && !Holds(b, t, c))
  {
    var steps := if kind == Advisor then AdvisorJumps else KingJumps;
    assert DistinctOffsets(steps);
    LeapMoves(b, from, c, kind, steps);
  }

  /** Pawn: one step forward (Red towards row 0, Black towards row 9), and one
      step sideways only once across the river; never backward. */
  lemma PawnMovesShape(b: Board, from: Pos, c: Color)
    requires At(b, from) == Some(Piece(Pawn, c))
    ensures forall q :: q in PseudoMoves(b, from) ==>
      q == Pos(from.x, from.y + Forward(c))
      || (Crossed(c, from.y) && q.y == from.y && (q.x == from.x - 1 || q.x == from.x + 1))
    ensures forall q :: q in PseudoMoves(b, from) ==> (c == Red ==> q.y <= from.y) && (c == Black ==> q.y >= from.y)
    ensures var f := Pos(from.x, from.y + Forward(c));
      f in PseudoMoves(b, from) <==> InBounds(f.x, f.y) && !Holds(b, f, c)
    ensures var l := Pos(from.x - 1, from.y);
      l in PseudoMoves(b, from) <==> Crossed(c, from.y) && InBounds(l.x, l.y) && !Holds(b, l, c)
    ensures var r := Pos(from.x + 1, from.y);
      r in PseudoMoves(b, from) <==> Crossed(c, from.y) && InBounds(r.x, r.y) && !Holds(b, r, c)
  {
  }
}
