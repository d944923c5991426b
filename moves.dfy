/** Pseudo-legal move generation: where each kind of piece may go by its
    movement geometry alone, ignoring whether the mover's king is left in check.
    The functions are the specification; the methods are the generator written
    as the source writes it, appending to a move list. */
module Moves {
  import opened Board
  import opened Seqs

  // ---------------------------------------------------------------------------
  // Straight lines (rook and cannon)

  datatype Dir = Right | Left | Down | Up

  /** The four directions, in the order the generator tries them. */
  const LineDirs: seq<Dir> := [Right, Left, Down, Up]

  function DX(d: Dir): int {
    match d
    case Right => 1
    case Left => -1
    case _ => 0
  }

  function DY(d: Dir): int {
    match d
    case Down => 1
    case Up => -1
    case _ => 0
  }

  /** The square i steps from p in direction d. */
  function Step(p: Pos, d: Dir, i: int): Pos {
    match d
    case Right => Pos(p.x + i, p.y)
    case Left => Pos(p.x - i, p.y)
    case Down => Pos(p.x, p.y + i)
    case Up => Pos(p.x, p.y - i)
  }

  /** How many squares from step i on remain before the edge. */
  function Ahead(p: Pos, d: Dir, i: int): int {
    match d
    case Right => Cols - p.x - i
    case Left => p.x - i + 1
    case Down => Rows - p.y - i
    case Up => p.y - i + 1
  }

  /** The push rule shared by all kinds: a destination is kept unless a piece
      of the mover's own colour stands on it. */
  function Pushed(b: Board, t: Pos, color: Color): seq<Pos> {
    if Holds(b, t, color) then [] else [t]
  }

  /** The destinations along direction d from step i on. A rook stops at the
      first piece and takes it if it is an enemy; a cannon moves over empty
      squares until the first piece (its screen), then skips empty squares and
      takes the next piece if it is an enemy. `jumped` records that the screen
      has been passed. */
  function LineFrom(b: Board, from: Pos, d: Dir, i: int, color: Color, cannon: bool, jumped: bool): seq<Pos>
    decreases Ahead(from, d, i)
  {
    var q := Step(from, d, i);
    if !InBounds(q.x, q.y) then []
    else if !cannon then
      if At(b, q).Some? then (if Holds(b, q, color) then [] else [q])
      else [q] + LineFrom(b, from, d, i + 1, color, cannon, jumped)
    else if !jumped then
      if At(b, q).Some? then LineFrom(b, from, d, i + 1, color, cannon, true)
      else [q] + LineFrom(b, from, d, i + 1, color, cannon, jumped)
    else if At(b, q).Some? then (if Holds(b, q, color) then [] else [q])
    else LineFrom(b, from, d, i + 1, color, cannon, jumped)
  }

  /** The line moves along each direction of ds in turn. */
  function Lines(b: Board, from: Pos, color: Color, cannon: bool, ds: seq<Dir>): seq<Pos>
    decreases |ds|
  {
    if ds == [] then []
    else Lines(b, from, color, cannon, ds[..|ds| - 1]) + LineFrom(b, from, ds[|ds| - 1], 1, color, cannon, false)
  }

  // ---------------------------------------------------------------------------
  // Jumps and steps (horse, elephant, advisor, king)

  /** An offset (dx, dy) to the destination; for a horse, (lx, ly) is the
      offset of its leg square, which must be empty. Other kinds leave it 0. */
  datatype Jump = Jump(dx: int, dy: int, lx: int, ly: int)

  const HorseJumps: seq<Jump> := [
    Jump(2, 1, 1, 0), Jump(2, -1, 1, 0), Jump(-2, 1, -1, 0), Jump(-2, -1, -1, 0),
    Jump(1, 2, 0, 1), Jump(-1, 2, 0, 1), Jump(1, -2, 0, -1), Jump(-1, -2, 0, -1)]

  const ElephantJumps: seq<Jump> := [Jump(2, 2, 0, 0), Jump(2, -2, 0, 0), Jump(-2, 2, 0, 0), Jump(-2, -2, 0, 0)]

  const AdvisorJumps: seq<Jump> := [Jump(1, 1, 0, 0), Jump(1, -1, 0, 0), Jump(-1, 1, 0, 0), Jump(-1, -1, 0, 0)]

  const KingJumps: seq<Jump> := [Jump(1, 0, 0, 0), Jump(-1, 0, 0, 0), Jump(0, 1, 0, 0), Jump(0, -1, 0, 0)]

  function Target(from: Pos, s: Jump): Pos {
    Pos(from.x + s.dx, from.y + s.dy)
  }

  function Leg(from: Pos, s: Jump): Pos {
    Pos(from.x + s.lx, from.y + s.ly)
  }

  /** The elephant's eye: the midpoint of its diagonal jump. */
  function Eye(from: Pos, s: Jump): Pos {
    Pos(from.x + s.dx / 2, from.y + s.dy / 2)
  }

  /** The 3 x 3 palace: columns 3 to 5, rows 7 to 9 for Red and 0 to 2 for Black. */
  predicate InPalace(color: Color, p: Pos) {
    3 <= p.x <= 5 && if color == Red then 7 <= p.y <= 9 else 0 <= p.y <= 2
  }

  /** Row y is on the home side of the river for colour c. */
  predicate HomeSide(color: Color, y: int) {
    if color == Red then y >= 5 else y <= 4
  }

  /** The geometric gate of one jump, before the push rule: a horse needs its
      leg square on the board and empty; an elephant stays on its side of the
      river and needs its eye empty; an advisor or king stays in its palace. */
  predicate Admits(b: Board, from: Pos, color: Color, kind: Kind, s: Jump) {
    var t := Target(from, s);
    match kind
    case Horse =>
      var leg := Leg(from, s);
      InBounds(leg.x, leg.y) && At(b, leg).None? && InBounds(t.x, t.y)
    case Elephant =>
      InBounds(t.x, t.y) && HomeSide(color, t.y) && At(b, Eye(from, s)).None?
    case _ =>
      InBounds(t.x, t.y) && InPalace(color, t)
  }

  /** The destinations of the jumps in steps, in order. */
  function Leaps(b: Board, from: Pos, color: Color, kind: Kind, steps: seq<Jump>): seq<Pos>
    decreases |steps|
  {
    if steps == [] then []
    else
      var s := steps[|steps| - 1];
      var earlier := Leaps(b, from, color, kind, steps[..|steps| - 1]);
      if Admits(b, from, color, kind, s) && !Holds(b, Target(from, s), color) then earlier + [Target(from, s)]
      else earlier
  }

  // ---------------------------------------------------------------------------
  // Pawns

  /** The forward direction along y: Red moves up the board, Black down. */
  function Forward(color: Color): int {
    if color == Red then -1 else 1
  }

  /** A pawn on row y has crossed the river. */
  predicate Crossed(color: Color, y: int) {
    if color == Red then y <= 4 else y >= 5
  }

  function StepIf(b: Board, t: Pos, color: Color): seq<Pos> {
    if InBounds(t.x, t.y) then Pushed(b, t, color) else []
  }

  /** One step forward; once across the river, also one step left and right. */
  function PawnMoves(b: Board, from: Pos, color: Color): seq<Pos> {
    var ahead := StepIf(b, Pos(from.x, from.y + Forward(color)), color);
    if Crossed(color, from.y) then
      ahead + (StepIf(b, Pos(from.x - 1, from.y), color) + StepIf(b, Pos(from.x + 1, from.y), color))
    else ahead
  }

  // ---------------------------------------------------------------------------
  // All pseudo-legal destinations of the piece on `from`

  function PseudoMoves(b: Board, from: Pos): seq<Pos> {
    match At(b, from)
    case None => []
    case Some(pc) =>
      match pc.kind
      case Rook => Lines(b, from, pc.color, false, LineDirs)
      case Cannon => Lines(b, from, pc.color, true, LineDirs)
      case Horse => Leaps(b, from, pc.color, Horse, HorseJumps)
      case Elephant => Leaps(b, from, pc.color, Elephant, ElephantJumps)
      case Advisor => Leaps(b, from, pc.color, Advisor, AdvisorJumps)
      case King => Leaps(b, from, pc.color, King, KingJumps)
      case Pawn => PawnMoves(b, from, pc.color)
  }

  // ---------------------------------------------------------------------------
  // The generator

  /** Appends target unless a piece of the mover's colour stands on it. */
  method PushMove(b: Board, moves: seq<Pos>, target: Pos, color: Color) returns (out: seq<Pos>)
    requires InBounds(target.x, target.y)
    ensures b[target.y][target.x].None? || b[target.y][target.x].value.color != color ==> out == moves + [target]
    ensures Holds(b, target, color) ==> out == moves
  {
    var p := b[target.y][target.x];
    if p.None? || PieceColor(p) != Some(color) {
      out := moves + [target];
    } else {
      out := moves;
    }
  }

  /** Appends the rook's (isCannon false) or the cannon's line moves, one
      direction after another. */
  method AddLineMoves(b: Board, from: Pos, moves: seq<Pos>, color: Color, isCannon: bool) returns (out: seq<Pos>)
    ensures out == moves + Lines(b, from, color, isCannon, LineDirs)
  {
    out := moves;
    var dirs := LineDirs;
    for k := 0 to |dirs|
      invariant out == moves + Lines(b, from, color, isCannon, dirs[..k])
    {
      assert dirs[..k + 1][..k] == dirs[..k];
      AppendAssoc(moves, Lines(b, from, color, isCannon, dirs[..k]), LineFrom(b, from, dirs[k], 1, color, isCannon, false));
      out := AddLine(b, from, dirs[k], out, color, isCannon);
    }
    assert dirs[..|dirs|] == dirs;
  }

  /** One direction of the line walk: the source's while loop over x, y and
      the cannon's `jumped` flag. */
  method AddLine(b: Board, from: Pos, d: Dir, moves: seq<Pos>, color: Color, isCannon: bool) returns (out: seq<Pos>)
    ensures out == moves + LineFrom(b, from, d, 1, color, isCannon, false)
  {
    out := moves;
    ghost var i := 1;
    var x, y := from.x + DX(d), from.y + DY(d);
    var jumped := false;
    while InBounds(x, y)
      invariant Pos(x, y) == Step(from, d, i)
      invariant out + LineFrom(b, from, d, i, color, isCannon, jumped) == moves + LineFrom(b, from, d, 1, color, isCannon, false)
      decreases Ahead(from, d, i)
    {
      var p := b[y][x];
      ghost var rest := LineFrom(b, from, d, i + 1, color, isCannon, jumped);
      if !isCannon {
        if p.Some? {
          if PieceColor(p) != Some(color) {
            out := out + [Pos(x, y)];
          } else {
            assert LineFrom(b, from, d, i, color, isCannon, jumped) == [];
          }
          return;
        }
        assert LineFrom(b, from, d, i, color, isCannon, jumped) == [Pos(x, y)] + rest;
        AppendAssoc(out, [Pos(x, y)], rest);
        out := out + [Pos(x, y)];
      } else {
        if !jumped {
          if p.Some? {
            assert LineFrom(b, from, d, i, color, isCannon, jumped) == LineFrom(b, from, d, i + 1, color, isCannon, true);
            jumped := true;
          } else {
            assert LineFrom(b, from, d, i, color, isCannon, jumped) == [Pos(x, y)] + rest;
            AppendAssoc(out, [Pos(x, y)], rest);
            out := out + [Pos(x, y)];
          }
        } else {
          if p.Some? {
            if PieceColor(p) != Some(color) {
              out := out + [Pos(x, y)];
            } else {
              assert LineFrom(b, from, d, i, color, isCannon, jumped) == [];
            }
            return;
          }
          assert LineFrom(b, from, d, i, color, isCannon, jumped) == rest;
        }
      }
      x, y := x + DX(d), y + DY(d);
      i := i + 1;
    }
  }

  /** Appends the destinations of the jumps in steps that pass the gate of kind. */
  method AddLeaps(b: Board, from: Pos, moves: seq<Pos>, color: Color, kind: Kind, steps: seq<Jump>) returns (out: seq<Pos>)
    requires kind in {Horse, Elephant, Advisor, King}
    ensures out == moves + Leaps(b, from, color, kind, steps)
  {
    out := moves;
    for k := 0 to |steps|
      invariant out == moves + Leaps(b, from, color, kind, steps[..k])
    {
      assert steps[..k + 1][..k] == steps[..k];
      var t := Target(from, steps[k]);
      if Admits(b, from, color, kind, steps[k]) && !Holds(b, t, color) {
        AppendAssoc(moves, Leaps(b, from, color, kind, steps[..k]), [t]);
      }
      out := AddLeap(b, from, out, color, kind, steps[k]);
    }
    assert steps[..|steps|] == steps;
  }

  /** One pass of the jump loop: the gate of kind, then the push rule; a
      jump that fails the gate adds nothing. */
  method AddLeap(b: Board, from: Pos, moves: seq<Pos>, color: Color, kind: Kind, s: Jump) returns (out: seq<Pos>)
    requires kind in {Horse, Elephant, Advisor, King}
    ensures Admits(b, from, color, kind, s) && !Holds(b, Target(from, s), color) ==> out == moves + [Target(from, s)]
    ensures !(Admits(b, from, color, kind, s) && !Holds(b, Target(from, s), color)) ==> out == moves
  {
    out := moves;
    var isRed := color == Red;
    if kind == Horse {
      var legX, legY := from.x + s.lx, from.y + s.ly;
      if !InBounds(legX, legY) || b[legY][legX].Some? {
        return;
      }
      var x, y := from.x + s.dx, from.y + s.dy;
      if InBounds(x, y) {
        out := PushMove(b, out, Pos(x, y), color);
      }
    } else if kind == Elephant {
      var x, y := from.x + s.dx, from.y + s.dy;
      if !InBounds(x, y) {
        return;
      }
      if isRed && y < 5 {
        return;
      }
      if !isRed && y > 4 {
        return;
      }
      var eyeX, eyeY := from.x + s.dx / 2, from.y + s.dy / 2;
      if At(b, Pos(eyeX, eyeY)).Some? {
        return;
      }
      out := PushMove(b, out, Pos(x, y), color);
    } else {
      var x, y := from.x + s.dx, from.y + s.dy;
      if !InBounds(x, y) {
        return;
      }
      if isRed && (x < 3 || x > 5 || y < 7 || y > 9) {
        return;
      }
      if !isRed && (x < 3 || x > 5 || y < 0 || y > 2) {
        return;
      }
      out := PushMove(b, out, Pos(x, y), color);
    }
  }

  /** The pawn's moves: forward, then, once across the river, left and right. */
  method AddPawnMoves(b: Board, from: Pos, moves: seq<Pos>, color: Color) returns (out: seq<Pos>)
    ensures out == moves + PawnMoves(b, from, color)
  {
    out := PushIfOnBoard(b, moves, Pos(from.x, from.y + Forward(color)), color);
    if Crossed(color, from.y) {
      ghost var ahead := out;
      out := PushIfOnBoard(b, out, Pos(from.x - 1, from.y), color);
      ghost var left := out;
      out := PushIfOnBoard(b, out, Pos(from.x + 1, from.y), color);
      AppendAssoc(ahead, StepIf(b, Pos(from.x - 1, from.y), color), StepIf(b, Pos(from.x + 1, from.y), color));
      AppendAssoc(moves, StepIf(b, Pos(from.x, from.y + Forward(color)), color),
        StepIf(b, Pos(from.x - 1, from.y), color) + StepIf(b, Pos(from.x + 1, from.y), color));
    }
  }

  /** A pawn step: pushed when the square is on the board. */
  method PushIfOnBoard(b: Board, moves: seq<Pos>, t: Pos, color: Color) returns (out: seq<Pos>)
    ensures out == moves + StepIf(b, t, color)
  {
    if InBounds(t.x, t.y) {
      out := PushMove(b, moves, t, color);
    } else {
      out := moves;
    }
  }

  /** The pseudo-legal destinations of the piece on `from`, in the order the
      source generates them; none for an empty square. */
  method GetPseudoMoves(b: Board, from: Pos) returns (moves: seq<Pos>)
    requires InBounds(from.x, from.y)
    ensures moves == PseudoMoves(b, from)
  {
    var piece := b[from.y][from.x];
    if piece.None? {
      return [];
    }
    var color := piece.value.color;
    var kind := piece.value.kind;
    moves := [];
    match kind {
      case Rook =>
        moves := AddLineMoves(b, from, moves, color, false);
      case Cannon =>
        moves := AddLineMoves(b, from, moves, color, true);
      case Horse =>
        moves := AddLeaps(b, from, moves, color, Horse, HorseJumps);
      case Elephant =>
        moves := AddLeaps(b, from, moves, color, Elephant, ElephantJumps);
      case Advisor =>
        moves := AddLeaps(b, from, moves, color, Advisor, AdvisorJumps);
      case King =>
        moves := AddLeaps(b, from, moves, color, King, KingJumps);
      case Pawn =>
        moves := AddPawnMoves(b, from, moves, color);
    }
  }
}
