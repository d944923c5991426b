/** The Xiangqi board model: pieces, coordinates, the 10 x 9 grid of optional
    pieces, the start position, the copy-with-a-move update and the king scan.
    Rows are numbered 0 (Black's back rank, at the top) to 9 (Red's back rank);
    columns 0 to 8 from left to right. */
module Board {

  datatype Option<T> = None | Some(value: T)

  datatype Color = Red | Black

  /** The seven piece kinds, written r n b a k c p in the one-letter code. */
  datatype Kind = Rook | Horse | Elephant | Advisor | King | Cannon | Pawn

  datatype Piece = Piece(kind: Kind, color: Color)

  type Cell = Option<Piece>

  datatype Pos = Pos(x: int, y: int)

  const Rows: int := 10
  const Cols: int := 9

  predicate IsGrid(b: seq<seq<Cell>>) {
    |b| == Rows && forall y :: 0 <= y < |b| ==> |b[y]| == Cols
  }

  /** A board: exactly 10 rows of exactly 9 cells. */
  type Board = b: seq<seq<Cell>> | IsGrid(b) witness seq(Rows, _ => seq(Cols, _ => None))

  function Opponent(c: Color): (o: Color)
    ensures o != c
  {
    if c == Red then Black else Red
  }

  // ---------------------------------------------------------------------------
  // One-letter piece codes

  /** The lower-case letter of a kind. */
  function KindLetter(k: Kind): char {
    match k
    case Rook => 'r'
    case Horse => 'n'
    case Elephant => 'b'
    case Advisor => 'a'
    case King => 'k'
    case Cannon => 'c'
    case Pawn => 'p'
  }

  /** The code stored on the board: upper case for Red, lower case for Black. */
  function Letter(p: Piece): char {
    var l := KindLetter(p.kind);
    if p.color == Red then (l as int - 32) as char else l
  }

  /** The colour a code stands for: a code equal to its own upper-case form is
      Red, any other is Black. */
  function LetterColor(ch: char): Color {
    if 'a' <= ch <= 'z' then Black else Red
  }

  /** The colour of a cell, none for an empty cell (the source's getPieceColor). */
  function PieceColor(cell: Cell): (c: Option<Color>)
    ensures c.None? <==> cell.None?
    ensures cell.Some? ==> c.value == LetterColor(Letter(cell.value))
  {
    match cell
    case None => None
    case Some(p) => Some(p.color)
  }

  lemma LetterInjective(p: Piece, q: Piece)
    requires Letter(p) == Letter(q)
    ensures p == q
  {
  }

  // ---------------------------------------------------------------------------
  // Coordinates

  predicate InBounds(x: int, y: int) {
    0 <= x < Cols && 0 <= y < Rows
  }

  /** The cell at p; a position off the board reads as empty. */
  function At(b: Board, p: Pos): Cell {
    if InBounds(p.x, p.y) then b[p.y][p.x] else None
  }

  /** The cell at p holds a piece of colour c. */
  predicate Holds(b: Board, p: Pos, c: Color) {
    At(b, p).Some? && At(b, p).value.color == c
  }

  /** Row-major order: p is scanned before q. */
  predicate Before(p: Pos, q: Pos) {
    p.y < q.y || (p.y == q.y && p.x < q.x)
  }

  // ---------------------------------------------------------------------------
  // The start position

  function BackRank(c: Color): seq<Cell> {
    [Some(Piece(Rook, c)), Some(Piece(Horse, c)), Some(Piece(Elephant, c)),
     Some(Piece(Advisor, c)), Some(Piece(King, c)), Some(Piece(Advisor, c)),
     Some(Piece(Elephant, c)), Some(Piece(Horse, c)), Some(Piece(Rook, c))]
  }

  function CannonRow(c: Color): seq<Cell> {
    [None, Some(Piece(Cannon, c)), None, None, None, None, None, Some(Piece(Cannon, c)), None]
  }

  function PawnRow(c: Color): seq<Cell> {
    [Some(Piece(Pawn, c)), None, Some(Piece(Pawn, c)), None, Some(Piece(Pawn, c)),
     None, Some(Piece(Pawn, c)), None, Some(Piece(Pawn, c))]
  }

  function EmptyRow(): seq<Cell> {
    seq(Cols, _ => None)
  }

  /** The start position: Black on rows 0 to 3, Red on rows 6 to 9. */
  function InitialBoard(): (b: Board)
    ensures b[0][4] == Some(Piece(King, Black)) && b[9][4] == Some(Piece(King, Red))
    ensures forall y, x :: 0 <= y < 5 && 0 <= x < Cols && b[y][x].Some? ==> b[y][x].value.color == Black
    ensures forall y, x :: 5 <= y < Rows && 0 <= x < Cols && b[y][x].Some? ==> b[y][x].value.color == Red
    ensures forall x :: 0 <= x < Cols ==> b[4][x] == None && b[5][x] == None
  {
    [BackRank(Black), EmptyRow(), CannonRow(Black), PawnRow(Black), EmptyRow(),
     EmptyRow(), PawnRow(Red), CannonRow(Red), EmptyRow(), BackRank(Red)]
  }

  /** Red's view of the start position mirrors Black's: the piece on row y is
      the piece on row 9 - y with the other colour. */
  lemma InitialBoardSymmetric(y: int, x: int)
    requires 0 <= y < Rows && 0 <= x < Cols
    ensures var b := InitialBoard();
      match b[y][x]
      case None => b[Rows - 1 - y][x] == None
      case Some(p) => b[Rows - 1 - y][x] == Some(Piece(p.kind, Opponent(p.color)))
  {
  }

  // ---------------------------------------------------------------------------
  // Moving a piece on a copy of the board

  /** The board with cell p replaced by v. */
  function Put(b: Board, p: Pos, v: Cell): (r: Board)
    requires InBounds(p.x, p.y)
    ensures At(r, p) == v
    ensures forall q: Pos :: q != p ==> At(r, q) == At(b, q)
  {
    b[p.y := b[p.y][p.x := v]]
  }

  /** A copy of b with the piece on `from` relocated to `to` (capturing
      whatever stood there) and `from` cleared. */
  function Apply(b: Board, from: Pos, to: Pos): (r: Board)
    requires InBounds(from.x, from.y) && InBounds(to.x, to.y)
    ensures from != to ==> At(r, to) == At(b, from)
    ensures At(r, from) == None
    ensures forall q: Pos :: q != from && q != to ==> At(r, q) == At(b, q)
  {
    Put(Put(b, to, At(b, from)), from, None)
  }

  /** A cell-by-cell copy of a board. */
  method CloneBoard(source: Board) returns (copy: Board)
    ensures copy == source
  {
    var rows: seq<seq<Cell>> := [];
    for y := 0 to Rows
      invariant |rows| == y
      invariant forall k :: 0 <= k < y ==> rows[k] == source[k]
    {
      rows := rows + [source[y][..]];
    }
    copy := rows;
  }

  // ---------------------------------------------------------------------------
  // Finding a king

  /** The first cell holding `target` in row y at column x or later. */
  function FindInRow(b: Board, target: Piece, y: int, x: int): (r: Option<Pos>)
    requires 0 <= y < Rows && 0 <= x <= Cols
    decreases Cols - x
    ensures r.Some? ==> r.value.y == y && x <= r.value.x < Cols && b[y][r.value.x] == Some(target)
    ensures r.Some? ==> forall k :: x <= k < r.value.x ==> b[y][k] != Some(target)
    ensures r.None? ==> forall k :: x <= k < Cols ==> b[y][k] != Some(target)
  {
    if x == Cols then None
    else if b[y][x] == Some(target) then Some(Pos(x, y))
    else FindInRow(b, target, y, x + 1)
  }

  /** The first cell holding `target`, in row-major order from row y on. */
  function FindFrom(b: Board, target: Piece, y: int): (r: Option<Pos>)
    requires 0 <= y <= Rows
    decreases Rows - y
    ensures r.Some? ==> InBounds(r.value.x, r.value.y) && y <= r.value.y && At(b, r.value) == Some(target)
    ensures r.Some? ==> forall q: Pos :: InBounds(q.x, q.y) && y <= q.y && Before(q, r.value) ==> At(b, q) != Some(target)
    ensures r.None? ==> forall q: Pos :: InBounds(q.x, q.y) && y <= q.y ==> At(b, q) != Some(target)
  {
    if y == Rows then None
    else match FindInRow(b, target, y, 0)
      case Some(p) => Some(p)
      case None => FindFrom(b, target, y + 1)
  }

  /** Where the king of colour c stands: the first one in row-major order, or
      none when that king is not on the board. */
  function KingPosition(b: Board, c: Color): (r: Option<Pos>)
    ensures r.Some? ==> InBounds(r.value.x, r.value.y) && At(b, r.value) == Some(Piece(King, c))
    ensures r.Some? ==> forall q: Pos :: Before(q, r.value) ==> At(b, q) != Some(Piece(King, c))
    ensures r.None? <==> forall q: Pos :: At(b, q) != Some(Piece(King, c))
  {
    FindFrom(b, Piece(King, c), 0)
  }

  /** The scan of the source: rows top to bottom, columns left to right,
      returning at the first match. */
  method GetKingPosition(b: Board, c: Color) returns (r: Option<Pos>)
    ensures r == KingPosition(b, c)
  {
    var target := Piece(King, c);
    for y := 0 to Rows
      invariant KingPosition(b, c) == FindFrom(b, target, y)
    {
      r := ScanRow(b, target, y);
      if r.Some? {
        return;
      }
    }
    r := None;
  }

  /** The inner loop of the king search, over the columns of row y. */
  method ScanRow(b: Board, target: Piece, y: int) returns (r: Option<Pos>)
    requires 0 <= y < Rows
    ensures r == FindInRow(b, target, y, 0)
  {
    for x := 0 to Cols
      invariant FindInRow(b, target, y, 0) == FindInRow(b, target, y, x)
    {
      if b[y][x] == Some(target) {
        return Some(Pos(x, y));
      }
    }
    return None;
  }
}
