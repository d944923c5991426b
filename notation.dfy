/** The two text codecs the engine bridge needs: the Xiangqi FEN of a position
    (ten rows of one-letter codes with digit runs for empty squares, joined by
    '/', then the side to move and the fixed tail " - - 0 1"), and the reading
    of a UCI move such as "h2e2" into grid coordinates. UCI counts ranks from
    1 at Red's side (the bottom, row 9) to 10 at Black's side (row 0), so
    row = 10 - rank; files a to i are columns 0 to 8. */
module Notation {
  import opened Board
  import opened Rules

  // ---------------------------------------------------------------------------
  // Digits and numbers

  predicate IsDigit(ch: char) {
    '0' <= ch <= '9'
  }

  function DigitChar(n: int): (ch: char)
    requires 0 <= n <= 9
    ensures IsDigit(ch)
  {
    (48 + n) as char
  }

  function DigitValue(ch: char): (n: nat)
    requires IsDigit(ch)
    ensures n <= 9 && DigitChar(n) == ch
  {
    ch as int - 48
  }

  // ---------------------------------------------------------------------------
  // FEN rows

  /** The encoding of row[x..] when `empty` empty squares are still pending:
      an empty square adds to the count; a piece first writes the pending
      count (when non-zero) and then its letter; the end of the row writes
      the count that is left. */
  function RowFrom(row: seq<Cell>, x: nat, empty: nat): string
    requires x <= |row| && empty + (|row| - x) <= 9
    decreases |row| - x
  {
    if x == |row| then
      if empty > 0 then [DigitChar(empty)] else []
    else if row[x].None? then RowFrom(row, x + 1, empty + 1)
    else if empty > 0 then [DigitChar(empty), Letter(row[x].value)] + RowFrom(row, x + 1, 0)
    else [Letter(row[x].value)] + RowFrom(row, x + 1, 0)
  }

  /** The FEN text of one row of the board. */
  function RowFen(row: seq<Cell>): string
    requires |row| <= 9
  {
    RowFrom(row, 0, 0)
  }

  /** The rows joined by '/'. */
  function Join(rows: seq<string>): string {
    if rows == [] then []
    else if |rows| == 1 then rows[0]
    else rows[0] + "/" + Join(rows[1..])
  }

  /** The FEN rows of the board, top row first. */
  function FenRows(b: Board): (rows: seq<string>)
    ensures |rows| == Rows
  {
    seq(Rows, y requires 0 <= y < Rows => RowFen(b[y]))
  }

  /** The side-to-move field: 'w' for Red, 'b' otherwise. */
  function SideLetter(side: Color): char {
    if side == Red then 'w' else 'b'
  }

  /** The FEN of a position with `side` to move. */
  function Fen(b: Board, side: Color): string {
    Join(FenRows(b)) + [' ', SideLetter(side)] + " - - 0 1"
  }

  /** The source's row loop, with its running `empty` counter. */
  method EncodeRow(row: seq<Cell>) returns (s: string)
    requires |row| == Cols
    ensures s == RowFen(row)
  {
    s := [];
    var empty := 0;
    for x := 0 to Cols
      invariant empty <= x
      invariant s + RowFrom(row, x, empty) == RowFen(row)
    {
      var p := row[x];
      if p.None? {
        empty := empty + 1;
      } else {
        if empty > 0 {
          assert RowFrom(row, x, empty) == [DigitChar(empty), Letter(p.value)] + RowFrom(row, x + 1, 0);
          s := s + [DigitChar(empty)];
          empty := 0;
        } else {
          assert RowFrom(row, x, empty) == [Letter(p.value)] + RowFrom(row, x + 1, 0);
        }
        s := s + [Letter(p.value)];
      }
    }
    if empty > 0 {
      s := s + [DigitChar(empty)];
    }
  }

  /** The source's boardToFen: every row encoded, joined by '/', followed by
      the side to move and " - - 0 1". */
  method BoardToFen(b: Board, side: Color) returns (s: string)
    ensures s == Fen(b, side)
  {
    var rows: seq<string> := [];
    for y := 0 to Rows
      invariant rows == FenRows(b)[..y]
    {
      var row := EncodeRow(b[y]);
      rows := rows + [row];
    }
    assert rows == FenRows(b);
    var letter := if side == Red then 'w' else 'b';
    s := Join(rows) + [' ', letter] + " - - 0 1";
  }

  // ---------------------------------------------------------------------------
  // What a FEN row says: its expansion gives back the row

  /** The piece a one-letter code stands for. */
  function PieceOfLetter(ch: char): Cell {
    var kind :=
      if ch == 'r' || ch == 'R' then Some(Rook)
      else if ch == 'n' || ch == 'N' then Some(Horse)
      else if ch == 'b' || ch == 'B' then Some(Elephant)
      else if ch == 'a' || ch == 'A' then Some(Advisor)
      else if ch == 'k' || ch == 'K' then Some(King)
      else if ch == 'c' || ch == 'C' then Some(Cannon)
      else if ch == 'p' || ch == 'P' then Some(Pawn)
      else None;
    if kind.None? then None else Some(Piece(kind.value, LetterColor(ch)))
  }

  lemma PieceOfLetterInverse(p: Piece)
    ensures PieceOfLetter(Letter(p)) == Some(p)
    ensures !IsDigit(Letter(p)) && Letter(p) != '/' && Letter(p) != ' '
  {
  }

  /** A run of n empty squares. */
  function Blanks(n: nat): (r: seq<Cell>)
    ensures |r| == n && forall i :: 0 <= i < n ==> r[i].None?
  {
    seq(n, _ => None)
  }

  /** The cells a FEN row stands for: a digit n is n empty squares, a letter
      is its piece. */
  function Expand(s: string): seq<Cell> {
    if s == [] then []
    else if IsDigit(s[0]) then Blanks(DigitValue(s[0])) + Expand(s[1..])
    else [PieceOfLetter(s[0])] + Expand(s[1..])
  }

  lemma {:induction false} ExpandAppend(s: string, t: string)
    ensures Expand(s + t) == Expand(s) + Expand(t)
    decreases |s|
  {
    if s != [] {
      assert (s + t)[0] == s[0] && (s + t)[1..] == s[1..] + t;
      ExpandAppend(s[1..], t);
      var head := if IsDigit(s[0]) then Blanks(DigitValue(s[0])) else [PieceOfLetter(s[0])];
      assert Expand(s + t) == head + (Expand(s[1..]) + Expand(t));
      assert Expand(s) == head + Expand(s[1..]);
    } else {
      assert s + t == t;
    }
  }

  lemma {:induction false} ExpandRowFrom(row: seq<Cell>, x: nat, empty: nat)
    requires x <= |row| && empty + (|row| - x) <= 9
    ensures Expand(RowFrom(row, x, empty)) == Blanks(empty) + row[x..]
    decreases |row| - x
  {
    if x == |row| {
      if empty > 0 {
        assert Expand([DigitChar(empty)]) == Blanks(empty) + Expand([]);
      }
    } else if row[x].None? {
      ExpandRowFrom(row, x + 1, empty + 1);
      assert Blanks(empty + 1) + row[x + 1..] == Blanks(empty) + row[x..];
    } else {
      var letter := Letter(row[x].value);
      PieceOfLetterInverse(row[x].value);
      ExpandRowFrom(row, x + 1, 0);
      assert Expand([letter]) == [row[x]];
      if empty > 0 {
        assert Expand([DigitChar(empty)]) == Blanks(empty);
        ExpandAppend([DigitChar(empty)], [letter]);
        ExpandAppend([DigitChar(empty), letter], RowFrom(row, x + 1, 0));
      } else {
        ExpandAppend([letter], RowFrom(row, x + 1, 0));
      }
      assert row[x..] == [row[x]] + row[x + 1..];
    }
  }

  /** Expanding a row's FEN gives back exactly its nine cells. */
  lemma RowFenRoundTrip(row: seq<Cell>)
    requires |row| == Cols
    ensures Expand(RowFen(row)) == row
  {
    ExpandRowFrom(row, 0, 0);
    assert row[0..] == row;
  }

  /** No digit in a FEN row is followed by another digit. */
  predicate NoAdjacentDigits(s: string) {
    forall i :: 0 <= i < |s| - 1 && IsDigit(s[i]) ==> !IsDigit(s[i + 1])
  }

  /** No row separator or field separator inside a row. */
  predicate NoSeparators(s: string) {
    forall i :: 0 <= i < |s| ==> s[i] != '/' && s[i] != ' '
  }

  lemma {:induction false} RowFromShape(row: seq<Cell>, x: nat, empty: nat)
    requires x <= |row| && empty + (|row| - x) <= 9
    ensures NoAdjacentDigits(RowFrom(row, x, empty)) && NoSeparators(RowFrom(row, x, empty))
    ensures empty == 0 && x < |row| && row[x].Some? ==> !IsDigit(RowFrom(row, x, empty)[0])
    decreases |row| - x
  {
    if x == |row| {
    } else if row[x].None? {
      RowFromShape(row, x + 1, empty + 1);
    } else {
      RowFromShape(row, x + 1, 0);
      PieceOfLetterInverse(row[x].value);
      var rest := RowFrom(row, x + 1, 0);
      var head := if empty > 0 then [DigitChar(empty), Letter(row[x].value)] else [Letter(row[x].value)];
      assert RowFrom(row, x, empty) == head + rest;
      ConcatShape(head, rest);
    }
  }

  /** Gluing a text ending in a letter to a text with the two properties
      keeps them. */
  lemma ConcatShape(head: string, rest: string)
    requires |head| > 0 && !IsDigit(head[|head| - 1])
    requires NoAdjacentDigits(head) && NoSeparators(head)
    requires NoAdjacentDigits(rest) && NoSeparators(rest)
    ensures NoAdjacentDigits(head + rest) && NoSeparators(head + rest)
  {
    var s := head + rest;
    forall i | 0 <= i < |s| - 1 && IsDigit(s[i]) ensures !IsDigit(s[i + 1]) {
      if i >= |head| {
        assert s[i] == rest[i - |head|] && s[i + 1] == rest[i + 1 - |head|];
      }
    }
  }

  /** A FEN row never has two digit runs side by side and holds no '/' or
      space. */
  lemma RowFenShape(row: seq<Cell>)
    requires |row| <= 9
    ensures NoAdjacentDigits(RowFen(row)) && NoSeparators(RowFen(row))
  {
    RowFromShape(row, 0, 0);
  }

  // ---------------------------------------------------------------------------
  // What the whole FEN says: ten rows split back out of it

  /** The position of the first c in s. */
  function IndexOf(s: string, c: char): (i: nat)
    requires c in s
    ensures i < |s| && s[i] == c && c !in s[..i]
  {
    if s[0] == c then 0 else 1 + IndexOf(s[1..], c)
  }

  /** The pieces of s between the separators '/'. */
  function Split(s: string): seq<string>
    decreases |s|
  {
    if '/' in s then
      var i := IndexOf(s, '/');
      [s[..i]] + Split(s[i + 1..])
    else [s]
  }

  lemma {:induction false} SplitJoin(rows: seq<string>)
    requires |rows| > 0
    requires forall k :: 0 <= k < |rows| ==> '/' !in rows[k]
    ensures Split(Join(rows)) == rows
    decreases |rows|
  {
    if |rows| > 1 {
      var s := Join(rows);
      assert s == rows[0] + ("/" + Join(rows[1..]));
      assert s[|rows[0]|] == '/';
      assert s[..|rows[0]|] == rows[0];
      assert IndexOf(s, '/') == |rows[0]|;
      assert s[|rows[0]| + 1..] == Join(rows[1..]);
      SplitJoin(rows[1..]);
    }
  }

  /** The FEN is the ten row texts joined by '/', one space, the side letter
      and " - - 0 1"; splitting the part before the space at '/' gives the ten
      rows back, and each row expands to the board's row. */
  lemma FenSpec(b: Board, side: Color)
    ensures var board := Join(FenRows(b));
      Fen(b, side) == board + [' ', SideLetter(side)] + " - - 0 1"
      && ' ' !in board
      && Split(board) == FenRows(b)
      && forall y :: 0 <= y < Rows ==> Expand(Split(board)[y]) == b[y] && NoAdjacentDigits(Split(board)[y])
  {
    var rows := FenRows(b);
    forall k | 0 <= k < |rows| ensures NoSeparators(rows[k]) && NoAdjacentDigits(rows[k]) && Expand(rows[k]) == b[k] {
      RowFenShape(b[k]);
      RowFenRoundTrip(b[k]);
    }
    SplitJoin(rows);
    JoinNoSpace(rows);
  }

  lemma {:induction false} JoinNoSpace(rows: seq<string>)
    requires forall k :: 0 <= k < |rows| ==> NoSeparators(rows[k])
    ensures ' ' !in Join(rows)
    decreases |rows|
  {
    if |rows| > 1 {
      JoinNoSpace(rows[1..]);
      assert Join(rows) == rows[0] + "/" + Join(rows[1..]);
    }
  }

  // ---------------------------------------------------------------------------
  // UCI moves

  predicate IsFile(ch: char) {
    'a' <= ch <= 'i'
  }

  /** The column a file letter names. */
  function FileIndex(ch: char): (x: int)
    requires IsFile(ch)
    ensures 0 <= x < Cols
  {
    ch as int - 'a' as int
  }

  function FileChar(x: int): (ch: char)
    requires 0 <= x < Cols
    ensures IsFile(ch) && FileIndex(ch) == x
  {
    ('a' as int + x) as char
  }

  /** The end of the run of digits in s starting at i. */
  function DigitsEnd(s: string, i: nat): (j: nat)
    requires i <= |s|
    ensures i <= j <= |s|
    ensures forall k :: i <= k < j ==> IsDigit(s[k])
    ensures j < |s| ==> !IsDigit(s[j])
    decreases |s| - i
  {
    if i < |s| && IsDigit(s[i]) then DigitsEnd(s, i + 1) else i
  }

  /** The decimal value of a run of digits. */
  function Number(d: string): nat
    requires forall k :: 0 <= k < |d| ==> IsDigit(d[k])
  {
    if d == [] then 0 else 10 * Number(d[..|d| - 1]) + DigitValue(d[|d| - 1])
  }

  /** The move a UCI text names: a file letter, a run of digits, a file letter
      and a run of digits at the start of the text (anything may follow),
      with both ranks between 1 and 10; nothing otherwise. */
  function ParseUciMove(s: string): (r: Option<Move>)
    ensures r.Some? ==> InBounds(r.value.from.x, r.value.from.y) && InBounds(r.value.to.x, r.value.to.y)
    ensures r.Some? ==> |s| >= 4 && s[0] == FileChar(r.value.from.x)
  {
    if |s| == 0 || !IsFile(s[0]) then None
    else
      var j := DigitsEnd(s, 1);
      if j == 1 || j == |s| || !IsFile(s[j]) then None
      else
        var k := DigitsEnd(s, j + 1);
        if k == j + 1 then None
        else
          var fromRank := Number(s[1..j]);
          var toRank := Number(s[j + 1..k]);
          if fromRank < 1 || fromRank > 10 || toRank < 1 || toRank > 10 then None
          else Some(Move(Pos(FileIndex(s[0]), 10 - fromRank), Pos(FileIndex(s[j]), 10 - toRank)))
  }

  /** The rank text of a row: "1" for row 9 up to "10" for row 0. */
  function RankText(y: int): (t: string)
    requires 0 <= y < Rows
    ensures 1 <= |t| <= 2 && forall k :: 0 <= k < |t| ==> IsDigit(t[k])
  {
    if y == 0 then "10" else [DigitChar(10 - y)]
  }

  /** The UCI text of an on-board move. */
  function Uci(m: Move): string
    requires InBounds(m.from.x, m.from.y) && InBounds(m.to.x, m.to.y)
  {
    [FileChar(m.from.x)] + RankText(m.from.y) + [FileChar(m.to.x)] + RankText(m.to.y)
  }

  lemma RankNumber(y: int)
    requires 0 <= y < Rows
    ensures Number(RankText(y)) == 10 - y
  {
    if y == 0 {
      assert "10"[..1] == "1";
      assert Number("1") == 10 * Number([]) + 1;
    } else {
      assert [DigitChar(10 - y)][..0] == [];
    }
  }

  /** The digit run that starts at i and is followed by a non-digit or the end. */
  lemma {:induction false} DigitsEndOf(s: string, i: nat, d: string)
    requires i + |d| <= |s| && s[i..i + |d|] == d
    requires forall k :: 0 <= k < |d| ==> IsDigit(d[k])
    requires i + |d| == |s| || !IsDigit(s[i + |d|])
    ensures DigitsEnd(s, i) == i + |d|
    decreases |d|
  {
    if |d| > 0 {
      assert s[i] == d[0] && s[i + 1..i + |d|] == d[1..];
      DigitsEndOf(s, i + 1, d[1..]);
    }
  }

  /** Reading back the UCI text of an on-board move gives the move, whatever
      follows it, as long as it does not start with a digit. */
  lemma UciRoundTrip(m: Move, tail: string)
    requires InBounds(m.from.x, m.from.y) && InBounds(m.to.x, m.to.y)
    requires tail == [] || !IsDigit(tail[0])
    ensures ParseUciMove(Uci(m) + tail) == Some(m)
  {
    var s := Uci(m) + tail;
    var a, b := RankText(m.from.y), RankText(m.to.y);
    var j := 1 + |a|;
    assert s == [FileChar(m.from.x)] + a + [FileChar(m.to.x)] + b + tail;
    assert s[1..j] == a;
    assert s[j] == FileChar(m.to.x);
    DigitsEndOf(s, 1, a);
    assert s[j + 1..j + 1 + |b|] == b;
    DigitsEndOf(s, j + 1, b);
    RankNumber(m.from.y);
    RankNumber(m.to.y);
  }

  /** The text is refused when it is empty, when its first or its second file
      letter is outside a to i, or when a rank is outside 1 to 10. */
  lemma UciRejects(s: string)
    ensures |s| == 0 ==> ParseUciMove(s) == None
    ensures |s| > 0 && !IsFile(s[0]) ==> ParseUciMove(s) == None
    ensures |s| > 0 && IsFile(s[0]) && DigitsEnd(s, 1) < |s| && !IsFile(s[DigitsEnd(s, 1)]) ==> ParseUciMove(s) == None
    ensures |s| > 0 && IsFile(s[0]) && 1 < DigitsEnd(s, 1) && (Number(s[1..DigitsEnd(s, 1)]) < 1 || Number(s[1..DigitsEnd(s, 1)]) > 10) ==> ParseUciMove(s) == None
  {
  }

  /** An accepted text names its squares by row = 10 - rank and column = the
      file's index in a to i, the second file letter coming right after the
      first rank's digits. */
  lemma UciAccepts(s: string)
    requires ParseUciMove(s).Some?
    ensures var m := ParseUciMove(s).value; var j := DigitsEnd(s, 1);
      1 < j < |s| && IsFile(s[j]) && j + 1 < DigitsEnd(s, j + 1)
      && m.from == Pos(FileIndex(s[0]), 10 - Number(s[1..j]))
      && m.to == Pos(FileIndex(s[j]), 10 - Number(s[j + 1..DigitsEnd(s, j + 1)]))
  {
  }
}
