/** The standard starting position, empty hands, copies of a position, and
    per-kind piece counting on a board. */
module BoardState {
  import opened PieceTypes

  function SetSquare(b: Board, r: int, c: int, s: Square): Board
    requires 0 <= r < 9 && 0 <= c < 9
  {
    b[r := b[r][c := s]]
  }

  /** Setting a square changes that square and no other. */
  lemma SetSquareAt(b: Board, r: int, c: int, s: Square)
    requires 0 <= r < 9 && 0 <= c < 9
    ensures SetSquare(b, r, c, s)[r][c] == s
    ensures forall i, j | 0 <= i < 9 && 0 <= j < 9 && (i != r || j != c) :: SetSquare(b, r, c, s)[i][j] == b[i][j]
  {
  }

  function EmptyBoard(): (b: Board)
    ensures forall r, c | 0 <= r < 9 && 0 <= c < 9 :: b[r][c] == Empty
  {
    seq(9, _ => seq(9, _ => Empty))
  }

  /** The back rank, symmetric about the king's file: lance, knight, silver,
      gold, king, gold, silver, knight, lance. */
  function BackRank(c: int): BaseKind
  {
    var d := if c < 4 then 4 - c else c - 4;
    if d == 0 then King else if d == 1 then Gold else if d == 2 then Silver
    else if d == 3 then Knight else Lance
  }

  /** What the starting position holds at (r, c). */
  function InitialSquare(r: int, c: int): Square
  {
    if r == 0 then Occupied(Piece(Base(BackRank(c)), Gote))
    else if r == 1 then
      (if c == 1 then Occupied(Piece(Base(Rook), Gote))
       else if c == 7 then Occupied(Piece(Base(Bishop), Gote)) else Empty)
    else if r == 2 then Occupied(Piece(Base(Pawn), Gote))
    else if r == 6 then Occupied(Piece(Base(Pawn), Sente))
    else if r == 7 then
      (if c == 1 then Occupied(Piece(Base(Bishop), Sente))
       else if c == 7 then Occupied(Piece(Base(Rook), Sente)) else Empty)
    else if r == 8 then Occupied(Piece(Base(BackRank(c)), Sente))
    else Empty
  }

  function InitialBoard(): (b: Board)
    ensures forall r, c | 0 <= r < 9 && 0 <= c < 9 :: b[r][c] == InitialSquare(r, c)
  {
    seq(9, r => seq(9, c => InitialSquare(r, c)))
  }

  /** Fills a fresh empty board square by square, as the program does. */
  method CreateInitialBoard() returns (board: Board)
    ensures board == InitialBoard()
  {
    board := EmptyBoard();
    board := SetSquare(board, 0, 0, Occupied(Piece(Base(Lance), Gote)));
    board := SetSquare(board, 0, 1, Occupied(Piece(Base(Knight), Gote)));
    board := SetSquare(board, 0, 2, Occupied(Piece(Base(Silver), Gote)));
    board := SetSquare(board, 0, 3, Occupied(Piece(Base(Gold), Gote)));
    board := SetSquare(board, 0, 4, Occupied(Piece(Base(King), Gote)));
    board := SetSquare(board, 0, 5, Occupied(Piece(Base(Gold), Gote)));
    board := SetSquare(board, 0, 6, Occupied(Piece(Base(Silver), Gote)));
    board := SetSquare(board, 0, 7, Occupied(Piece(Base(Knight), Gote)));
    board := SetSquare(board, 0, 8, Occupied(Piece(Base(Lance), Gote)));
    assert board[0] == InitialBoard()[0];
    board := SetSquare(board, 1, 1, Occupied(Piece(Base(Rook), Gote)));
    board := SetSquare(board, 1, 7, Occupied(Piece(Base(Bishop), Gote)));
    assert board[1] == InitialBoard()[1];
    for c := 0 to 9
      invariant forall i | 0 <= i < 2 :: board[i] == InitialBoard()[i]
      invariant forall j | 0 <= j < c :: board[2][j] == InitialSquare(2, j)
      invariant forall j | c <= j < 9 :: board[2][j] == Empty
      invariant forall i | 3 <= i < 9 :: board[i] == EmptyBoard()[i]
    {
      board := SetSquare(board, 2, c, Occupied(Piece(Base(Pawn), Gote)));
    }
    assert board[2] == InitialBoard()[2];
    for c := 0 to 9
      invariant forall i | 0 <= i < 3 :: board[i] == InitialBoard()[i]
      invariant forall j | 0 <= j < c :: board[6][j] == InitialSquare(6, j)
      invariant forall j | c <= j < 9 :: board[6][j] == Empty
      invariant forall i | 3 <= i < 9 && i != 6 :: board[i] == EmptyBoard()[i]
    {
      board := SetSquare(board, 6, c, Occupied(Piece(Base(Pawn), Sente)));
    }
    assert board[6] == InitialBoard()[6];
    board := SetSquare(board, 7, 1, Occupied(Piece(Base(Bishop), Sente)));
    board := SetSquare(board, 7, 7, Occupied(Piece(Base(Rook), Sente)));
    assert board[7] == InitialBoard()[7];
    board := SetSquare(board, 8, 0, Occupied(Piece(Base(Lance), Sente)));
    board := SetSquare(board, 8, 1, Occupied(Piece(Base(Knight), Sente)));
    board := SetSquare(board, 8, 2, Occupied(Piece(Base(Silver), Sente)));
    board := SetSquare(board, 8, 3, Occupied(Piece(Base(Gold), Sente)));
    board := SetSquare(board, 8, 4, Occupied(Piece(Base(King), Sente)));
    board := SetSquare(board, 8, 5, Occupied(Piece(Base(Gold), Sente)));
    board := SetSquare(board, 8, 6, Occupied(Piece(Base(Silver), Sente)));
    board := SetSquare(board, 8, 7, Occupied(Piece(Base(Knight), Sente)));
    board := SetSquare(board, 8, 8, Occupied(Piece(Base(Lance), Sente)));
    assert board[8] == InitialBoard()[8];
    assert forall i | 3 <= i < 6 :: board[i] == InitialBoard()[i];
  }

  /** Two boards that agree on every square are equal. */
  lemma SameBoard(a: Board, b: Board)
    requires forall r, c | 0 <= r < 9 && 0 <= c < 9 :: a[r][c] == b[r][c]
    ensures a == b
  {
    forall r | 0 <= r < 9 ensures a[r] == b[r] {
      assert forall c | 0 <= c < 9 :: a[r][c] == b[r][c];
    }
  }

  function CreateInitialCaptured(): (c: Captured)
    ensures forall p, k :: Count(HandOf(c, p), k) == 0
  {
    Captured([], [])
  }

  function CreateInitialGameState(): (g: GameState)
    ensures g.board == InitialBoard()
    ensures g.turn == Sente && g.moveHistory == [] && g.status == Playing && g.winner == None
    ensures forall p, k :: Count(HandOf(g.captured, p), k) == 0
  {
    GameState(InitialBoard(), Sente, CreateInitialCaptured(), [], Playing, None)
  }

  /** A square-by-square copy; the model's boards are values, so the copy
      is equal to the original and nothing done to it can reach the original. */
  function CloneBoard(b: Board): (r: Board)
    ensures r == b
  {
    var r := seq(9, i requires 0 <= i < 9 => seq(9, j requires 0 <= j < 9 => b[i][j]));
    SameBoard(r, b);
    r
  }

  function CloneHand(h: Hand): (r: Hand)
    ensures r == h
  {
    seq(|h|, i requires 0 <= i < |h| => h[i])
  }

  function CloneCaptured(c: Captured): (r: Captured)
    ensures r == c
  {
    Captured(CloneHand(c.sente), CloneHand(c.gote))
  }

  function CloneGameState(g: GameState): (r: GameState)
    ensures r == g
  {
    GameState(CloneBoard(g.board), g.turn, CloneCaptured(g.captured),
              seq(|g.moveHistory|, i requires 0 <= i < |g.moveHistory| => g.moveHistory[i]),
              g.status, g.winner)
  }

  // ---------------------------------------------------------------------------
  // Counting pieces by base kind (promoted pieces count under their base kind)

  function Holds(s: Square, k: BaseKind): nat
  {
    if s.Occupied? && BaseType(s.piece.kind) == k then 1 else 0
  }

  function RowCount(row: seq<Square>, k: BaseKind): nat
  {
    if |row| == 0 then 0 else RowCount(row[..|row| - 1], k) + Holds(row[|row| - 1], k)
  }

  function RowsCount(rows: seq<seq<Square>>, k: BaseKind): nat
  {
    if |rows| == 0 then 0 else RowsCount(rows[..|rows| - 1], k) + RowCount(rows[|rows| - 1], k)
  }

  function BoardCount(b: Board, k: BaseKind): nat
  {
    RowsCount(b, k)
  }

  /** Piece totals per base kind in a full set. */
  function InitialTotal(k: BaseKind): nat
  {
    match k
    case Pawn => 18
    case Lance => 4
    case Knight => 4
    case Silver => 4
    case Gold => 4
    case Rook => 2
    case Bishop => 2
    case King => 2
  }

  lemma {:induction false} RowCountUpdate(row: seq<Square>, c: int, s: Square, k: BaseKind)
    requires 0 <= c < |row|
    ensures RowCount(row[c := s], k) == RowCount(row, k) - Holds(row[c], k) + Holds(s, k)
  {
    var n := |row|;
    if c < n - 1 {
      assert row[c := s][..n - 1] == row[..n - 1][c := s];
      RowCountUpdate(row[..n - 1], c, s, k);
    } else {
      assert row[c := s][..n - 1] == row[..n - 1];
    }
  }

  lemma {:induction false} RowsCountUpdate(rows: seq<seq<Square>>, r: int, row: seq<Square>, k: BaseKind)
    requires 0 <= r < |rows|
    ensures RowsCount(rows[r := row], k) == RowsCount(rows, k) - RowCount(rows[r], k) + RowCount(row, k)
  {
    var n := |rows|;
    if r < n - 1 {
      assert rows[r := row][..n - 1] == rows[..n - 1][r := row];
      RowsCountUpdate(rows[..n - 1], r, row, k);
    } else {
      assert rows[r := row][..n - 1] == rows[..n - 1];
    }
  }

  /** Changing one square changes a kind's count by what left and what arrived. */
  lemma BoardCountUpdate(b: Board, r: int, c: int, s: Square, k: BaseKind)
    requires 0 <= r < 9 && 0 <= c < 9
    ensures BoardCount(SetSquare(b, r, c, s), k) == BoardCount(b, k) - Holds(b[r][c], k) + Holds(s, k)
  {
    RowCountUpdate(b[r], c, s, k);
    RowsCountUpdate(b, r, b[r][c := s], k);
  }

  lemma {:induction false} RowCountEmpty(row: seq<Square>, k: BaseKind)
    requires forall c | 0 <= c < |row| :: row[c] == Empty
    ensures RowCount(row, k) == 0
  {
    if |row| > 0 {
      RowCountEmpty(row[..|row| - 1], k);
    }
  }

  lemma RowCountAll(row: seq<Square>, k: BaseKind, x: BaseKind, p: Player)
    requires |row| == 9
    requires forall c | 0 <= c < 9 :: row[c] == Occupied(Piece(Base(x), p))
    ensures RowCount(row, k) == if x == k then 9 else 0
  {
    var i := 0;
    while i < 9
      invariant 0 <= i <= 9
      invariant RowCount(row[..i], k) == if x == k then i else 0
    {
      assert row[..i + 1][..i] == row[..i];
      i := i + 1;
    }
    assert row[..9] == row;
  }

  lemma RowCountStep(row: seq<Square>, i: int, k: BaseKind)
    requires 0 <= i < |row|
    ensures RowCount(row[..i + 1], k) == RowCount(row[..i], k) + Holds(row[i], k)
  {
    assert row[..i + 1][..i] == row[..i];
  }

  /** The count of a nine-square row, written out square by square. */
  lemma RowCountNine(row: seq<Square>, k: BaseKind)
    requires |row| == 9
    ensures RowCount(row, k) == Holds(row[0], k) + Holds(row[1], k) + Holds(row[2], k)
      + Holds(row[3], k) + Holds(row[4], k) + Holds(row[5], k) + Holds(row[6], k)
      + Holds(row[7], k) + Holds(row[8], k)
  {
    assert RowCount(row[..0], k) == 0;
    RowCountThree(row, 0, k);
    RowCountThree(row, 3, k);
    RowCountThree(row, 6, k);
    assert row[..9] == row;
  }

  lemma RowCountThree(row: seq<Square>, i: int, k: BaseKind)
    requires 0 <= i && i + 3 <= |row|
    ensures RowCount(row[..i + 3], k) == RowCount(row[..i], k) + Holds(row[i], k) + Holds(row[i + 1], k) + Holds(row[i + 2], k)
  {
    RowCountStep(row, i, k);
    RowCountStep(row, i + 1, k);
    RowCountStep(row, i + 2, k);
  }

  lemma RowsCountStep(rows: seq<seq<Square>>, i: int, k: BaseKind)
    requires 0 <= i < |rows|
    ensures RowsCount(rows[..i + 1], k) == RowsCount(rows[..i], k) + RowCount(rows[i], k)
  {
    assert rows[..i + 1][..i] == rows[..i];
  }

  lemma RowsCountNine(b: Board, k: BaseKind)
    ensures BoardCount(b, k) == RowCount(b[0], k) + RowCount(b[1], k) + RowCount(b[2], k)
      + RowCount(b[3], k) + RowCount(b[4], k) + RowCount(b[5], k) + RowCount(b[6], k)
      + RowCount(b[7], k) + RowCount(b[8], k)
  {
    var s: seq<seq<Square>> := b;
    assert RowsCount(s[..0], k) == 0;
    RowsCountThree(s, 0, k);
    RowsCountThree(s, 3, k);
    RowsCountThree(s, 6, k);
    assert s[..9] == s;
  }

  lemma RowsCountThree(rows: seq<seq<Square>>, i: int, k: BaseKind)
    requires 0 <= i && i + 3 <= |rows|
    ensures RowsCount(rows[..i + 3], k) == RowsCount(rows[..i], k) + RowCount(rows[i], k) + RowCount(rows[i + 1], k) + RowCount(rows[i + 2], k)
  {
    RowsCountStep(rows, i, k);
    RowsCountStep(rows, i + 1, k);
    RowsCountStep(rows, i + 2, k);
  }

  function BackRankCount(k: BaseKind): nat
  {
    match k
    case King => 1
    case Gold => 2
    case Silver => 2
    case Knight => 2
    case Lance => 2
    case _ => 0
  }

  // ---------------------------------------------------------------------------
  // Properties of the starting position

  /** How many pieces of base kind k row r of the starting position holds. */
  function InitialRowCount(r: int, k: BaseKind): nat
  {
    if r == 0 || r == 8 then BackRankCount(k)
    else if r == 1 || r == 7 then (if k == Rook || k == Bishop then 1 else 0)
    else if r == 2 || r == 6 then (if k == Pawn then 9 else 0)
    else 0
  }

  lemma InitialRow(r: int, k: BaseKind)
    requires 0 <= r < 9
    ensures RowCount(InitialBoard()[r], k) == InitialRowCount(r, k)
  {
    if r == 0 || r == 8 {
      BackRankRow(r, k);
    } else {
      RowCountNine(InitialBoard()[r], k);
    }
  }

  lemma BackRankRow(r: int, k: BaseKind)
    requires r == 0 || r == 8
    ensures RowCount(InitialBoard()[r], k) == BackRankCount(k)
  {
    RowCountNine(InitialBoard()[r], k);
    match k
    case King => {} case Rook => {} case Bishop => {} case Gold => {}
    case Silver => {} case Knight => {} case Lance => {} case Pawn => {}
  }

  /** Per-kind totals of the starting position are the full-set totals. */
  lemma InitialBoardTotals(k: BaseKind)
    ensures BoardCount(InitialBoard(), k) == InitialTotal(k)
  {
    RowsCountNine(InitialBoard(), k);
    InitialRow(0, k); InitialRow(1, k); InitialRow(2, k);
    InitialRow(3, k); InitialRow(4, k); InitialRow(5, k);
    InitialRow(6, k); InitialRow(7, k); InitialRow(8, k);
  }

  /** Exactly one king for each side: gote's at (0,4) and sente's at (8,4). */
  lemma InitialKings(r: int, c: int, p: Player)
    requires 0 <= r < 9 && 0 <= c < 9
    ensures InitialBoard()[r][c] == Occupied(Piece(Base(King), p))
        <==> (p == Gote && r == 0 && c == 4) || (p == Sente && r == 8 && c == 4)
  {
  }

  /** The starting position is point-symmetric with owners swapped. */
  lemma InitialPointSymmetry(r: int, c: int)
    requires 0 <= r < 9 && 0 <= c < 9
    ensures var s, t := InitialBoard()[r][c], InitialBoard()[8 - r][8 - c];
      s.Occupied? == t.Occupied? &&
      (s.Occupied? ==> s.piece.kind == t.piece.kind && s.piece.owner != t.piece.owner)
  {
  }

  /** Rows 0-2 hold only gote pieces, rows 6-8 only sente pieces, rows 3-5 nothing; no piece starts promoted. */
  lemma InitialCamps(r: int, c: int)
    requires 0 <= r < 9 && 0 <= c < 9
    ensures var s := InitialBoard()[r][c];
      (3 <= r <= 5 ==> s == Empty) &&
      (r == 0 || r == 2 || r == 6 || r == 8 ==> s.Occupied?) &&
      (s.Occupied? ==> (s.piece.owner == Gote <==> r <= 2) && s.piece.kind.Base?)
  {
  }
}
