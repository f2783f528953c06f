// The board component's input rules: which squares light up when a piece or a
// hand kind is picked, how a click is interpreted, and when promotion is forced,
// offered or impossible. The human always plays sente and the program gote.

module Selection {
  import opened PieceTypes
  import opened BoardState
  import opened Moves

  const PlayerSide: Player := Sente
  const AISide: Player := Gote

  // ---------------------------------------------------------------------------
  // Promotion decision for a clicked board move

  datatype Promotion = Forced | Offered | Unpromoted

  /** Forced promotion wins; otherwise the player is asked whenever promotion is
      possible; otherwise the piece moves as it is. */
  function PromotionFor(k: Kind, owner: Player, fromRow: int, toRow: int): (d: Promotion)
    ensures d == Forced <==> MustPromote(k, owner, toRow)
    ensures d == Offered <==> CanPromoteMove(k, owner, fromRow, toRow) && !MustPromote(k, owner, toRow)
    ensures d == Unpromoted <==> !CanPromoteMove(k, owner, fromRow, toRow)
  {
    MustPromoteImpliesCanPromote(k, owner, fromRow, toRow);
    if MustPromote(k, owner, toRow) then Forced
    else if CanPromoteMove(k, owner, fromRow, toRow) then Offered
    else Unpromoted
  }

  // ---------------------------------------------------------------------------
  // Highlighted squares

  /** The highlight test: some listed move goes from `at` to the square. */
  function ListedFrom(legal: seq<Move>, at: Pos): Pos -> bool
  {
    (q: Pos) => exists lm <- legal :: lm.from == Some(at) && lm.to == q
  }

  /** The destinations shown for the player's piece on `at`: its pseudo-legal
      targets, in generation order, that some legal move from `at` reaches. */
  function Highlights(b: Board, cap: Captured, at: Pos): seq<Pos>
    requires OnBoard(at)
  {
    Filter(PieceMoves(b, PlayerSide, at.row, at.col), ListedFrom(LegalMoves(b, cap, PlayerSide), at), 0)
  }

  function IsDropOf(k: BaseKind): Move -> bool
  {
    (m: Move) => m.from.None? && m.dropPiece == Some(k)
  }

  /** The squares shown for a hand kind: the destinations of the legal drops of
      that kind, in the order the legal list has them. */
  function DropTargets(b: Board, cap: Captured, k: BaseKind): seq<Pos>
  {
    var ds := Filter(LegalMoves(b, cap, PlayerSide), IsDropOf(k), 0);
    seq(|ds|, i requires 0 <= i < |ds| => ds[i].to)
  }

  /** What the board shows for a selection: the drop targets of a picked hand
      kind, else the targets of a picked piece, else nothing. */
  function Shown(g: GameState, selected: Option<Pos>, drop: Option<BaseKind>): seq<Pos>
    requires selected.Some? ==> OnBoard(selected.value)
  {
    match drop
    case Some(k) => DropTargets(g.board, g.captured, k)
    case None =>
      match selected
      case Some(at) => Highlights(g.board, g.captured, at)
      case None => []
  }

  /** A square is highlighted for the piece on `at` exactly when a legal move
      goes from `at` to it; the pseudo-legal pre-filter loses nothing. */
  lemma HighlightsExactly(b: Board, cap: Captured, at: Pos)
    requires OnBoard(at)
    ensures forall q :: q in Highlights(b, cap, at) <==>
      exists lm <- LegalMoves(b, cap, PlayerSide) :: lm.from == Some(at) && lm.to == q
  {
    var legal := LegalMoves(b, cap, PlayerSide);
    var ts := PieceMoves(b, PlayerSide, at.row, at.col);
    var keep := ListedFrom(legal, at);
    FilterSound(ts, keep, 0);
    forall q | exists lm <- legal :: lm.from == Some(at) && lm.to == q
      ensures q in Highlights(b, cap, at)
    {
      var lm :| lm in legal && lm.from == Some(at) && lm.to == q;
      LegalMoveSound(b, cap, PlayerSide, lm);
      assert BoardCandidate(b, PlayerSide, lm);
      assert q in ts;
      var j :| 0 <= j < |ts| && ts[j] == q;
      assert keep(ts[j]);
      FilterComplete(ts, keep, 0, j);
    }
  }

  /** A square is a drop target for k exactly when dropping k there is legal. */
  lemma DropTargetsExactly(b: Board, cap: Captured, k: BaseKind)
    ensures forall q :: q in DropTargets(b, cap, k) <==> DropMove(k, q) in LegalMoves(b, cap, PlayerSide)
  {
    forall q ensures q in DropTargets(b, cap, k) <==> DropMove(k, q) in LegalMoves(b, cap, PlayerSide) {
      if q in DropTargets(b, cap, k) {
        DropTargetIsLegal(b, cap, k, q);
      }
      if DropMove(k, q) in LegalMoves(b, cap, PlayerSide) {
        LegalDropIsTarget(b, cap, k, q);
      }
    }
  }

  lemma DropTargetIsLegal(b: Board, cap: Captured, k: BaseKind, q: Pos)
    requires q in DropTargets(b, cap, k)
    ensures DropMove(k, q) in LegalMoves(b, cap, PlayerSide)
  {
    var legal := LegalMoves(b, cap, PlayerSide);
    var ds := Filter(legal, IsDropOf(k), 0);
    var i :| 0 <= i < |ds| && ds[i].to == q;
    FilterSound(legal, IsDropOf(k), 0);
    assert ds[i] in legal && IsDropOf(k)(ds[i]);
    LegalMoveSound(b, cap, PlayerSide, ds[i]);
    assert DropCandidate(b, cap, PlayerSide, ds[i]);
  }

  lemma LegalDropIsTarget(b: Board, cap: Captured, k: BaseKind, q: Pos)
    requires DropMove(k, q) in LegalMoves(b, cap, PlayerSide)
    ensures q in DropTargets(b, cap, k)
  {
    var legal := LegalMoves(b, cap, PlayerSide);
    var ds := Filter(legal, IsDropOf(k), 0);
    var j :| 0 <= j < |legal| && legal[j] == DropMove(k, q);
    FilterComplete(legal, IsDropOf(k), 0, j);
    var i :| 0 <= i < |ds| && ds[i] == DropMove(k, q);
    assert DropTargets(b, cap, k)[i] == q;
  }

  // ---------------------------------------------------------------------------
  // Interpreting a click on a square

  datatype Effect =
    | Ignored              // nothing changes
    | DropCancelled        // the picked hand kind and its targets are cleared
    | Play(m: Move)        // the move is played at once
    | Offer(m: Move)       // the promotion question is asked for m
    | Select(at: Pos)      // the piece on `at` becomes the selection
    | Deselect             // the selection and its targets are cleared

  /** The board move the component builds for a click from `from` to `to`. */
  function ClickedMove(b: Board, from: Pos, to: Pos): Move
    requires OnBoard(from) && OnBoard(to) && At(b, from).Occupied?
  {
    Move(Some(from), to, At(b, from).piece.kind, false, At(b, to), None)
  }

  predicate OwnPiece(s: Square)
  {
    s.Occupied? && s.piece.owner == PlayerSide
  }

  /** The click rules: ignored while the program thinks, off turn, or once the game
      is over; with a hand kind picked, a drop onto a shown empty square (a click on
      an occupied square does nothing, any other click cancels); with a piece
      picked, a move to a shown square with the promotion decision, or a new
      selection, or a deselection; with nothing picked, a selection of an own piece. */
  function Click(g: GameState, thinking: bool, selected: Option<Pos>, drop: Option<BaseKind>,
                 shown: seq<Pos>, row: int, col: int): (e: Effect)
    requires InBounds(row, col)
    requires selected.Some? ==> OnBoard(selected.value) && At(g.board, selected.value).Occupied?
    ensures thinking || g.turn != PlayerSide || g.status == Status.Checkmate || g.status == Status.Stalemate
      ==> e == Ignored
    ensures drop.Some? && g.board[row][col].Occupied? ==> e == Ignored
    ensures e.Play? || e.Offer? ==> Pos(row, col) in shown && e.m.to == Pos(row, col)
    ensures e.Select? ==> e.at == Pos(row, col) && OwnPiece(g.board[row][col])
  {
    var to := Pos(row, col);
    var square := g.board[row][col];
    if thinking || g.turn != PlayerSide || g.status == Status.Checkmate || g.status == Status.Stalemate then Ignored
    else if drop.Some? then
      if square.Occupied? then Ignored
      else if to !in shown then DropCancelled
      else Play(DropMove(drop.value, to))
    else if selected.Some? then
      var from := selected.value;
      if to in shown then
        var m := ClickedMove(g.board, from, to);
        match PromotionFor(m.piece, PlayerSide, from.row, row)
        case Forced => Play(m.(promote := true))
        case Offered => Offer(m)
        case Unpromoted => Play(m)
      else if OwnPiece(square) then Select(to)
      else Deselect
    else if OwnPiece(square) then Select(to)
    else Ignored
  }

  /** With the shown squares up to date, every move a click plays is a legal move of
      the player, and a move offered for promotion is listed promoted or unpromoted. */
  lemma ClickPlaysLegal(g: GameState, thinking: bool, selected: Option<Pos>, drop: Option<BaseKind>,
                        row: int, col: int)
    requires InBounds(row, col)
    requires selected.Some? ==> OnBoard(selected.value) && At(g.board, selected.value).Occupied?
    ensures var e := Click(g, thinking, selected, drop, Shown(g, selected, drop), row, col);
      (e.Play? ==> e.m in LegalMoves(g.board, g.captured, PlayerSide)) &&
      (e.Offer? ==> e.m.from.Some? &&
                    CanPromoteMove(e.m.piece, PlayerSide, e.m.from.value.row, row) &&
                    !MustPromote(e.m.piece, PlayerSide, row) &&
                    (e.m in LegalMoves(g.board, g.captured, PlayerSide) ||
                     e.m.(promote := true) in LegalMoves(g.board, g.captured, PlayerSide)))
  {
    var shown := Shown(g, selected, drop);
    var e := Click(g, thinking, selected, drop, shown, row, col);
    var to := Pos(row, col);
    if e.Play? || e.Offer? {
      if drop.Some? {
        DropTargetsExactly(g.board, g.captured, drop.value);
      } else {
        var from := selected.value;
        HighlightsExactly(g.board, g.captured, from);
        var lm :| lm in LegalMoves(g.board, g.captured, PlayerSide) && lm.from == Some(from) && lm.to == to;
        LegalMoveSound(g.board, g.captured, PlayerSide, lm);
        assert BoardCandidate(g.board, PlayerSide, lm);
        var m := ClickedMove(g.board, from, to);
        assert lm == m.(promote := lm.promote);
      }
    }
  }

  // ---------------------------------------------------------------------------
  // The computations the click handlers run

  /** The targets computed when the player picks the piece on `at`. */
  method PieceHighlights(b: Board, cap: Captured, at: Pos) returns (targets: seq<Pos>)
    requires OnBoard(at)
    ensures targets == Highlights(b, cap, at)
  {
    var moves := GetPieceMoves(b, PlayerSide, at.row, at.col);
    var allLegal := GetAllLegalMoves(b, cap, PlayerSide);
    targets := Filter(moves, ListedFrom(allLegal, at), 0);
  }

  /** The targets computed when the player picks a hand kind. */
  method DropHighlights(b: Board, cap: Captured, k: BaseKind) returns (targets: seq<Pos>)
    ensures targets == DropTargets(b, cap, k)
  {
    var allLegal := GetAllLegalMoves(b, cap, PlayerSide);
    var dropMoves := Filter(allLegal, IsDropOf(k), 0);
    targets := seq(|dropMoves|, i requires 0 <= i < |dropMoves| => dropMoves[i].to);
  }
}
