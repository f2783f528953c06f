// The game-state transitions of the board component: the program's turn, the
// player's move, the promotion question and the click handlers that lead to them.
// Rendering, messages and timers are not modelled; the program's turn is split
// at its timer into the part that raises the thinking flag and the part that plays.

module GameFlow {
  import opened PieceTypes
  import opened BoardState
  import opened Moves
  import opened Choice
  import opened Selection

  /** The status of the side to move, decided in the order checkmate, stalemate,
      check. */
  function StatusAfter(b: Board, cap: Captured, p: Player): Status
  {
    if Moves.Checkmate(b, cap, p) then Status.Checkmate
    else if Moves.Stalemate(b, cap, p) then Status.Stalemate
    else if InCheck(b, p) then Check
    else Playing
  }

  /** What the status means in terms of check and the legal list: the order of
      the tests loses nothing, since checkmate and stalemate exclude each other. */
  lemma StatusAfterMeaning(b: Board, cap: Captured, p: Player)
    ensures var s := StatusAfter(b, cap, p);
      (s == Status.Checkmate <==> Moves.Checkmate(b, cap, p)) &&
      (s == Status.Stalemate <==> Moves.Stalemate(b, cap, p)) &&
      (s == Check <==> InCheck(b, p) && |LegalMoves(b, cap, p)| > 0) &&
      (s == Playing <==> !InCheck(b, p) && |LegalMoves(b, cap, p)| > 0)
  {
    NoMoveOutcome(b, cap, p);
  }

  /** The game after `mover` plays m: applyMove's board and hands, the turn passed
      on, m appended to the history, the status of the side now to move, and the
      mover recorded as the winner on checkmate. */
  function Transition(g: GameState, m: Move, mover: Player): GameState
    requires Applicable(g.board, m)
  {
    var a := Apply(g.board, g.captured, m, mover);
    var s := StatusAfter(a.board, a.captured, Opponent(mover));
    GameState(a.board, Opponent(mover), a.captured, g.moveHistory + [m], s,
              if s == Status.Checkmate then Some(mover) else g.winner)
  }

  /** A transition passes the turn, extends the history by exactly the move played,
      ends the game in checkmate exactly when the side now to move is mated, and
      changes the winner only then, to the mover. */
  lemma TransitionEffect(g: GameState, m: Move, mover: Player)
    requires Applicable(g.board, m)
    ensures var r := Transition(g, m, mover);
      r.turn == Opponent(mover) && r.turn != mover &&
      |r.moveHistory| == |g.moveHistory| + 1 && r.moveHistory[..|g.moveHistory|] == g.moveHistory &&
      r.moveHistory[|g.moveHistory|] == m &&
      (r.board, r.captured) == (Apply(g.board, g.captured, m, mover).board, Apply(g.board, g.captured, m, mover).captured) &&
      (r.status == Status.Checkmate <==> Moves.Checkmate(r.board, r.captured, r.turn)) &&
      (r.winner != g.winner ==> r.status == Status.Checkmate && r.winner == Some(mover)) &&
      (r.status == Status.Checkmate ==> r.winner == Some(mover))
  {
    var r := Transition(g, m, mover);
    StatusAfterMeaning(r.board, r.captured, r.turn);
  }

  /** A legal move keeps every piece count, board plus hands. */
  lemma TransitionConserves(g: GameState, m: Move, mover: Player, k: BaseKind)
    requires m in LegalMoves(g.board, g.captured, mover)
    ensures Applicable(g.board, m)
    ensures var r := Transition(g, m, mover); Total(r.board, r.captured, k) == Total(g.board, g.captured, k)
  {
    LegalMoveConserves(g.board, g.captured, mover, m, k);
  }

  /** The game holds the standard forty pieces (per kind, board plus both hands), and
      each hand names every kind once at most. */
  predicate StandardSet(g: GameState)
  {
    (forall k :: Total(g.board, g.captured, k) == InitialTotal(k)) &&
    DistinctKinds(g.captured.sente) && DistinctKinds(g.captured.gote)
  }

  /** The opening position holds the standard set with empty hands. */
  lemma InitialIsStandard()
    ensures StandardSet(CreateInitialGameState())
  {
    var g := CreateInitialGameState();
    forall k ensures Total(g.board, g.captured, k) == InitialTotal(k) {
      InitialBoardTotals(k);
    }
  }

  /** Every legal move keeps the standard set, so every game played from the opening
      position meets the hypotheses of Choice.HardPrefersMate. */
  lemma TransitionKeepsStandard(g: GameState, m: Move, mover: Player)
    requires StandardSet(g) && m in LegalMoves(g.board, g.captured, mover)
    ensures Applicable(g.board, m) && StandardSet(Transition(g, m, mover))
  {
    var r := Transition(g, m, mover);
    forall k ensures Total(r.board, r.captured, k) == InitialTotal(k) {
      TransitionConserves(g, m, mover, k);
    }
    ApplyKeepsDistinct(g.board, g.captured, m, mover);
  }

  /** After any move the game goes on exactly when the side to move has a move:
      the program's choice is absent only after checkmate or stalemate. */
  lemma TransitionContinues(g: GameState, m: Move, mover: Player, d: Difficulty, rand: nat -> real)
    requires Applicable(g.board, m) && RandomDraws(rand)
    ensures var r := Transition(g, m, mover);
      (r.status == Playing || r.status == Check) <==> AIMove(r.board, r.captured, r.turn, d, rand).Some?
  {
    var r := Transition(g, m, mover);
    StatusAfterMeaning(r.board, r.captured, r.turn);
    AIMoveIsLegal(r.board, r.captured, r.turn, d, rand);
  }

  // ---------------------------------------------------------------------------
  // Gated facts. Each predicate below states its fact when the counter k is 0 and
  // defers to k - 1 otherwise, so it holds exactly when the fact does (the Is and
  // By lemmas). The session keeps a counter whose value the solver does not know,
  // which keeps the whole legal-move computation behind these facts out of the
  // proofs about the session's fields.

  /** r is the game after `mover` plays m on g. */
  ghost predicate Moved(r: GameState, g: GameState, m: Move, mover: Player, k: nat)
    decreases k
  {
    if k == 0 then Applicable(g.board, m) && r == Transition(g, m, mover)
    else Moved(r, g, m, mover, k - 1)
  }

  lemma {:induction false} MovedIs(r: GameState, g: GameState, m: Move, mover: Player, k: nat)
    requires Moved(r, g, m, mover, k)
    ensures Applicable(g.board, m) && r == Transition(g, m, mover)
    decreases k
  {
    if k > 0 {
      MovedIs(r, g, m, mover, k - 1);
    }
  }

  lemma MovedBy(r: GameState, g: GameState, m: Move, mover: Player, k: nat)
    requires Applicable(g.board, m) && r == Transition(g, m, mover)
    ensures Moved(r, g, m, mover, k)
    decreases k
  {
    if k > 0 {
      MovedBy(r, g, m, mover, k - 1);
    }
  }

  /** The shown squares are those of the selection on g. */
  ghost predicate ShowsFor(shown: seq<Pos>, g: GameState, selected: Option<Pos>, drop: Option<BaseKind>, k: nat)
    decreases k
  {
    if k == 0 then (selected.Some? ==> OnBoard(selected.value)) && shown == Shown(g, selected, drop)
    else ShowsFor(shown, g, selected, drop, k - 1)
  }

  lemma {:induction false} ShowsForIs(shown: seq<Pos>, g: GameState, selected: Option<Pos>, drop: Option<BaseKind>, k: nat)
    requires ShowsFor(shown, g, selected, drop, k)
    ensures (selected.Some? ==> OnBoard(selected.value)) && shown == Shown(g, selected, drop)
    decreases k
  {
    if k > 0 {
      ShowsForIs(shown, g, selected, drop, k - 1);
    }
  }

  lemma ShowsForBy(shown: seq<Pos>, g: GameState, selected: Option<Pos>, drop: Option<BaseKind>, k: nat)
    requires (selected.Some? ==> OnBoard(selected.value)) && shown == Shown(g, selected, drop)
    ensures ShowsFor(shown, g, selected, drop, k)
    decreases k
  {
    if k > 0 {
      ShowsForBy(shown, g, selected, drop, k - 1);
    }
  }

  /** c is the program's choice on g for difficulty d and draws rand. */
  ghost predicate Picked(c: Option<Move>, g: GameState, d: Difficulty, rand: nat -> real, k: nat)
    decreases k
  {
    if k == 0 then RandomDraws(rand) && c == AIMove(g.board, g.captured, AISide, d, rand)
    else Picked(c, g, d, rand, k - 1)
  }

  lemma {:induction false} PickedIs(c: Option<Move>, g: GameState, d: Difficulty, rand: nat -> real, k: nat)
    requires Picked(c, g, d, rand, k)
    ensures RandomDraws(rand) && c == AIMove(g.board, g.captured, AISide, d, rand)
    decreases k
  {
    if k > 0 {
      PickedIs(c, g, d, rand, k - 1);
    }
  }

  lemma PickedBy(c: Option<Move>, g: GameState, d: Difficulty, rand: nat -> real, k: nat)
    requires RandomDraws(rand) && c == AIMove(g.board, g.captured, AISide, d, rand)
    ensures Picked(c, g, d, rand, k)
    decreases k
  {
    if k > 0 {
      PickedBy(c, g, d, rand, k - 1);
    }
  }

  /** m is a legal move of the player on g. */
  ghost predicate Listed(m: Move, g: GameState, k: nat)
    decreases k
  {
    if k == 0 then m in LegalMoves(g.board, g.captured, PlayerSide) else Listed(m, g, k - 1)
  }

  lemma {:induction false} ListedIs(m: Move, g: GameState, k: nat)
    requires Listed(m, g, k)
    ensures m in LegalMoves(g.board, g.captured, PlayerSide)
    decreases k
  {
    if k > 0 {
      ListedIs(m, g, k - 1);
    }
  }

  lemma ListedBy(m: Move, g: GameState, k: nat)
    requires m in LegalMoves(g.board, g.captured, PlayerSide)
    ensures Listed(m, g, k)
    decreases k
  {
    if k > 0 {
      ListedBy(m, g, k - 1);
    }
  }

  /** Nothing picked, nothing shown. */
  lemma {:induction false} ShowsNothing(g: GameState, k: nat)
    ensures ShowsFor([], g, None, None, k)
    decreases k
  {
    if k > 0 {
      ShowsNothing(g, k - 1);
    }
  }

  /** Click on the shown squares of the selection: what it plays is a legal move
      of the player, and what it offers is legal promoted or unpromoted. */
  lemma ClickListed(g: GameState, thinking: bool, selected: Option<Pos>, drop: Option<BaseKind>,
                    shown: seq<Pos>, row: int, col: int, k: nat)
    requires InBounds(row, col) && ShowsFor(shown, g, selected, drop, k)
    requires selected.Some? ==> OnBoard(selected.value) && At(g.board, selected.value).Occupied?
    ensures var e := Click(g, thinking, selected, drop, shown, row, col);
      (e.Play? ==> Listed(e.m, g, k)) &&
      (e.Offer? ==> Listed(e.m, g, k) || Listed(e.m.(promote := true), g, k))
  {
    ShowsForIs(shown, g, selected, drop, k);
    ClickPlaysLegal(g, thinking, selected, drop, row, col);
    var e := Click(g, thinking, selected, drop, shown, row, col);
    if e.Play? || e.Offer? {
      if e.m in LegalMoves(g.board, g.captured, PlayerSide) {
        ListedBy(e.m, g, k);
      } else {
        ListedBy(e.m.(promote := true), g, k);
      }
    }
  }

  /** The status chain both handlers run after a move. */
  method NextStatus(b: Board, cap: Captured, p: Player) returns (s: Status)
    ensures s == StatusAfter(b, cap, p)
  {
    var mate := IsCheckmate(b, cap, p);
    if mate {
      return Status.Checkmate;
    }
    var stale := IsStalemate(b, cap, p);
    if stale {
      return Status.Stalemate;
    }
    var check := IsInCheck(b, p);
    if check {
      return Check;
    }
    return Playing;
  }

  /** The shared body of doAITurn and executePlayerMove: clone the game, install
      the applied board and hands, pass the turn, record the move, set the status. */
  method Advance(g: GameState, m: Move, mover: Player, ghost k: nat) returns (r: GameState)
    requires Applicable(g.board, m)
    ensures Moved(r, g, m, mover, k)
    ensures r.turn == Opponent(mover) && r.moveHistory == g.moveHistory + [m]
  {
    var result := ApplyMove(g.board, g.captured, m, mover);
    var newGame := CloneGameState(g);
    var next := Opponent(mover);
    var status := NextStatus(result.board, result.captured, next);
    var winner := newGame.winner;
    if status == Status.Checkmate {
      winner := Some(mover);
    }
    r := newGame.(board := result.board, captured := result.captured, turn := next,
                  moveHistory := newGame.moveHistory + [m], status := status, winner := winner);
    MovedBy(r, g, m, mover, k);
  }

  /** getAIMove on the game's position for the program's side. */
  method ChooseAIMove(g: GameState, d: Difficulty, rand: nat -> real, ghost k: nat) returns (c: Option<Move>)
    requires RandomDraws(rand)
    ensures Picked(c, g, d, rand, k)
    ensures c.Some? ==> Applicable(g.board, c.value)
  {
    c := GetAIMove(g.board, g.captured, AISide, d, rand);
    AIMoveIsLegal(g.board, g.captured, AISide, d, rand);
    PickedBy(c, g, d, rand, k);
  }

  /** The targets computed for the player's piece on `at`. */
  method ShowPiece(g: GameState, at: Pos, ghost k: nat) returns (targets: seq<Pos>)
    requires OnBoard(at)
    ensures ShowsFor(targets, g, Some(at), None, k)
  {
    targets := PieceHighlights(g.board, g.captured, at);
    ShowsForBy(targets, g, Some(at), None, k);
  }

  /** The targets computed for a picked hand kind. */
  method ShowDrop(g: GameState, kind: BaseKind, ghost k: nat) returns (targets: seq<Pos>)
    ensures ShowsFor(targets, g, None, Some(kind), k)
  {
    targets := DropHighlights(g.board, g.captured, kind);
    ShowsForBy(targets, g, None, Some(kind), k);
  }

  /** The board component's state: the game, the player's selection (a piece or a
      hand kind), the squares shown for it, the last move, the open promotion
      question and the thinking flag. */
  class Session {
    const difficulty: Difficulty
    ghost const gate: nat
    var game: GameState
    var selected: Option<Pos>
    var selectedDrop: Option<BaseKind>
    var shown: seq<Pos>
    var lastMove: Option<(Option<Pos>, Pos)>
    var pending: Option<Move>
    var thinking: bool

    /** A selected square holds the player's piece; a picked hand kind excludes a
        picked piece; the shown squares are those of the current selection; a
        question is open only on the player's turn; nothing is selected or shown
        on the program's turn; the program thinks only on its turn of a live game. */
    ghost predicate Valid()
      reads this
    {
      (selected.Some? ==> OnBoard(selected.value) && OwnPiece(At(game.board, selected.value)))
      && (selectedDrop.Some? ==> selected.None?)
      && ShowsFor(shown, game, selected, selectedDrop, gate)
      && (pending.Some? ==> game.turn == PlayerSide && Applicable(game.board, pending.value))
      && (game.turn == AISide ==> selected.None? && selectedDrop.None? && shown == [] && pending.None?)
      && (thinking ==> game.turn == AISide && (game.status == Playing || game.status == Check))
    }

    constructor (d: Difficulty)
      ensures Valid()
      ensures difficulty == d && game == CreateInitialGameState()
      ensures selected.None? && selectedDrop.None? && shown == [] && lastMove.None?
      ensures pending.None? && !thinking
    {
      difficulty := d;
      gate := 0;
      game := CreateInitialGameState();
      selected := None;
      selectedDrop := None;
      shown := [];
      lastMove := None;
      pending := None;
      thinking := false;
      new;
      ShowsNothing(game, gate);
    }

    /** handleReset: a fresh game, with nothing picked, shown, asked or thought. */
    method Reset()
      modifies this
      ensures Valid()
      ensures game == CreateInitialGameState()
      ensures selected.None? && selectedDrop.None? && shown == [] && lastMove.None?
      ensures pending.None? && !thinking
    {
      game := CreateInitialGameState();
      selected := None;
      selectedDrop := None;
      shown := [];
      lastMove := None;
      pending := None;
      thinking := false;
      ShowsNothing(game, gate);
    }

    /** doAITurn up to its timer: nothing unless the game is live and it is the
        program's turn; then the thinking flag goes up. */
    method BeginAITurn() returns (started: bool)
      requires Valid()
      modifies this
      ensures Valid()
      ensures started == ((old(game.status) == Playing || old(game.status) == Check) && old(game.turn) == AISide)
      ensures thinking == (old(thinking) || started)
      ensures game == old(game) && selected == old(selected) && selectedDrop == old(selectedDrop)
      ensures shown == old(shown) && lastMove == old(lastMove) && pending == old(pending)
    {
      started := false;
      if game.status != Playing && game.status != Check {
        return;
      }
      if game.turn != AISide {
        return;
      }
      thinking := true;
      started := true;
    }

    /** doAITurn's timer: the program's choice is played, or, when it has none,
        only the thinking flag drops. */
    method CompleteAITurn(rand: nat -> real) returns (played: Option<Move>)
      requires Valid() && thinking && RandomDraws(rand)
      modifies this
      ensures Valid() && !thinking
      ensures Picked(played, old(game), difficulty, rand, gate)
      ensures played.None? ==> game == old(game) && lastMove == old(lastMove)
      ensures played.Some? ==> Moved(game, old(game), played.value, AISide, gate) &&
                               lastMove == Some((played.value.from, played.value.to))
      ensures selected == old(selected) && selectedDrop == old(selectedDrop)
      ensures shown == old(shown) && pending == old(pending)
    {
      played := ChooseAIMove(game, difficulty, rand, gate);
      if played.None? {
        thinking := false;
        return;
      }
      var m := played.value;
      game := Advance(game, m, AISide, gate);
      lastMove := Some((m.from, m.to));
      thinking := false;
      ShowsNothing(game, gate);
    }

    /** executePlayerMove: plays the move with the given promotion flag, clears the
        selection, the shown squares and the question, and reports whether the
        program's turn is scheduled. */
    method ExecutePlayerMove(move: Move, promote: bool) returns (aiNext: bool)
      requires Valid() && !thinking && Applicable(game.board, move)
      modifies this
      ensures Valid()
      ensures Moved(game, old(game), move.(promote := promote), PlayerSide, gate)
      ensures lastMove == Some((move.from, move.to))
      ensures selected.None? && selectedDrop.None? && shown == [] && pending.None? && !thinking
      ensures aiNext == (game.status == Playing || game.status == Check)
    {
      var actualMove := move.(promote := promote);
      game := Advance(game, actualMove, PlayerSide, gate);
      lastMove := Some((move.from, move.to));
      selected := None;
      selectedDrop := None;
      shown := [];
      pending := None;
      aiNext := game.status == Playing || game.status == Check;
      ShowsNothing(game, gate);
    }

    /** The promotion question's answer. */
    method ChoosePromotion(promote: bool) returns (aiNext: bool)
      requires Valid() && pending.Some?
      modifies this
      ensures Valid()
      ensures Moved(game, old(game), old(pending).value.(promote := promote), PlayerSide, gate)
      ensures lastMove == Some((old(pending).value.from, old(pending).value.to)) && !thinking
      ensures selected.None? && selectedDrop.None? && shown == [] && pending.None?
      ensures aiNext == (game.status == Playing || game.status == Check)
    {
      aiNext := ExecutePlayerMove(pending.value, promote);
    }

    /** handleCapturedClick: outside the guards, picks the hand kind; Valid then
        says the shown squares are its drop targets. */
    method CapturedClick(kind: BaseKind)
      requires Valid()
      modifies this
      ensures Valid()
      ensures game == old(game) && pending == old(pending) && thinking == old(thinking) && lastMove == old(lastMove)
      ensures if old(thinking) || old(game.turn) != PlayerSide || old(game.status) == Status.Checkmate || old(game.status) == Status.Stalemate
        then selected == old(selected) && selectedDrop == old(selectedDrop) && shown == old(shown)
        else selected.None? && selectedDrop == Some(kind)
    {
      if thinking {
        return;
      }
      if game.turn != PlayerSide {
        return;
      }
      if game.status == Status.Checkmate || game.status == Status.Stalemate {
        return;
      }
      selected := None;
      selectedDrop := Some(kind);
      shown := ShowDrop(game, kind, gate);
    }

    /** handleCellClick: carries out the effect Click assigns to the click. A move
        it plays is a legal move of the player, and a move it offers for
        promotion is legal promoted or unpromoted. */
    method CellClick(row: int, col: int) returns (aiNext: bool)
      requires Valid() && InBounds(row, col)
      modifies this
      ensures Valid() && thinking == old(thinking)
      ensures match Click(old(game), old(thinking), old(selected), old(selectedDrop), old(shown), row, col)
        case Ignored =>
          game == old(game) && selected == old(selected) && selectedDrop == old(selectedDrop) &&
          shown == old(shown) && pending == old(pending) && lastMove == old(lastMove) && !aiNext
        case DropCancelled =>
          game == old(game) && selected == old(selected) && selectedDrop.None? && shown == [] &&
          pending == old(pending) && lastMove == old(lastMove) && !aiNext
        case Play(m) =>
          Listed(m, old(game), gate) && Moved(game, old(game), m, PlayerSide, gate) &&
          lastMove == Some((m.from, m.to)) &&
          selected.None? && selectedDrop.None? && shown == [] && pending.None? &&
          aiNext == (game.status == Playing || game.status == Check)
        case Offer(m) =>
          (Listed(m, old(game), gate) || Listed(m.(promote := true), old(game), gate)) &&
          game == old(game) && selected == old(selected) && selectedDrop == old(selectedDrop) &&
          shown == old(shown) && pending == Some(m) && lastMove == old(lastMove) && !aiNext
        case Select(at) =>
          game == old(game) && selected == Some(at) && selectedDrop == old(selectedDrop) &&
          pending == old(pending) && lastMove == old(lastMove) && !aiNext
        case Deselect =>
          game == old(game) && selected.None? && selectedDrop == old(selectedDrop) && shown == [] &&
          pending == old(pending) && lastMove == old(lastMove) && !aiNext
    {
      ClickListed(game, thinking, selected, selectedDrop, shown, row, col, gate);
      aiNext := false;
      var piece := game.board[row][col];
      var to := Pos(row, col);
      if thinking || game.turn != PlayerSide || game.status == Status.Checkmate || game.status == Status.Stalemate {
        // input is ignored
      } else if selectedDrop.Some? {
        if piece.Occupied? {
          // a piece stands there: nothing to drop onto
        } else if to !in shown {
          selectedDrop := None;
          shown := [];
          ShowsNothing(game, gate);
        } else {
          var move := Move(None, to, Base(selectedDrop.value), false, Empty, selectedDrop);
          aiNext := ExecutePlayerMove(move, false);
        }
      } else if selected.Some? {
        var from := selected.value;
        if to in shown {
          var selectedPiece := game.board[from.row][from.col].piece;
          var move := Move(Some(from), to, selectedPiece.kind, false, piece, None);
          var cp := CanPromoteMove(selectedPiece.kind, PlayerSide, from.row, row);
          var mp := MustPromote(selectedPiece.kind, PlayerSide, row);
          if mp {
            aiNext := ExecutePlayerMove(move, true);
          } else if cp {
            pending := Some(move);
          } else {
            aiNext := ExecutePlayerMove(move, false);
          }
        } else if piece.Occupied? && piece.piece.owner == PlayerSide {
          selected := Some(to);
          shown := ShowPiece(game, to, gate);
        } else {
          selected := None;
          shown := [];
          ShowsNothing(game, gate);
        }
      } else if piece.Occupied? && piece.piece.owner == PlayerSide {
        selected := Some(to);
        shown := ShowPiece(game, to, gate);
      }
    }
  }
}
