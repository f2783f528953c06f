// The computer player: position evaluation, alpha-beta search, move ordering
// and the choice of a move at each difficulty (src/lib/ai.ts).

module AI {
  import opened PieceTypes
  import opened Moves
  import opened BoardState

  // ---------------------------------------------------------------------------
  // Scores. The program searches with plain numbers and opens the window with
  // -Infinity and Infinity; a score here is an integer or one of the two.
  // Every finite score is ten times the program's, so that the 0.1 advancement
  // bonus and the 0.9 hand factor stay integral.

  datatype Score = NegInf | Fin(n: int) | PosInf

  predicate Le(x: Score, y: Score)
  {
    x.NegInf? || y.PosInf? || (x.Fin? && y.Fin? && x.n <= y.n)
  }

  predicate Lt(x: Score, y: Score)
  {
    !Le(y, x)
  }

  /** Math.max */
  function MaxS(x: Score, y: Score): Score
  {
    if Le(x, y) then y else x
  }

  /** Math.min */
  function MinS(x: Score, y: Score): Score
  {
    if Le(x, y) then x else y
  }

  /** The score x seen through the window [lo, hi]. */
  function Clamp(lo: Score, hi: Score, x: Score): Score
  {
    MaxS(lo, MinS(x, hi))
  }

  // ---------------------------------------------------------------------------
  // evaluate

  /** The advancement bonus of a piece of p on row r (tenths): rows it has moved
      away from its own back rank. */
  function Advance(p: Player, r: int): int
  {
    if p == Sente then 8 - r else r
  }

  /** What the square (r, c) adds to p's evaluation. */
  function SquareScore(b: Board, p: Player, r: nat, c: nat): int
    requires r < 9 && c < 9
  {
    match b[r][c]
    case Empty => 0
    case Occupied(piece) =>
      if piece.owner == p then 10 * PieceValue(piece.kind) + Advance(p, r)
      else -10 * PieceValue(piece.kind)
  }

  /** The board loop of evaluate over (r, c) and the squares after it, row by row. */
  function BoardScore(b: Board, p: Player, r: nat, c: nat): int
    requires r <= 9 && c <= 9
    decreases 9 - r, 9 - c
  {
    if r == 9 then 0
    else if c == 9 then BoardScore(b, p, r + 1, 0)
    else SquareScore(b, p, r, c) + BoardScore(b, p, r, c + 1)
  }

  /** The hand loop of evaluate: nine tenths of the value of every piece in h[i..]. */
  function HandWorth(h: Hand, i: nat): int
    requires i <= |h|
    decreases |h| - i
  {
    if i == |h| then 0
    else 9 * h[i].count * PieceValue(Base(h[i].kind)) + HandWorth(h, i + 1)
  }

  /** The bonus for giving check. */
  function CheckBonus(b: Board, p: Player): int
  {
    if InCheck(b, Opponent(p)) then 30 else 0
  }

  /** evaluate: the position from p's side, ten times the program's number. */
  function Evaluate(b: Board, cap: Captured, p: Player): int
  {
    BoardScore(b, p, 0, 0) + HandWorth(HandOf(cap, p), 0) - HandWorth(HandOf(cap, Opponent(p)), 0)
    + CheckBonus(b, p)
  }

  /** The value of the pieces of p on (r, c) and after it. */
  function Material(b: Board, p: Player, r: nat, c: nat): nat
    requires r <= 9 && c <= 9
    decreases 9 - r, 9 - c
  {
    if r == 9 then 0
    else if c == 9 then Material(b, p, r + 1, 0)
    else
      var here := if b[r][c].Occupied? && b[r][c].piece.owner == p then PieceValue(b[r][c].piece.kind) else 0;
      here + Material(b, p, r, c + 1)
  }

  /** The advancement bonuses of the pieces of p on (r, c) and after it. */
  function Advancement(b: Board, p: Player, r: nat, c: nat): nat
    requires r <= 9 && c <= 9
    decreases 9 - r, 9 - c
  {
    if r == 9 then 0
    else if c == 9 then Advancement(b, p, r + 1, 0)
    else
      var here := if b[r][c].Occupied? && b[r][c].piece.owner == p then Advance(p, r) else 0;
      here + Advancement(b, p, r, c + 1)
  }

  /** The board term of evaluate is ten times own material minus the opponent's,
      plus the advancement of one's own pieces only. */
  lemma {:induction false} BoardScoreSplit(b: Board, p: Player, r: nat, c: nat)
    requires r <= 9 && c <= 9
    ensures BoardScore(b, p, r, c)
      == 10 * (Material(b, p, r, c) - Material(b, Opponent(p), r, c)) + Advancement(b, p, r, c)
    decreases 9 - r, 9 - c
  {
    if r == 9 {
    } else if c == 9 {
      BoardScoreSplit(b, p, r + 1, 0);
    } else {
      BoardScoreSplit(b, p, r, c + 1);
    }
  }

  /** The evaluation is zero-sum up to the positional terms: what one side gains in
      material and hand the other loses, and only the advancement and check bonuses
      of both sides remain in the sum of the two evaluations. */
  lemma EvaluateZeroSum(b: Board, cap: Captured, p: Player)
    ensures Evaluate(b, cap, p) + Evaluate(b, cap, Opponent(p))
      == Advancement(b, p, 0, 0) + Advancement(b, Opponent(p), 0, 0)
         + CheckBonus(b, p) + CheckBonus(b, Opponent(p))
  {
    BoardScoreSplit(b, p, 0, 0);
    BoardScoreSplit(b, Opponent(p), 0, 0);
    assert Opponent(Opponent(p)) == p;
  }

  // ---------------------------------------------------------------------------
  // Bounds on evaluate, which keep every evaluation below the mate scores

  /** Each square adds at most 138 to the board term: ten times the dearest piece
      (13) and an advancement of at most 8. */
  lemma {:induction false} BoardScoreBound(b: Board, p: Player, r: nat, c: nat)
    requires r <= 9 && c <= 9 && (r < 9 || c == 0)
    ensures BoardScore(b, p, r, c) <= 138 * (81 - 9 * r - c)
    decreases 9 - r, 9 - c
  {
    if r < 9 {
      if c == 9 {
        BoardScoreBound(b, p, r + 1, 0);
      } else {
        BoardScoreBound(b, p, r, c + 1);
      }
    }
  }

  lemma {:induction false} HandWorthNonNegative(h: Hand, i: nat)
    requires i <= |h|
    ensures HandWorth(h, i) >= 0
    decreases |h| - i
  {
    if i < |h| {
      HandWorthNonNegative(h, i + 1);
    }
  }

  /** The hand loop over h from i is the loop over h[1..] from i - 1. */
  lemma {:induction false} HandWorthShift(h: Hand, i: nat)
    requires 1 <= i <= |h|
    ensures HandWorth(h, i) == HandWorth(h[1..], i - 1)
    decreases |h| - i
  {
    if i < |h| {
      assert h[1..][i - 1] == h[i];
      HandWorthShift(h, i + 1);
    }
  }

  /** The worth of a hand is that of its first entry plus that of the rest. */
  lemma HandWorthCons(h: Hand)
    requires |h| > 0
    ensures HandWorth(h, 0) == 9 * h[0].count * PieceValue(Base(h[0].kind)) + HandWorth(h[1..], 0)
  {
    HandWorthShift(h, 1);
  }

  /** hand[k] = v changes the worth of the hand by nine tenths of the value of the
      pieces k gains or loses. */
  lemma {:induction false} SetCountWorth(h: Hand, k: BaseKind, v: nat)
    ensures HandWorth(SetCount(h, k, v), 0)
         == HandWorth(h, 0) + 9 * v * PieceValue(Base(k)) - 9 * Count(h, k) * PieceValue(Base(k))
  {
    var r := SetCount(h, k, v);
    HandWorthCons(r);
    if h != [] {
      HandWorthCons(h);
      if h[0].kind != k {
        assert r[1..] == SetCount(h[1..], k, v);
        SetCountWorth(h[1..], k, v);
      } else {
        assert r[1..] == h[1..];
      }
    }
  }

  /** delete hand[k] never adds worth. */
  lemma {:induction false} DeleteWorth(h: Hand, k: BaseKind)
    ensures HandWorth(Delete(h, k), 0) <= HandWorth(h, 0)
  {
    if h != [] {
      HandWorthCons(h);
      DeleteWorth(h[1..], k);
      if h[0].kind != k {
        var r := Delete(h, k);
        HandWorthCons(r);
        assert r[1..] == Delete(h[1..], k);
      }
    }
  }

  /** A base kind in hand is worth at most 10, the rook. */
  lemma BaseValueAtMostTen(k: BaseKind)
    ensures PieceValue(Base(k)) <= 10
  {
  }

  /** applyMove adds to the mover's hand at most nine tenths of a rook (a capture). */
  lemma ApplyHandWorth(b: Board, cap: Captured, m: Move, p: Player)
    requires Applicable(b, m)
    ensures HandWorth(HandOf(Apply(b, cap, m, p).captured, p), 0) <= HandWorth(HandOf(cap, p), 0) + 90
  {
    if m.from.Some? {
      BoardMoveHandWorth(b, cap, m, p);
    } else {
      DropHandWorth(b, cap, m, p);
    }
  }

  lemma BoardMoveHandWorth(b: Board, cap: Captured, m: Move, p: Player)
    requires Applicable(b, m) && m.from.Some?
    ensures HandWorth(HandOf(Apply(b, cap, m, p).captured, p), 0) <= HandWorth(HandOf(cap, p), 0) + 90
  {
    var h := HandOf(cap, p);
    ApplyBoardMoveEffect(b, cap, m, p);
    var captured := if m.from.value != m.to then At(b, m.to) else Empty;
    if captured.Occupied? {
      var k := BaseType(captured.piece.kind);
      SetCountWorth(h, k, Count(h, k) + 1);
      BaseValueAtMostTen(k);
    }
  }

  lemma DropHandWorth(b: Board, cap: Captured, m: Move, p: Player)
    requires Applicable(b, m) && m.from.None?
    ensures HandWorth(HandOf(Apply(b, cap, m, p).captured, p), 0) <= HandWorth(HandOf(cap, p), 0)
  {
    var h := HandOf(cap, p);
    var k := DropKind(m);
    assert HandOf(Apply(b, cap, m, p).captured, p) == Debit(h, k);
    if Count(h, k) - 1 <= 0 {
      DeleteWorth(h, k);
    } else {
      SetCountWorth(h, k, Count(h, k) - 1);
    }
  }

  /** applyMove leaves the hand of the side that does not move as it was. */
  lemma ApplyKeepsOtherHand(b: Board, cap: Captured, m: Move, p: Player)
    requires Applicable(b, m)
    ensures HandOf(Apply(b, cap, m, p).captured, Opponent(p)) == HandOf(cap, Opponent(p))
  {
    if m.from.Some? {
      ApplyBoardMoveEffect(b, cap, m, p);
    } else {
      ApplyDropEffect(b, cap, m, p);
    }
  }

  /** Every entry holding at most 18 pieces, the hand from i is worth at most 1620
      (nine tenths of 18 rooks) per entry. */
  lemma {:induction false} HandWorthBound(h: Hand, i: nat)
    requires i <= |h| && forall j | i <= j < |h| :: h[j].count <= 18
    ensures HandWorth(h, i) <= 1620 * (|h| - i)
    decreases |h| - i
  {
    if i < |h| {
      HandWorthBound(h, i + 1);
      match h[i].kind
      case King => case Rook => case Bishop => case Gold =>
      case Silver => case Knight => case Lance => case Pawn =>
    }
  }

  /** In a position that holds the standard forty pieces, a hand whose keys are
      distinct is worth at most 12960: eight kinds, at most 18 of each. */
  lemma StandardHandWorth(b: Board, cap: Captured, p: Player)
    requires forall k :: Total(b, cap, k) == InitialTotal(k)
    requires DistinctKinds(HandOf(cap, p))
    ensures HandWorth(HandOf(cap, p), 0) <= 12960
  {
    var h := HandOf(cap, p);
    forall j | 0 <= j < |h| ensures h[j].count <= 18 {
      CountOfEntry(h, j);
      assert Total(b, cap, h[j].kind) == InitialTotal(h[j].kind);
    }
    DistinctHandAtMostEight(h);
    HandWorthBound(h, 0);
  }

  /** evaluate is at most 11178 from the board, 30 for check and the worth of p's hand. */
  lemma EvaluateBound(b: Board, cap: Captured, p: Player)
    ensures Evaluate(b, cap, p) <= 11208 + HandWorth(HandOf(cap, p), 0)
  {
    BoardScoreBound(b, p, 0, 0);
    HandWorthNonNegative(HandOf(cap, Opponent(p)), 0);
  }

  /** evaluate, with its two board loops, its two hand loops and the check test. */
  method EvaluatePosition(b: Board, cap: Captured, p: Player) returns (score: int)
    ensures score == Evaluate(b, cap, p)
  {
    score := 0;
    for r := 0 to 9
      invariant score + BoardScore(b, p, r, 0) == BoardScore(b, p, 0, 0)
    {
      score := AddRowScore(b, p, r, score);
    }
    var own := HandTotal(HandOf(cap, p));
    score := score + own;
    var opp := Opponent(p);
    var theirs := HandTotal(HandOf(cap, opp));
    score := score - theirs;
    var check := IsInCheck(b, opp);
    if check {
      score := score + 30;
    }
  }

  /** The inner loop of evaluate over row r. */
  method AddRowScore(b: Board, p: Player, r: nat, score: int) returns (out: int)
    requires r < 9
    ensures out + BoardScore(b, p, r + 1, 0) == score + BoardScore(b, p, r, 0)
  {
    out := score;
    for c := 0 to 9
      invariant out + BoardScore(b, p, r, c) == score + BoardScore(b, p, r, 0)
    {
      var piece := b[r][c];
      if piece.Occupied? {
        var value := PieceValue(piece.piece.kind);
        if piece.piece.owner == p {
          out := out + 10 * value;
          if p == Sente {
            out := out + (8 - r);
          } else {
            out := out + r;
          }
        } else {
          out := out - 10 * value;
        }
      }
    }
  }

  /** One hand loop of evaluate. */
  method HandTotal(h: Hand) returns (total: int)
    ensures total == HandWorth(h, 0)
  {
    total := 0;
    for i := 0 to |h|
      invariant total + HandWorth(h, i) == HandWorth(h, 0)
    {
      total := total + 9 * h[i].count * PieceValue(Base(h[i].kind));
    }
  }

  // ---------------------------------------------------------------------------
  // minimax, over a game tree given by its successor function, its leaf
  // evaluation and the score of a side left without moves

  /** A game tree: the positions after each move in order, the evaluation at the
      depth limit, and the score of a position whose side has no move (given the
      remaining depth and whose turn it is in the search). */
  datatype Game<!N> = Game(next: N -> seq<N>, leaf: N -> int, stuck: (N, nat, bool) -> int)

  /** minimax with alpha-beta cut-offs, as the program computes it (fail-soft: the
      best score found is returned even when it lies outside the window). */
  function AlphaBeta<N>(g: Game<N>, n: N, depth: nat, alpha: Score, beta: Score, maximizing: bool): Score
    decreases depth, 1
  {
    if depth == 0 then Fin(g.leaf(n))
    else
      var cs := g.next(n);
      if |cs| == 0 then Fin(g.stuck(n, depth, maximizing))
      else if maximizing then MaxLoop(g, cs, depth, 0, NegInf, alpha, beta)
      else MinLoop(g, cs, depth, 0, PosInf, alpha, beta)
  }

  /** The maximizing loop from cs[i] on, with the best score so far and the current alpha. */
  function MaxLoop<N>(g: Game<N>, cs: seq<N>, depth: nat, i: nat, best: Score, alpha: Score, beta: Score): Score
    requires 1 <= depth && i <= |cs|
    decreases depth, 0, |cs| - i
  {
    if i == |cs| then best
    else
      var e := AlphaBeta(g, cs[i], depth - 1, alpha, beta, false);
      var best', alpha' := MaxS(best, e), MaxS(alpha, e);
      if Le(beta, alpha') then best'
      else MaxLoop(g, cs, depth, i + 1, best', alpha', beta)
  }

  /** The minimizing loop from cs[i] on, with the best score so far and the current beta. */
  function MinLoop<N>(g: Game<N>, cs: seq<N>, depth: nat, i: nat, best: Score, alpha: Score, beta: Score): Score
    requires 1 <= depth && i <= |cs|
    decreases depth, 0, |cs| - i
  {
    if i == |cs| then best
    else
      var e := AlphaBeta(g, cs[i], depth - 1, alpha, beta, true);
      var best', beta' := MinS(best, e), MinS(beta, e);
      if Le(beta', alpha) then best'
      else MinLoop(g, cs, depth, i + 1, best', alpha, beta')
  }

  /** The four cases of AlphaBeta, for callers that should not unfold it. */
  lemma AlphaBetaCases<N>(g: Game<N>, n: N, depth: nat, alpha: Score, beta: Score, maximizing: bool)
    ensures depth == 0 ==> AlphaBeta(g, n, depth, alpha, beta, maximizing) == Fin(g.leaf(n))
    ensures depth > 0 && |g.next(n)| == 0 ==>
            AlphaBeta(g, n, depth, alpha, beta, maximizing) == Fin(g.stuck(n, depth, maximizing))
    ensures depth > 0 && |g.next(n)| > 0 && maximizing ==>
            AlphaBeta(g, n, depth, alpha, beta, maximizing) == MaxLoop(g, g.next(n), depth, 0, NegInf, alpha, beta)
    ensures depth > 0 && |g.next(n)| > 0 && !maximizing ==>
            AlphaBeta(g, n, depth, alpha, beta, maximizing) == MinLoop(g, g.next(n), depth, 0, PosInf, alpha, beta)
  {
  }

  /** Plain minimax over the same tree, without cut-offs. */
  function Minimax<N>(g: Game<N>, n: N, depth: nat, maximizing: bool): Score
    decreases depth, 1
  {
    if depth == 0 then Fin(g.leaf(n))
    else
      var cs := g.next(n);
      if |cs| == 0 then Fin(g.stuck(n, depth, maximizing))
      else if maximizing then MaxFold(g, cs, depth, 0, NegInf)
      else MinFold(g, cs, depth, 0, PosInf)
  }

  /** The largest of acc and the minimax values of cs[i..]. */
  function MaxFold<N>(g: Game<N>, cs: seq<N>, depth: nat, i: nat, acc: Score): Score
    requires 1 <= depth && i <= |cs|
    decreases depth, 0, |cs| - i
  {
    if i == |cs| then acc
    else MaxFold(g, cs, depth, i + 1, MaxS(acc, Minimax(g, cs[i], depth - 1, false)))
  }

  /** The smallest of acc and the minimax values of cs[i..]. */
  function MinFold<N>(g: Game<N>, cs: seq<N>, depth: nat, i: nat, acc: Score): Score
    requires 1 <= depth && i <= |cs|
    decreases depth, 0, |cs| - i
  {
    if i == |cs| then acc
    else MinFold(g, cs, depth, i + 1, MinS(acc, Minimax(g, cs[i], depth - 1, true)))
  }

  // ---------------------------------------------------------------------------
  // The cut-offs do not change the result: within the window the program's
  // search agrees with plain minimax, and with the full window it is plain minimax.

  /** With the window (-Infinity, Infinity) the search returns the minimax value. */
  lemma AlphaBetaIsMinimax<N>(g: Game<N>, n: N, depth: nat, maximizing: bool)
    ensures AlphaBeta(g, n, depth, NegInf, PosInf, maximizing) == Minimax(g, n, depth, maximizing)
  {
    AlphaBetaWindow(g, n, depth, NegInf, PosInf, maximizing);
  }

  /** For any window alpha < beta, the search and minimax look the same through the
      window: equal when minimax lies inside it, both at or below alpha when it lies
      below, both at or above beta when it lies above. */
  lemma {:induction false} AlphaBetaWindow<N>(g: Game<N>, n: N, depth: nat, alpha: Score, beta: Score, maximizing: bool)
    requires Lt(alpha, beta)
    ensures Clamp(alpha, beta, AlphaBeta(g, n, depth, alpha, beta, maximizing))
         == Clamp(alpha, beta, Minimax(g, n, depth, maximizing))
    decreases depth, 1
  {
    if depth > 0 {
      var cs := g.next(n);
      if |cs| > 0 {
        if maximizing {
          MaxLoopWindow(g, cs, depth, 0, NegInf, NegInf, alpha, alpha, beta);
        } else {
          MinLoopWindow(g, cs, depth, 0, PosInf, PosInf, alpha, beta, beta);
        }
      }
    }
  }

  /** The maximizing loop, entered with a best score `best` that looks through the
      original window (alpha0, beta) as the minimax maximum so far `acc` does, and
      with alpha raised to the best score. */
  lemma {:induction false} MaxLoopWindow<N>(g: Game<N>, cs: seq<N>, depth: nat, i: nat, best: Score, acc: Score,
                                            alpha0: Score, alpha: Score, beta: Score)
    requires 1 <= depth && i <= |cs|
    requires Lt(alpha0, beta) && alpha == MaxS(alpha0, best) && Lt(alpha, beta)
    requires Clamp(alpha0, beta, best) == Clamp(alpha0, beta, acc)
    ensures Clamp(alpha0, beta, MaxLoop(g, cs, depth, i, best, alpha, beta))
         == Clamp(alpha0, beta, MaxFold(g, cs, depth, i, acc))
    decreases depth, 0, |cs| - i
  {
    if i < |cs| {
      var e := AlphaBeta(g, cs[i], depth - 1, alpha, beta, false);
      var v := Minimax(g, cs[i], depth - 1, false);
      AlphaBetaWindow(g, cs[i], depth - 1, alpha, beta, false);
      var best', alpha', acc' := MaxS(best, e), MaxS(alpha, e), MaxS(acc, v);
      MaxStep(alpha0, alpha, beta, best, acc, e, v);
      if Le(beta, alpha') {
        MaxFoldGe(g, cs, depth, i + 1, acc');
        MaxCut(alpha0, beta, best', acc', MaxFold(g, cs, depth, i + 1, acc'));
      } else {
        MaxLoopWindow(g, cs, depth, i + 1, best', acc', alpha0, alpha', beta);
      }
    }
  }

  /** The minimizing loop, the mirror image of MaxLoopWindow. */
  lemma {:induction false} MinLoopWindow<N>(g: Game<N>, cs: seq<N>, depth: nat, i: nat, best: Score, acc: Score,
                                            alpha: Score, beta0: Score, beta: Score)
    requires 1 <= depth && i <= |cs|
    requires Lt(alpha, beta0) && beta == MinS(beta0, best) && Lt(alpha, beta)
    requires Clamp(alpha, beta0, best) == Clamp(alpha, beta0, acc)
    ensures Clamp(alpha, beta0, MinLoop(g, cs, depth, i, best, alpha, beta))
         == Clamp(alpha, beta0, MinFold(g, cs, depth, i, acc))
    decreases depth, 0, |cs| - i
  {
    if i < |cs| {
      var e := AlphaBeta(g, cs[i], depth - 1, alpha, beta, true);
      var v := Minimax(g, cs[i], depth - 1, true);
      AlphaBetaWindow(g, cs[i], depth - 1, alpha, beta, true);
      var best', beta', acc' := MinS(best, e), MinS(beta, e), MinS(acc, v);
      MinStep(alpha, beta0, beta, best, acc, e, v);
      if Le(beta', alpha) {
        MinFoldLe(g, cs, depth, i + 1, acc');
        MinCut(alpha, beta0, best', acc', MinFold(g, cs, depth, i + 1, acc'));
      } else {
        MinLoopWindow(g, cs, depth, i + 1, best', acc', alpha, beta0, beta');
      }
    }
  }

  /** One maximizing step keeps the two views equal, and alpha stays the larger of
      the original alpha and the best score. */
  lemma MaxStep(alpha0: Score, alpha: Score, beta: Score, best: Score, acc: Score, e: Score, v: Score)
    requires Lt(alpha0, beta) && alpha == MaxS(alpha0, best) && Lt(alpha, beta)
    requires Clamp(alpha0, beta, best) == Clamp(alpha0, beta, acc)
    requires Clamp(alpha, beta, e) == Clamp(alpha, beta, v)
    ensures Clamp(alpha0, beta, MaxS(best, e)) == Clamp(alpha0, beta, MaxS(acc, v))
    ensures MaxS(alpha, e) == MaxS(alpha0, MaxS(best, e))
  {
  }

  /** One minimizing step, the mirror image of MaxStep. */
  lemma MinStep(alpha: Score, beta0: Score, beta: Score, best: Score, acc: Score, e: Score, v: Score)
    requires Lt(alpha, beta0) && beta == MinS(beta0, best) && Lt(alpha, beta)
    requires Clamp(alpha, beta0, best) == Clamp(alpha, beta0, acc)
    requires Clamp(alpha, beta, e) == Clamp(alpha, beta, v)
    ensures Clamp(alpha, beta0, MinS(best, e)) == Clamp(alpha, beta0, MinS(acc, v))
    ensures MinS(beta, e) == MinS(beta0, MinS(best, e))
  {
  }

  /** At a beta cut-off the best score is at or above beta, and so is minimax. */
  lemma MaxCut(alpha0: Score, beta: Score, best: Score, acc: Score, w: Score)
    requires Lt(alpha0, beta) && Le(beta, MaxS(alpha0, best))
    requires Clamp(alpha0, beta, best) == Clamp(alpha0, beta, acc) && Le(acc, w)
    ensures Clamp(alpha0, beta, best) == Clamp(alpha0, beta, w)
  {
  }

  /** At an alpha cut-off the best score is at or below alpha, and so is minimax. */
  lemma MinCut(alpha: Score, beta0: Score, best: Score, acc: Score, w: Score)
    requires Lt(alpha, beta0) && Le(MinS(beta0, best), alpha)
    requires Clamp(alpha, beta0, best) == Clamp(alpha, beta0, acc) && Le(w, acc)
    ensures Clamp(alpha, beta0, best) == Clamp(alpha, beta0, w)
  {
  }

  lemma {:induction false} MaxFoldGe<N>(g: Game<N>, cs: seq<N>, depth: nat, i: nat, acc: Score)
    requires 1 <= depth && i <= |cs|
    ensures Le(acc, MaxFold(g, cs, depth, i, acc))
    decreases |cs| - i
  {
    if i < |cs| {
      MaxFoldGe(g, cs, depth, i + 1, MaxS(acc, Minimax(g, cs[i], depth - 1, false)));
    }
  }

  lemma {:induction false} MinFoldLe<N>(g: Game<N>, cs: seq<N>, depth: nat, i: nat, acc: Score)
    requires 1 <= depth && i <= |cs|
    ensures Le(MinFold(g, cs, depth, i, acc), acc)
    decreases |cs| - i
  {
    if i < |cs| {
      MinFoldLe(g, cs, depth, i + 1, MinS(acc, Minimax(g, cs[i], depth - 1, true)));
    }
  }

  // ---------------------------------------------------------------------------
  // The shogi game tree and the program's recursive search

  /** The score of a side to move that has no legal move and is in check, from the
      searching side's view: a loss when it is the searching side's turn, a win
      otherwise, nearer mates counting more. */
  function MateScore(depth: int, maximizing: bool): int
  {
    if maximizing then -100000 + 10 * (4 - depth) else 100000 - 10 * (4 - depth)
  }

  /** A search position: the board, the hands and the side to move. */
  datatype Node = Node(board: Board, captured: Captured, toMove: Player)

  /** The position after m, with the other side to move. */
  function After(n: Node, m: Move): Node
    requires Applicable(n.board, m)
  {
    var a := Apply(n.board, n.captured, m, n.toMove);
    Node(a.board, a.captured, Opponent(n.toMove))
  }

  /** The positions after each legal move, in the order the moves are generated. */
  function Children(n: Node): seq<Node>
  {
    var ms := LegalMoves(n.board, n.captured, n.toMove);
    seq(|ms|, j requires 0 <= j < |ms| => After(n, ms[j]))
  }

  /** The j-th child is the position after the j-th legal move. */
  lemma ChildrenOf(n: Node, moves: seq<Move>)
    requires moves == LegalMoves(n.board, n.captured, n.toMove)
    ensures |Children(n)| == |moves|
    ensures forall j | 0 <= j < |moves| :: Applicable(n.board, moves[j]) && Children(n)[j] == After(n, moves[j])
  {
  }

  /** The tree the program searches for the side ai: evaluate from ai's side at the
      depth limit; with no legal move, the mate score if the side to move is in
      check and 0 (stalemate) otherwise. */
  function ShogiGame(ai: Player): Game<Node>
  {
    Game((n: Node) => Children(n),
         (n: Node) => Evaluate(n.board, n.captured, ai),
         (n: Node, depth: nat, maximizing: bool) =>
           if Moves.Checkmate(n.board, n.captured, n.toMove) then MateScore(depth, maximizing) else 0)
  }

  /** minimax: the score of the position with player to move, searched depth plies
      deep from ai's side. */
  method MinimaxSearch(b: Board, cap: Captured, player: Player, ai: Player, depth: nat,
                       alpha: Score, beta: Score, maximizing: bool) returns (score: Score)
    ensures score == AlphaBeta(ShogiGame(ai), Node(b, cap, player), depth, alpha, beta, maximizing)
  {
    score := SearchNode(b, cap, player, ai, depth, alpha, beta, maximizing, ShogiGame(ai), 0);
  }

  /** The body of minimax, for the game g that Plays the shogi game for ai. */
  method SearchNode(b: Board, cap: Captured, player: Player, ai: Player, depth: nat,
                    alpha: Score, beta: Score, maximizing: bool, ghost g: Game<Node>, ghost k: nat)
    returns (score: Score)
    requires Plays(g, ai, k)
    ensures score == AlphaBeta(g, Node(b, cap, player), depth, alpha, beta, maximizing)
    decreases depth, 1
  {
    ghost var n := Node(b, cap, player);
    AlphaBetaCases(g, n, depth, alpha, beta, maximizing);
    if depth == 0 {
      ShogiLeaf(g, ai, k, n);
      var e := EvaluatePosition(b, cap, ai);
      return Fin(e);
    }
    var moves := GetAllLegalMoves(b, cap, player);
    ShogiNext(g, ai, k, n);
    ChildrenOf(n, moves);
    if |moves| == 0 {
      ShogiStuck(g, ai, k, n, depth, maximizing);
      var e := StuckScore(b, cap, player, depth, maximizing);
      return Fin(e);
    }
    ghost var cs := Children(n);
    if maximizing {
      score := MaxSearch(b, cap, player, ai, depth, moves, alpha, beta, g, k, cs);
    } else {
      score := MinSearch(b, cap, player, ai, depth, moves, alpha, beta, g, k, cs);
    }
  }

  /** g is the game the search plays for ai. The counter k has no meaning of its own
      (PlaysIs: every k states the same fact); it keeps the solver from unfolding the
      game's definition in the search loops, where only its name is needed. */
  ghost predicate Plays(g: Game<Node>, ai: Player, k: nat)
    decreases k
  {
    if k == 0 then g == ShogiGame(ai) else Plays(g, ai, k - 1)
  }

  lemma {:induction false} PlaysIs(g: Game<Node>, ai: Player, k: nat)
    requires Plays(g, ai, k)
    ensures g == ShogiGame(ai)
    decreases k
  {
    if k > 0 {
      PlaysIs(g, ai, k - 1);
    }
  }

  /** The shogi game's successor function: the positions after the legal moves. */
  lemma ShogiNext(g: Game<Node>, ai: Player, k: nat, n: Node)
    requires Plays(g, ai, k)
    ensures g.next(n) == Children(n)
  {
    PlaysIs(g, ai, k);
  }

  /** The shogi game's evaluation at the depth limit: Evaluate from ai's side. */
  lemma ShogiLeaf(g: Game<Node>, ai: Player, k: nat, n: Node)
    requires Plays(g, ai, k)
    ensures g.leaf(n) == Evaluate(n.board, n.captured, ai)
  {
    PlaysIs(g, ai, k);
  }

  /** The shogi game's score for a side without moves: mate or stalemate. */
  lemma ShogiStuck(g: Game<Node>, ai: Player, k: nat, n: Node, depth: nat, maximizing: bool)
    requires Plays(g, ai, k)
    ensures g.stuck(n, depth, maximizing) ==
            if Moves.Checkmate(n.board, n.captured, n.toMove) then MateScore(depth, maximizing) else 0
  {
    PlaysIs(g, ai, k);
  }

  // ---------------------------------------------------------------------------
  // The two-ply value the hard level gives a move: a mate against every other move

  /** The maximizing fold stays at or below a bound of acc and of every value it takes. */
  lemma {:induction false} MaxFoldAtMost<N>(g: Game<N>, cs: seq<N>, depth: nat, i: nat, acc: Score, bound: Score)
    requires 1 <= depth && i <= |cs| && Le(acc, bound)
    requires forall j | i <= j < |cs| :: Le(Minimax(g, cs[j], depth - 1, false), bound)
    ensures Le(MaxFold(g, cs, depth, i, acc), bound)
    decreases |cs| - i
  {
    if i < |cs| {
      MaxFoldAtMost(g, cs, depth, i + 1, MaxS(acc, Minimax(g, cs[i], depth - 1, false)), bound);
    }
  }

  /** One ply above the depth limit, with p to move, the value is at most what p can
      evaluate after its own move: 11298 plus the worth of p's hand. */
  lemma OnePlyBound(n: Node, p: Player)
    requires n.toMove == p
    ensures Le(Minimax(ShogiGame(p), n, 1, true), Fin(11298 + HandWorth(HandOf(n.captured, p), 0)))
  {
    var g := ShogiGame(p);
    var w := HandWorth(HandOf(n.captured, p), 0);
    HandWorthNonNegative(HandOf(n.captured, p), 0);
    var ms := LegalMoves(n.board, n.captured, p);
    ChildrenOf(n, ms);
    var cs := Children(n);
    assert g.next(n) == cs;
    if |cs| > 0 {
      forall j | 0 <= j < |cs| ensures Le(Minimax(g, cs[j], 0, false), Fin(11298 + w)) {
        ApplyHandWorth(n.board, n.captured, ms[j], p);
        EvaluateBound(cs[j].board, cs[j].captured, p);
      }
      MaxFoldAtMost(g, cs, 1, 0, NegInf, Fin(11298 + w));
    }
  }

  /** A minimizing node is worth at most its first child. */
  lemma MinAtMostFirst<N>(g: Game<N>, n: N, depth: nat)
    requires 1 <= depth && |g.next(n)| > 0
    ensures Le(Minimax(g, n, depth, false), Minimax(g, g.next(n)[0], depth - 1, true))
  {
    var cs := g.next(n);
    MinFoldLe(g, cs, depth, 1, MinS(PosInf, Minimax(g, cs[0], depth - 1, true)));
  }

  /** Two plies above the depth limit, with p's opponent to move and not mated, the
      value is at most 11298 plus the worth of p's hand: a stalemate scores 0, and
      otherwise the opponent's first reply, which leaves p's hand as it is, already
      holds the value down to what p can evaluate after it. */
  lemma ReplyBound(c: Node, p: Player)
    requires c.toMove == Opponent(p) && !Moves.Checkmate(c.board, c.captured, c.toMove)
    ensures Le(Minimax(ShogiGame(p), c, 2, false), Fin(11298 + HandWorth(HandOf(c.captured, p), 0)))
  {
    HandWorthNonNegative(HandOf(c.captured, p), 0);
    var ms := LegalMoves(c.board, c.captured, c.toMove);
    ChildrenOf(c, ms);
    if |ms| > 0 {
      MinAtMostFirst(ShogiGame(p), c, 2);
      ApplyKeepsOtherHand(c.board, c.captured, ms[0], c.toMove);
      assert Opponent(c.toMove) == p;
      OnePlyBound(Children(c)[0], p);
    }
  }

  /** A move of p that does not mate is worth at most 11388 plus the worth of p's hand
      two plies on. */
  lemma NonMateValue(n: Node, m: Move)
    requires Applicable(n.board, m)
    requires var a := Apply(n.board, n.captured, m, n.toMove);
             !Moves.Checkmate(a.board, a.captured, Opponent(n.toMove))
    ensures Le(Minimax(ShogiGame(n.toMove), After(n, m), 2, false),
               Fin(11388 + HandWorth(HandOf(n.captured, n.toMove), 0)))
  {
    ApplyHandWorth(n.board, n.captured, m, n.toMove);
    ReplyBound(After(n, m), n.toMove);
  }

  /** A mating move is worth the mate score two plies on, 99980. */
  lemma MateValue(n: Node, m: Move)
    requires Applicable(n.board, m)
    requires var a := Apply(n.board, n.captured, m, n.toMove);
             Moves.Checkmate(a.board, a.captured, Opponent(n.toMove))
    ensures Minimax(ShogiGame(n.toMove), After(n, m), 2, false) == Fin(MateScore(2, false))
    ensures MateScore(2, false) == 99980
  {
    var c := After(n, m);
    ChildrenOf(c, LegalMoves(c.board, c.captured, c.toMove));
  }

  /** The score of a position whose side to move has no legal move. */
  method StuckScore(b: Board, cap: Captured, player: Player, depth: nat, maximizing: bool) returns (e: int)
    ensures e == if Moves.Checkmate(b, cap, player) then MateScore(depth, maximizing) else 0
  {
    var mate := IsCheckmate(b, cap, player);
    if mate {
      return MateScore(depth, maximizing);
    }
    return 0;
  }

  /** One iteration's recursive call: apply m, then search on with the other side to move. */
  method SearchChild(b: Board, cap: Captured, player: Player, ai: Player, depth: nat, m: Move,
                     alpha: Score, beta: Score, maximizing: bool, ghost g: Game<Node>, ghost k: nat,
                     ghost c: Node) returns (e: Score)
    requires Plays(g, ai, k)
    requires Applicable(b, m) && c == After(Node(b, cap, player), m)
    ensures e == AlphaBeta(g, c, depth, alpha, beta, maximizing)
    decreases depth, 2
  {
    var result := ApplyMove(b, cap, m, player);
    e := SearchNode(result.board, result.captured, Opponent(player), ai, depth, alpha, beta, maximizing, g, k);
  }

  /** The maximizing loop of minimax, with its cut-off. */
  method MaxSearch(b: Board, cap: Captured, player: Player, ai: Player, depth: nat,
                   moves: seq<Move>, alpha: Score, beta: Score, ghost g: Game<Node>, ghost k: nat,
                   ghost cs: seq<Node>) returns (maxEval: Score)
    requires Plays(g, ai, k)
    requires 1 <= depth && |cs| == |moves|
    requires forall j | 0 <= j < |moves| :: Applicable(b, moves[j]) && cs[j] == After(Node(b, cap, player), moves[j])
    ensures maxEval == MaxLoop(g, cs, depth, 0, NegInf, alpha, beta)
    decreases depth, 0
  {
    ghost var result := MaxLoop(g, cs, depth, 0, NegInf, alpha, beta);
    maxEval := NegInf;
    var a := alpha;
    for i := 0 to |moves|
      invariant MaxLoopAt(g, cs, depth, i, maxEval, a, beta, result)
    {
      var e := SearchChild(b, cap, player, ai, depth - 1, moves[i], a, beta, false, g, k, cs[i]);
      MaxLoopNext(g, cs, depth, i, maxEval, a, beta, result, e);
      maxEval := MaxS(maxEval, e);
      a := MaxS(a, e);
      if Le(beta, a) {
        return;
      }
    }
    MaxLoopDone(g, cs, depth, maxEval, a, beta, result);
  }

  /** The minimizing loop of minimax, with its cut-off. */
  method MinSearch(b: Board, cap: Captured, player: Player, ai: Player, depth: nat,
                   moves: seq<Move>, alpha: Score, beta: Score, ghost g: Game<Node>, ghost k: nat,
                   ghost cs: seq<Node>) returns (minEval: Score)
    requires Plays(g, ai, k)
    requires 1 <= depth && |cs| == |moves|
    requires forall j | 0 <= j < |moves| :: Applicable(b, moves[j]) && cs[j] == After(Node(b, cap, player), moves[j])
    ensures minEval == MinLoop(g, cs, depth, 0, PosInf, alpha, beta)
    decreases depth, 0
  {
    ghost var result := MinLoop(g, cs, depth, 0, PosInf, alpha, beta);
    minEval := PosInf;
    var bt := beta;
    for i := 0 to |moves|
      invariant MinLoopAt(g, cs, depth, i, minEval, alpha, bt, result)
    {
      var e := SearchChild(b, cap, player, ai, depth - 1, moves[i], alpha, bt, true, g, k, cs[i]);
      MinLoopNext(g, cs, depth, i, minEval, alpha, bt, result, e);
      minEval := MinS(minEval, e);
      bt := MinS(bt, e);
      if Le(bt, alpha) {
        return;
      }
    }
    MinLoopDone(g, cs, depth, minEval, alpha, bt, result);
  }

  /** Before cs[i], the maximizing loop still has `result` to give. */
  ghost predicate MaxLoopAt<N>(g: Game<N>, cs: seq<N>, depth: nat, i: nat, best: Score, alpha: Score, beta: Score,
                               result: Score)
  {
    1 <= depth && i <= |cs| && MaxLoop(g, cs, depth, i, best, alpha, beta) == result
  }

  ghost predicate MinLoopAt<N>(g: Game<N>, cs: seq<N>, depth: nat, i: nat, best: Score, alpha: Score, beta: Score,
                               result: Score)
  {
    1 <= depth && i <= |cs| && MinLoop(g, cs, depth, i, best, alpha, beta) == result
  }

  /** One iteration of the maximizing loop: it stops with the result at a cut-off and
      otherwise goes on to cs[i + 1]. */
  lemma MaxLoopNext<N>(g: Game<N>, cs: seq<N>, depth: nat, i: nat, best: Score, alpha: Score, beta: Score,
                       result: Score, e: Score)
    requires MaxLoopAt(g, cs, depth, i, best, alpha, beta, result) && i < |cs|
    requires e == AlphaBeta(g, cs[i], depth - 1, alpha, beta, false)
    ensures Le(beta, MaxS(alpha, e)) ==> MaxS(best, e) == result
    ensures !Le(beta, MaxS(alpha, e)) ==> MaxLoopAt(g, cs, depth, i + 1, MaxS(best, e), MaxS(alpha, e), beta, result)
  {
  }

  lemma MinLoopNext<N>(g: Game<N>, cs: seq<N>, depth: nat, i: nat, best: Score, alpha: Score, beta: Score,
                       result: Score, e: Score)
    requires MinLoopAt(g, cs, depth, i, best, alpha, beta, result) && i < |cs|
    requires e == AlphaBeta(g, cs[i], depth - 1, alpha, beta, true)
    ensures Le(MinS(beta, e), alpha) ==> MinS(best, e) == result
    ensures !Le(MinS(beta, e), alpha) ==> MinLoopAt(g, cs, depth, i + 1, MinS(best, e), alpha, MinS(beta, e), result)
  {
  }

  /** With every move searched, the loop's result is its best score. */
  lemma MaxLoopDone<N>(g: Game<N>, cs: seq<N>, depth: nat, best: Score, alpha: Score, beta: Score, result: Score)
    requires MaxLoopAt(g, cs, depth, |cs|, best, alpha, beta, result)
    ensures best == result
  {
  }

  lemma MinLoopDone<N>(g: Game<N>, cs: seq<N>, depth: nat, best: Score, alpha: Score, beta: Score, result: Score)
    requires MinLoopAt(g, cs, depth, |cs|, best, alpha, beta, result)
    ensures best == result
  {
  }
}
