/** Move generation, promotion and drop rules, check detection, move
    application and the legal-move enumeration of the shogi engine. */
module Moves {
  import opened PieceTypes
  import opened BoardState

  function Opponent(p: Player): (q: Player)
    ensures q != p
  {
    if p == Sente then Gote else Sente
  }

  /** The row step toward the opponent's camp: sente moves up the board, gote down. */
  function Forward(p: Player): int
  {
    if p == Sente then -1 else 1
  }

  predicate InBounds(r: int, c: int)
  {
    0 <= r < 9 && 0 <= c < 9
  }

  predicate OnBoard(p: Pos)
  {
    InBounds(p.row, p.col)
  }

  function At(b: Board, p: Pos): Square
    requires OnBoard(p)
  {
    b[p.row][p.col]
  }

  /** A square the mover may end on: empty, or held by the other side. */
  predicate Enterable(b: Board, owner: Player, r: int, c: int)
    requires InBounds(r, c)
  {
    b[r][c].Empty? || b[r][c].piece.owner != owner
  }

  /** The square at p, read as empty off the board (destinations are always on it). */
  function SquareAt(b: Board, p: Pos): Square
  {
    if OnBoard(p) then At(b, p) else Empty
  }

  predicate EnterableAt(b: Board, owner: Player, p: Pos)
  {
    OnBoard(p) && Enterable(b, owner, p.row, p.col)
  }

  // ---------------------------------------------------------------------------
  // Movement patterns

  type Offset = (int, int)

  const Orthogonal: seq<Offset> := [(-1, 0), (1, 0), (0, -1), (0, 1)]
  const Diagonal: seq<Offset> := [(-1, -1), (-1, 1), (1, -1), (1, 1)]

  /** The king's eight neighbours, in the order of the program's nested loop over dr and dc. */
  const KingSteps: seq<Offset> := [(-1, -1), (-1, 0), (-1, 1), (0, -1), (0, 1), (1, -1), (1, 0), (1, 1)]

  /** Three forward, two sideways, one straight back; promoted minor pieces move the same way. */
  function GoldSteps(f: int): seq<Offset>
  {
    [(f, -1), (f, 0), (f, 1), (0, -1), (0, 1), (-f, 0)]
  }

  function SilverSteps(f: int): seq<Offset>
  {
    [(f, -1), (f, 0), (f, 1), (-f, -1), (-f, 1)]
  }

  function KnightSteps(f: int): seq<Offset>
  {
    [(2 * f, -1), (2 * f, 1)]
  }

  function PawnSteps(f: int): seq<Offset>
  {
    [(f, 0)]
  }

  /** The offsets of the step pattern a non-sliding kind uses. */
  function StepPattern(k: Kind, owner: Player): seq<Offset>
  {
    var f := Forward(owner);
    match k
    case Base(King) => KingSteps
    case Base(Gold) => GoldSteps(f)
    case Base(Silver) => SilverSteps(f)
    case Base(Knight) => KnightSteps(f)
    case Base(Pawn) => PawnSteps(f)
    case Base(_) => []
    case Promoted(PRook) => Diagonal
    case Promoted(PBishop) => Orthogonal
    case Promoted(_) => GoldSteps(f)
  }

  /** The ray directions of a sliding kind (the lance slides straight ahead only). */
  function SlideDirections(k: Kind, owner: Player): seq<Offset>
  {
    match k
    case Base(Rook) => Orthogonal
    case Base(Bishop) => Diagonal
    case Base(Lance) => [(Forward(owner), 0)]
    case Promoted(PRook) => Orthogonal
    case Promoted(PBishop) => Diagonal
    case _ => []
  }

  // ---------------------------------------------------------------------------
  // Raw destinations, ignoring every other piece (getRawMoves, addLineMoves)

  /** On-board squares reached by the offsets offs[i..] from (row, col). */
  function RawSteps(row: int, col: int, offs: seq<Offset>, i: nat): (r: seq<Pos>)
    requires i <= |offs|
    decreases |offs| - i
  {
    if i == |offs| then []
    else
      var q := Pos(row + offs[i].0, col + offs[i].1);
      (if OnBoard(q) then [q] else []) + RawSteps(row, col, offs, i + 1)
  }

  /** The squares from (r, c) onward in direction d, at most n of them, up to the edge. */
  function OpenRay(r: int, c: int, d: Offset, n: nat): (ray: seq<Pos>)
    decreases n
  {
    if n == 0 || !InBounds(r, c) then []
    else [Pos(r, c)] + OpenRay(r + d.0, c + d.1, d, n - 1)
  }

  /** Unblocked rays from (row, col) along dirs[j..], eight squares at most each. */
  function OpenRays(row: int, col: int, dirs: seq<Offset>, j: nat): (r: seq<Pos>)
    requires j <= |dirs|
    decreases |dirs| - j
  {
    if j == |dirs| then []
    else OpenRay(row + dirs[j].0, col + dirs[j].1, dirs[j], 8) + OpenRays(row, col, dirs, j + 1)
  }

  /** getRawMoves: where a piece could go on an empty board. */
  function RawMoves(k: Kind, owner: Player, row: int, col: int): (r: seq<Pos>)
  {
    if k == Promoted(PRook) || k == Promoted(PBishop) then
      OpenRays(row, col, SlideDirections(k, owner), 0) + RawSteps(row, col, StepPattern(k, owner), 0)
    else if k == Base(Rook) || k == Base(Bishop) || k == Base(Lance) then
      OpenRays(row, col, SlideDirections(k, owner), 0)
    else RawSteps(row, col, StepPattern(k, owner), 0)
  }

  lemma {:induction false} RawStepsOnBoard(row: int, col: int, offs: seq<Offset>, i: nat)
    requires i <= |offs|
    ensures forall q <- RawSteps(row, col, offs, i) :: OnBoard(q)
    decreases |offs| - i
  {
    if i < |offs| {
      RawStepsOnBoard(row, col, offs, i + 1);
    }
  }

  lemma {:induction false} OpenRayOnBoard(r: int, c: int, d: Offset, n: nat)
    ensures forall q <- OpenRay(r, c, d, n) :: OnBoard(q)
    decreases n
  {
    if n > 0 && InBounds(r, c) {
      OpenRayOnBoard(r + d.0, c + d.1, d, n - 1);
    }
  }

  lemma {:induction false} OpenRaysOnBoard(row: int, col: int, dirs: seq<Offset>, j: nat)
    requires j <= |dirs|
    ensures forall q <- OpenRays(row, col, dirs, j) :: OnBoard(q)
    decreases |dirs| - j
  {
    if j < |dirs| {
      OpenRayOnBoard(row + dirs[j].0, col + dirs[j].1, dirs[j], 8);
      OpenRaysOnBoard(row, col, dirs, j + 1);
    }
  }

  /** getRawMoves never lists a square off the board. */
  lemma RawMovesOnBoard(k: Kind, owner: Player, row: int, col: int)
    ensures forall q <- RawMoves(k, owner, row, col) :: OnBoard(q)
  {
    var dirs, offs := SlideDirections(k, owner), StepPattern(k, owner);
    RawStepsOnBoard(row, col, offs, 0);
    OpenRaysOnBoard(row, col, dirs, 0);
    var rays, steps := OpenRays(row, col, dirs, 0), RawSteps(row, col, offs, 0);
    if k == Promoted(PRook) || k == Promoted(PBishop) {
      assert RawMoves(k, owner, row, col) == rays + steps;
    } else if k == Base(Rook) || k == Base(Bishop) || k == Base(Lance) {
      assert RawMoves(k, owner, row, col) == rays;
    } else {
      assert RawMoves(k, owner, row, col) == steps;
    }
  }

  // ---------------------------------------------------------------------------
  // Destinations on a board (getFilteredLineMoves, getNonSlideMoves)

  /** Step destinations of offs[i..] that are on the board and not held by the mover. */
  function Steps(b: Board, owner: Player, row: int, col: int, offs: seq<Offset>, i: nat): (r: seq<Pos>)
    requires i <= |offs|
    decreases |offs| - i
  {
    if i == |offs| then []
    else
      var q := Pos(row + offs[i].0, col + offs[i].1);
      (if EnterableAt(b, owner, q) then [q] else []) + Steps(b, owner, row, col, offs, i + 1)
  }

  /** The positions of ps that the mover may enter, in order. */
  function KeepEnterable(b: Board, owner: Player, ps: seq<Pos>): (r: seq<Pos>)
  {
    if ps == [] then []
    else (if EnterableAt(b, owner, ps[0]) then [ps[0]] else []) + KeepEnterable(b, owner, ps[1..])
  }

  /** A sliding run from (r, c) in direction d, at most n squares: the empty squares
      in a row, then the first occupied square if and only if it holds an enemy. */
  function Ray(b: Board, owner: Player, r: int, c: int, d: Offset, n: nat): (ray: seq<Pos>)
    decreases n
  {
    if n == 0 || !InBounds(r, c) then []
    else if b[r][c].Occupied? then (if b[r][c].piece.owner != owner then [Pos(r, c)] else [])
    else [Pos(r, c)] + Ray(b, owner, r + d.0, c + d.1, d, n - 1)
  }

  function Next(q: Pos, d: Offset): Pos
  {
    Pos(q.row + d.0, q.col + d.1)
  }

  /** Ray computes exactly a run in the sense of IsRun. */
  lemma {:induction false} RayIsRun(b: Board, owner: Player, r: int, c: int, d: Offset, n: nat)
    ensures IsRun(b, owner, r, c, d, n, Ray(b, owner, r, c, d, n))
    decreases n
  {
    if n > 0 && InBounds(r, c) && b[r][c].Empty? {
      RayIsRun(b, owner, r + d.0, c + d.1, d, n - 1);
      var tail := Ray(b, owner, r + d.0, c + d.1, d, n - 1);
      var ray := Ray(b, owner, r, c, d, n);
      assert ray == [Pos(r, c)] + tail;
      forall i | 0 <= i < |ray| - 1
        ensures ray[i + 1] == Next(ray[i], d)
      {
        if i > 0 { assert ray[i + 1] == tail[i] && ray[i] == tail[i - 1]; }
      }
      forall i | 0 <= i < |ray| - 1
        ensures OnBoard(ray[i]) && At(b, ray[i]).Empty?
      {
        if i > 0 { assert ray[i] == tail[i - 1]; }
      }
    }
  }

  /** The run of squares a slider reaches from (r, c) in direction d within n squares:
      consecutive squares starting at (r, c), all enterable, all empty but possibly the
      last; and it stops only at the n-th square, the edge, an occupied square it
      includes (an enemy) or an occupied square it does not (the mover's own). */
  predicate IsRun(b: Board, owner: Player, r: int, c: int, d: Offset, n: nat, ray: seq<Pos>)
  {
    |ray| <= n &&
    (|ray| > 0 ==> ray[0] == Pos(r, c)) &&
    (forall i | 0 <= i < |ray| - 1 :: ray[i + 1] == Next(ray[i], d)) &&
    (forall q <- ray :: EnterableAt(b, owner, q)) &&
    (forall i | 0 <= i < |ray| - 1 :: OnBoard(ray[i]) && At(b, ray[i]).Empty?) &&
    (|ray| < n ==>
       var stop := if |ray| == 0 then Pos(r, c) else Next(ray[|ray| - 1], d);
       (|ray| > 0 && OnBoard(ray[|ray| - 1]) && At(b, ray[|ray| - 1]).Occupied?) || !EnterableAt(b, owner, stop))
  }

  /** Sliding runs from (row, col) along dirs[j..]. */
  function Rays(b: Board, owner: Player, row: int, col: int, dirs: seq<Offset>, j: nat): (r: seq<Pos>)
    requires j <= |dirs|
    decreases |dirs| - j
  {
    if j == |dirs| then []
    else Ray(b, owner, row + dirs[j].0, col + dirs[j].1, dirs[j], 8) + Rays(b, owner, row, col, dirs, j + 1)
  }

  /** getNonSlideMoves: the raw pattern without squares held by the mover. */
  function NonSlideMoves(b: Board, k: Kind, owner: Player, row: int, col: int): seq<Pos>
  {
    KeepEnterable(b, owner, RawMoves(k, owner, row, col))
  }

  /** getFilteredLineMoves: the pseudo-legal destinations of a piece of kind k at
      (row, col). The dragon and the horse list their single steps before their rays. */
  function PieceTargets(b: Board, k: Kind, owner: Player, row: int, col: int): (r: seq<Pos>)
  {
    if k == Promoted(PRook) || k == Promoted(PBishop) then
      Steps(b, owner, row, col, StepPattern(k, owner), 0) + Rays(b, owner, row, col, SlideDirections(k, owner), 0)
    else if k == Base(Rook) || k == Base(Bishop) || k == Base(Lance) then
      Rays(b, owner, row, col, SlideDirections(k, owner), 0)
    else NonSlideMoves(b, k, owner, row, col)
  }

  /** getPieceMoves: nothing for an empty square or a square of the other side. */
  function PieceMoves(b: Board, owner: Player, row: int, col: int): seq<Pos>
    requires InBounds(row, col)
  {
    if b[row][col].Empty? || b[row][col].piece.owner != owner then []
    else PieceTargets(b, b[row][col].piece.kind, owner, row, col)
  }

  /** Single steps land on the board, on a square the mover may enter. */
  lemma {:induction false} StepsEnterable(b: Board, owner: Player, row: int, col: int, offs: seq<Offset>, i: nat)
    requires i <= |offs|
    ensures forall q <- Steps(b, owner, row, col, offs, i) :: EnterableAt(b, owner, q)
    decreases |offs| - i
  {
    if i < |offs| {
      StepsEnterable(b, owner, row, col, offs, i + 1);
    }
  }

  /** The filter keeps exactly the enterable positions, and nothing else. */
  lemma {:induction false} KeepEnterableExactly(b: Board, owner: Player, ps: seq<Pos>)
    ensures forall q <- KeepEnterable(b, owner, ps) :: q in ps && EnterableAt(b, owner, q)
    ensures forall q <- ps :: EnterableAt(b, owner, q) ==> q in KeepEnterable(b, owner, ps)
  {
    if ps != [] {
      KeepEnterableExactly(b, owner, ps[1..]);
      assert ps == [ps[0]] + ps[1..];
    }
  }

  lemma {:induction false} RaysEnterable(b: Board, owner: Player, row: int, col: int, dirs: seq<Offset>, j: nat)
    requires j <= |dirs|
    ensures forall q <- Rays(b, owner, row, col, dirs, j) :: EnterableAt(b, owner, q)
    decreases |dirs| - j
  {
    if j < |dirs| {
      RayIsRun(b, owner, row + dirs[j].0, col + dirs[j].1, dirs[j], 8);
      RaysEnterable(b, owner, row, col, dirs, j + 1);
    }
  }

  /** Every destination a piece is given is on the board and not held by its owner. */
  lemma PieceTargetsEnterable(b: Board, k: Kind, owner: Player, row: int, col: int)
    ensures forall q <- PieceTargets(b, k, owner, row, col) :: EnterableAt(b, owner, q)
  {
    StepsEnterable(b, owner, row, col, StepPattern(k, owner), 0);
    RaysEnterable(b, owner, row, col, SlideDirections(k, owner), 0);
    KeepEnterableExactly(b, owner, RawMoves(k, owner, row, col));
  }

  // ---------------------------------------------------------------------------
  // Promotion (canPromoteMove, mustPromote)

  /** The three rows nearest the opponent's edge. */
  predicate InPromotionZone(owner: Player, row: int)
  {
    if owner == Sente then row <= 2 else row >= 6
  }

  predicate CanPromoteMove(k: Kind, owner: Player, fromRow: int, toRow: int)
  {
    CanPromote(k) && !IsPromoted(k) &&
    (if owner == Sente then fromRow <= 2 || toRow <= 2 else fromRow >= 6 || toRow >= 6)
  }

  /** An unpromoted pawn or lance on the last row, or a knight on the last two rows. */
  predicate MustPromote(k: Kind, owner: Player, toRow: int)
  {
    if owner == Sente then
      (if k == Base(Pawn) || k == Base(Lance) then toRow == 0
       else if k == Base(Knight) then toRow <= 1
       else false)
    else
      (if k == Base(Pawn) || k == Base(Lance) then toRow == 8
       else if k == Base(Knight) then toRow >= 7
       else false)
  }

  // ---------------------------------------------------------------------------
  // Finding the king and detecting check (findKing, isInCheck)

  predicate KingAt(b: Board, r: int, c: int, p: Player)
    requires InBounds(r, c)
  {
    b[r][c] == Occupied(Piece(Base(King), p))
  }

  /** (r, c) comes before (r', c') in the row-major order of the program's scans. */
  predicate Before(r: int, c: int, r': int, c': int)
  {
    r < r' || (r == r' && c < c')
  }

  /** The first king of p, in row-major order, at (r, c) or later. */
  function KingFrom(b: Board, p: Player, r: nat, c: nat): Option<Pos>
    requires r <= 9 && c <= 9
    decreases 9 - r, 9 - c
  {
    if r == 9 then None
    else if c == 9 then KingFrom(b, p, r + 1, 0)
    else if KingAt(b, r, c, p) then Some(Pos(r, c))
    else KingFrom(b, p, r, c + 1)
  }

  function KingPos(b: Board, p: Player): Option<Pos>
  {
    KingFrom(b, p, 0, 0)
  }

  /** The piece of side on (r, c) has target among its pseudo-legal destinations. */
  predicate Attacks(b: Board, side: Player, r: int, c: int, target: Pos)
    requires InBounds(r, c)
  {
    b[r][c].Occupied? && b[r][c].piece.owner == side
    && target in PieceTargets(b, b[r][c].piece.kind, side, r, c)
  }

  /** p has a king and some piece of the other side attacks its square. */
  predicate InCheck(b: Board, p: Player)
  {
    var kp := KingPos(b, p);
    kp.Some? && exists r, c | 0 <= r < 9 && 0 <= c < 9 :: Attacks(b, Opponent(p), r, c, kp.value)
  }

  /** Some piece of side on (r, c) or later, in row-major order, attacks target. */
  predicate AttackerFrom(b: Board, side: Player, target: Pos, r: nat, c: nat)
    requires r <= 9 && c <= 9
    decreases 9 - r, 9 - c
  {
    if r == 9 then false
    else if c == 9 then AttackerFrom(b, side, target, r + 1, 0)
    else Attacks(b, side, r, c, target) || AttackerFrom(b, side, target, r, c + 1)
  }

  // ---------------------------------------------------------------------------
  // Hand records

  /** hand[k] = v: overwrites the first entry for k where it stands, or appends a new key. */
  function SetCount(h: Hand, k: BaseKind, v: nat): (r: Hand)
    ensures Count(r, k) == v
    ensures forall k' | k' != k :: Count(r, k') == Count(h, k')
  {
    if h == [] then [HandEntry(k, v)]
    else if h[0].kind == k then [HandEntry(k, v)] + h[1..]
    else [h[0]] + SetCount(h[1..], k, v)
  }

  /** delete hand[k]. */
  function Delete(h: Hand, k: BaseKind): (r: Hand)
    ensures Count(r, k) == 0
    ensures forall k' | k' != k :: Count(r, k') == Count(h, k')
  {
    if h == [] then []
    else if h[0].kind == k then Delete(h[1..], k)
    else [h[0]] + Delete(h[1..], k)
  }

  /** hand[k] = (hand[k] || 0) + 1. */
  function Credit(h: Hand, k: BaseKind): Hand
  {
    SetCount(h, k, Count(h, k) + 1)
  }

  /** hand[k] = (hand[k] || 0) - 1, and the key is deleted once that is 0 or less. */
  function Debit(h: Hand, k: BaseKind): Hand
  {
    if Count(h, k) - 1 <= 0 then Delete(h, k) else SetCount(h, k, Count(h, k) - 1)
  }

  /** The keys a hand names. */
  function Keys(h: Hand): set<BaseKind>
  {
    set i | 0 <= i < |h| :: h[i].kind
  }

  /** A new first entry keeps the keys distinct when its key is not among the rest. */
  lemma DistinctCons(e: HandEntry, t: Hand)
    requires DistinctKinds(t) && e.kind !in Keys(t)
    ensures DistinctKinds([e] + t)
    ensures Keys([e] + t) == Keys(t) + {e.kind}
  {
    var h := [e] + t;
    forall i, j | 0 <= i < j < |h| ensures h[i].kind != h[j].kind {
      assert h[j] == t[j - 1];
      if i > 0 {
        assert h[i] == t[i - 1];
      }
    }
    forall x | x in Keys(h) ensures x in Keys(t) + {e.kind} {
      var i :| 0 <= i < |h| && h[i].kind == x;
      if i > 0 {
        assert h[i] == t[i - 1];
      }
    }
    assert h[0] == e;
    forall x | x in Keys(t) ensures x in Keys(h) {
      var i :| 0 <= i < |t| && t[i].kind == x;
      assert h[i + 1] == t[i];
    }
  }

  /** The rest of a hand with distinct keys has distinct keys, without the first key. */
  lemma DistinctTail(h: Hand)
    requires |h| > 0 && DistinctKinds(h)
    ensures DistinctKinds(h[1..]) && h[0].kind !in Keys(h[1..])
    ensures h == [h[0]] + h[1..]
  {
    var t := h[1..];
    forall i, j | 0 <= i < j < |t| ensures t[i].kind != t[j].kind {
      assert t[i] == h[i + 1] && t[j] == h[j + 1];
    }
    forall i | 0 <= i < |t| ensures t[i].kind != h[0].kind {
      assert t[i] == h[i + 1];
    }
  }

  /** hand[k] = v keeps the keys distinct and adds at most the key k. */
  lemma {:induction false} SetCountKeepsDistinct(h: Hand, k: BaseKind, v: nat)
    requires DistinctKinds(h)
    ensures DistinctKinds(SetCount(h, k, v)) && Keys(SetCount(h, k, v)) <= Keys(h) + {k}
  {
    if h == [] {
    } else {
      DistinctTail(h);
      if h[0].kind == k {
        DistinctCons(HandEntry(k, v), h[1..]);
      } else {
        SetCountKeepsDistinct(h[1..], k, v);
        DistinctCons(h[0], SetCount(h[1..], k, v));
        DistinctCons(h[0], h[1..]);
      }
    }
  }

  /** delete hand[k] keeps the keys distinct and adds no key. */
  lemma {:induction false} DeleteKeepsDistinct(h: Hand, k: BaseKind)
    requires DistinctKinds(h)
    ensures DistinctKinds(Delete(h, k)) && Keys(Delete(h, k)) <= Keys(h)
  {
    if h != [] {
      DistinctTail(h);
      DeleteKeepsDistinct(h[1..], k);
      DistinctCons(h[0], h[1..]);
      if h[0].kind != k {
        DistinctCons(h[0], Delete(h[1..], k));
      }
    }
  }

  // ---------------------------------------------------------------------------
  // Applying a move (applyMove)

  datatype Applied = Applied(board: Board, captured: Captured)

  /** What applyMove needs of its move: squares on the board, a piece on the origin
      of a board move (the program dereferences it), and a base kind for a drop. */
  predicate Applicable(b: Board, m: Move)
  {
    OnBoard(m.to) &&
    match m.from
    case Some(f) => OnBoard(f) && At(b, f).Occupied?
    case None => m.dropPiece.Some? || m.piece.Base?
  }

  /** The kind a drop places: dropPiece, or else the move's own kind. */
  function DropKind(m: Move): BaseKind
    requires m.from.None? && (m.dropPiece.Some? || m.piece.Base?)
  {
    if m.dropPiece.Some? then m.dropPiece.value else m.piece.base
  }

  /** The new board and hands after p plays m; the inputs are values and stay as they were. */
  function Apply(b: Board, cap: Captured, m: Move, p: Player): Applied
    requires Applicable(b, m)
  {
    match m.from
    case Some(f) =>
      var piece := At(b, f).piece;
      var cleared := SetSquare(b, f.row, f.col, Empty);
      var target := cleared[m.to.row][m.to.col];
      var hands := if target.Occupied? then WithHand(cap, p, Credit(HandOf(cap, p), BaseType(target.piece.kind))) else cap;
      var kind := if m.promote && CanPromote(piece.kind) then Promote(piece.kind) else piece.kind;
      Applied(SetSquare(cleared, m.to.row, m.to.col, Occupied(Piece(kind, p))), hands)
    case None =>
      var k := DropKind(m);
      Applied(SetSquare(b, m.to.row, m.to.col, Occupied(Piece(Base(k), p))), WithHand(cap, p, Debit(HandOf(cap, p), k)))
  }

  // ---------------------------------------------------------------------------
  // Drops (hasPawnInColumn, getDropMoves)

  /** The double-pawn test: p has an unpromoted pawn in column col. */
  predicate PawnInColumn(b: Board, p: Player, col: int)
    requires 0 <= col < 9
  {
    exists r | 0 <= r < 9 :: b[r][col] == Occupied(Piece(Base(Pawn), p))
  }

  function DropMove(k: BaseKind, to: Pos): Move
  {
    Move(None, to, Base(k), false, Empty, Some(k))
  }

  /** A drop of k by p on (r, c): an empty square, no second unpromoted pawn in the
      column, and not a square where the dropped piece could never move again. */
  predicate DropAllowed(b: Board, p: Player, k: BaseKind, r: int, c: int)
    requires InBounds(r, c)
  {
    b[r][c].Empty? && !(k == Pawn && PawnInColumn(b, p, c)) && !MustPromote(Base(k), p, r)
  }

  predicate DropCandidate(b: Board, cap: Captured, p: Player, m: Move)
  {
    m.dropPiece.Some? && m == DropMove(m.dropPiece.value, m.to) && OnBoard(m.to)
    && Count(HandOf(cap, p), m.dropPiece.value) > 0
    && DropAllowed(b, p, m.dropPiece.value, m.to.row, m.to.col)
  }

  /** Drops of k on row r from column c on. */
  function DropCells(b: Board, p: Player, k: BaseKind, r: int, c: nat): (ms: seq<Move>)
    requires 0 <= r < 9 && c <= 9
    decreases 9 - c
  {
    if c == 9 then []
    else (if DropAllowed(b, p, k, r, c) then [DropMove(k, Pos(r, c))] else []) + DropCells(b, p, k, r, c + 1)
  }

  /** Drops of k on rows r.. in row-major order. */
  function DropRows(b: Board, p: Player, k: BaseKind, r: nat): (ms: seq<Move>)
    requires r <= 9
    decreases 9 - r
  {
    if r == 9 then [] else DropCells(b, p, k, r, 0) + DropRows(b, p, k, r + 1)
  }

  /** Drops for the keys h[i..] of the hand h, in key order, skipping kinds not held. */
  function DropsForKeys(b: Board, p: Player, h: Hand, i: nat): (ms: seq<Move>)
    requires i <= |h|
    decreases |h| - i
  {
    if i == |h| then [] else KeyDrops(b, p, h, i) + DropsForKeys(b, p, h, i + 1)
  }

  /** The drops for the key h[i]: none unless its count is positive. */
  function KeyDrops(b: Board, p: Player, h: Hand, i: nat): seq<Move>
    requires i < |h|
  {
    if Count(h, h[i].kind) > 0 then DropRows(b, p, h[i].kind, 0) else []
  }

  function DropMoves(b: Board, cap: Captured, p: Player): (ms: seq<Move>)
  {
    DropsForKeys(b, p, HandOf(cap, p), 0)
  }

  lemma {:induction false} DropCellsSound(b: Board, p: Player, k: BaseKind, r: int, c: nat)
    requires 0 <= r < 9 && c <= 9
    ensures forall m <- DropCells(b, p, k, r, c) :: (m.dropPiece == Some(k) && m == DropMove(k, m.to)
      && OnBoard(m.to) && DropAllowed(b, p, k, m.to.row, m.to.col))
    decreases 9 - c
  {
    if c < 9 {
      DropCellsSound(b, p, k, r, c + 1);
    }
  }

  lemma {:induction false} DropRowsSound(b: Board, p: Player, k: BaseKind, r: nat)
    requires r <= 9
    ensures forall m <- DropRows(b, p, k, r) :: (m.dropPiece == Some(k) && m == DropMove(k, m.to)
      && OnBoard(m.to) && DropAllowed(b, p, k, m.to.row, m.to.col))
    decreases 9 - r
  {
    if r < 9 {
      DropCellsSound(b, p, k, r, 0);
      DropRowsSound(b, p, k, r + 1);
    }
  }

  lemma {:induction false} DropsForKeysSound(b: Board, p: Player, h: Hand, i: nat)
    requires i <= |h|
    ensures forall m <- DropsForKeys(b, p, h, i) :: (m.dropPiece.Some? && Count(h, m.dropPiece.value) > 0
      && m == DropMove(m.dropPiece.value, m.to) && OnBoard(m.to)
      && DropAllowed(b, p, m.dropPiece.value, m.to.row, m.to.col))
    decreases |h| - i
  {
    if i < |h| {
      DropRowsSound(b, p, h[i].kind, 0);
      DropsForKeysSound(b, p, h, i + 1);
    }
  }

  /** Every drop getDropMoves lists is an allowed drop of a kind p holds. */
  lemma DropMovesSound(b: Board, cap: Captured, p: Player)
    ensures forall m <- DropMoves(b, cap, p) :: DropCandidate(b, cap, p, m)
  {
    DropsForKeysSound(b, p, HandOf(cap, p), 0);
  }

  // ---------------------------------------------------------------------------
  // Board moves and the legal-move filter (getAllLegalMoves)

  /** A board move of p's piece of kind m.piece to a pseudo-legal destination, promoting
      only where promotion is possible and never declining a forced promotion. */
  predicate BoardCandidate(b: Board, p: Player, m: Move)
  {
    m.from.Some? && OnBoard(m.from.value) && OnBoard(m.to) && m.dropPiece.None? &&
    var f := m.from.value;
    At(b, f) == Occupied(Piece(m.piece, p)) &&
    m.to in PieceTargets(b, m.piece, p, f.row, f.col) && m.capture == At(b, m.to) &&
    (m.promote ==> CanPromoteMove(m.piece, p, f.row, m.to.row)) &&
    (!m.promote ==> !MustPromote(m.piece, p, m.to.row))
  }

  /** The moves to one destination: promoted first when promotion is possible, then
      unpromoted unless promotion is forced. */
  function Expand(b: Board, p: Player, from: Pos, k: Kind, to: Pos): seq<Move>
  {
    var plain := Move(Some(from), to, k, false, SquareAt(b, to), None);
    if CanPromoteMove(k, p, from.row, to.row) then
      [plain.(promote := true)] + (if !MustPromote(k, p, to.row) then [plain] else [])
    else [plain]
  }

  function ExpandAll(b: Board, p: Player, from: Pos, k: Kind, ts: seq<Pos>, i: nat): (ms: seq<Move>)
    requires i <= |ts|
    decreases |ts| - i
  {
    if i == |ts| then []
    else Expand(b, p, from, k, ts[i]) + ExpandAll(b, p, from, k, ts, i + 1)
  }

  function SquareMoves(b: Board, p: Player, r: int, c: int): (ms: seq<Move>)
    requires InBounds(r, c)
  {
    if b[r][c].Empty? || b[r][c].piece.owner != p then []
    else
      var k := b[r][c].piece.kind;
      ExpandAll(b, p, Pos(r, c), k, PieceTargets(b, k, p, r, c), 0)
  }

  function BoardCells(b: Board, p: Player, r: int, c: nat): (ms: seq<Move>)
    requires 0 <= r < 9 && c <= 9
    decreases 9 - c
  {
    if c == 9 then [] else SquareMoves(b, p, r, c) + BoardCells(b, p, r, c + 1)
  }

  function BoardRows(b: Board, p: Player, r: nat): (ms: seq<Move>)
    requires r <= 9
    decreases 9 - r
  {
    if r == 9 then [] else BoardCells(b, p, r, 0) + BoardRows(b, p, r + 1)
  }

  /** Every pseudo-legal board move, then every drop, before the self-check filter. */
  function Candidates(b: Board, cap: Captured, p: Player): (ms: seq<Move>)
  {
    BoardRows(b, p, 0) + DropMoves(b, cap, p)
  }

  /** Every candidate is a board move or a drop, and applyMove can play it. */
  lemma CandidatesSound(b: Board, cap: Captured, p: Player)
    ensures forall m <- Candidates(b, cap, p) :: (BoardCandidate(b, p, m) || DropCandidate(b, cap, p, m)) && Applicable(b, m)
  {
    BoardRowsSound(b, p, 0);
    DropMovesSound(b, cap, p);
  }

  /** The moves built for a list of destinations start at from, move kind k to one of
      those destinations, record what stands there, and promote only as allowed. */
  lemma {:induction false} ExpandAllSound(b: Board, p: Player, from: Pos, k: Kind, ts: seq<Pos>, i: nat)
    requires i <= |ts|
    requires forall t <- ts :: OnBoard(t)
    ensures forall m <- ExpandAll(b, p, from, k, ts, i) :: (m.from == Some(from) && m.piece == k && m.to in ts
      && m.dropPiece.None? && m.capture == At(b, m.to)
      && (m.promote ==> CanPromoteMove(k, p, from.row, m.to.row))
      && (!m.promote ==> !MustPromote(k, p, m.to.row)))
    decreases |ts| - i
  {
    if i < |ts| {
      ExpandAllSound(b, p, from, k, ts, i + 1);
      ExpandChoices(b, p, from, k, ts[i]);
    }
  }

  /** Every move the board scan lists is a pseudo-legal board move. */
  lemma SquareMovesSound(b: Board, p: Player, r: int, c: int)
    requires InBounds(r, c)
    ensures forall m <- SquareMoves(b, p, r, c) :: BoardCandidate(b, p, m)
  {
    if b[r][c].Occupied? && b[r][c].piece.owner == p {
      var k := b[r][c].piece.kind;
      var ts := PieceTargets(b, k, p, r, c);
      PieceTargetsEnterable(b, k, p, r, c);
      ExpandAllSound(b, p, Pos(r, c), k, ts, 0);
      assert SquareMoves(b, p, r, c) == ExpandAll(b, p, Pos(r, c), k, ts, 0);
      forall m <- SquareMoves(b, p, r, c)
        ensures BoardCandidate(b, p, m)
      {
        assert m.to in ts && OnBoard(m.to);
      }
    }
  }

  lemma {:induction false} BoardCellsSound(b: Board, p: Player, r: int, c: nat)
    requires 0 <= r < 9 && c <= 9
    ensures forall m <- BoardCells(b, p, r, c) :: BoardCandidate(b, p, m)
    decreases 9 - c
  {
    if c < 9 {
      SquareMovesSound(b, p, r, c);
      BoardCellsSound(b, p, r, c + 1);
    }
  }

  lemma {:induction false} BoardRowsSound(b: Board, p: Player, r: nat)
    requires r <= 9
    ensures forall m <- BoardRows(b, p, r) :: BoardCandidate(b, p, m)
    decreases 9 - r
  {
    if r < 9 {
      BoardCellsSound(b, p, r, 0);
      BoardRowsSound(b, p, r + 1);
    }
  }

  /** After m, p's king is not attacked. */
  predicate LeavesKingSafe(b: Board, cap: Captured, p: Player, m: Move)
    requires Applicable(b, m)
  {
    !InCheck(Apply(b, cap, m, p).board, p)
  }

  /** The test of the final filter of getAllLegalMoves. */
  function SafeTest(b: Board, cap: Captured, p: Player): Move -> bool
  {
    m => Applicable(b, m) && LeavesKingSafe(b, cap, p, m)
  }

  /** The elements of xs[i..] that pass keep, in order. */
  function Filter<T>(xs: seq<T>, keep: T -> bool, i: nat): (r: seq<T>)
    requires i <= |xs|
    decreases |xs| - i
  {
    if i == |xs| then []
    else (if keep(xs[i]) then [xs[i]] else []) + Filter(xs, keep, i + 1)
  }

  /** The filter keeps only elements of xs that pass the test. */
  lemma {:induction false} FilterSound<T>(xs: seq<T>, keep: T -> bool, i: nat)
    requires i <= |xs|
    ensures forall x <- Filter(xs, keep, i) :: x in xs && keep(x)
    decreases |xs| - i
  {
    if i < |xs| {
      FilterSound(xs, keep, i + 1);
      var here := if keep(xs[i]) then [xs[i]] else [];
      assert Filter(xs, keep, i) == here + Filter(xs, keep, i + 1);
    }
  }

  /** The filter drops no element of xs[i..] that passes the test. */
  lemma {:induction false} FilterComplete<T>(xs: seq<T>, keep: T -> bool, i: nat, j: nat)
    requires i <= j < |xs|
    requires keep(xs[j])
    ensures xs[j] in Filter(xs, keep, i)
    decreases j - i
  {
    var here := if keep(xs[i]) then [xs[i]] else [];
    var rest := Filter(xs, keep, i + 1);
    assert Filter(xs, keep, i) == here + rest;
    if i < j {
      FilterComplete(xs, keep, i + 1, j);
      assert xs[j] in rest;
    } else {
      assert xs[j] in here;
    }
  }

  /** getAllLegalMoves: the candidates that leave the mover's king safe, in order. */
  function LegalMoves(b: Board, cap: Captured, p: Player): (r: seq<Move>)
    ensures forall m <- r :: Applicable(b, m)
  {
    FilterSound(Candidates(b, cap, p), SafeTest(b, cap, p), 0);
    Filter(Candidates(b, cap, p), SafeTest(b, cap, p), 0)
  }

  predicate Checkmate(b: Board, cap: Captured, p: Player)
  {
    InCheck(b, p) && |LegalMoves(b, cap, p)| == 0
  }

  predicate Stalemate(b: Board, cap: Captured, p: Player)
  {
    !InCheck(b, p) && |LegalMoves(b, cap, p)| == 0
  }

  // ---------------------------------------------------------------------------
  // Properties of move generation

  /** A rook on (4,4) with an enemy on (4,7) and nothing between: its run to the
      right is (4,5), (4,6) and the capture on (4,7), and no run reaches (4,8). */
  lemma {:induction false} RookRunStopsAtEnemy(b: Board, p: Player)
    requires b[4][5].Empty? && b[4][6].Empty?
    requires b[4][7].Occupied? && b[4][7].piece.owner != p
    ensures Ray(b, p, 4, 5, (0, 1), 8) == [Pos(4, 5), Pos(4, 6), Pos(4, 7)]
    ensures Pos(4, 8) !in Rays(b, p, 4, 4, Orthogonal, 0)
  {
    RightRunOfScenario(b, p);
    EdgeNotInRays(b, p);
  }

  lemma EdgeNotInRays(b: Board, p: Player)
    requires b[4][5].Empty? && b[4][6].Empty?
    requires b[4][7].Occupied? && b[4][7].piece.owner != p
    ensures Pos(4, 8) !in Rays(b, p, 4, 4, Orthogonal, 0)
  {
    if Pos(4, 8) in Rays(b, p, 4, 4, Orthogonal, 0) {
      var i := InRaysSomeRay(b, p, 4, 4, Orthogonal, 0, Pos(4, 8));
      EdgeNotInRay(b, p, i);
    }
  }

  lemma {:induction false} EdgeNotInRay(b: Board, p: Player, i: nat)
    requires b[4][5].Empty? && b[4][6].Empty?
    requires b[4][7].Occupied? && b[4][7].piece.owner != p
    requires i < 4
    ensures Pos(4, 8) !in Ray(b, p, 4 + Orthogonal[i].0, 4 + Orthogonal[i].1, Orthogonal[i], 8)
  {
    if i == 3 {
      RightRunOfScenario(b, p);
    } else {
      OtherRunsMissEdge(b, p);
    }
  }

  /** A square in the runs of dirs[j..] lies in the run of one of those directions. */
  lemma {:induction false} InRaysSomeRay(b: Board, owner: Player, row: int, col: int, dirs: seq<Offset>, j: nat, q: Pos)
    returns (i: nat)
    requires j <= |dirs|
    requires q in Rays(b, owner, row, col, dirs, j)
    ensures j <= i < |dirs| && q in Ray(b, owner, row + dirs[i].0, col + dirs[i].1, dirs[i], 8)
    decreases |dirs| - j
  {
    var head, tail := Ray(b, owner, row + dirs[j].0, col + dirs[j].1, dirs[j], 8), Rays(b, owner, row, col, dirs, j + 1);
    assert Rays(b, owner, row, col, dirs, j) == head + tail;
    if q in head {
      i := j;
    } else {
      i := InRaysSomeRay(b, owner, row, col, dirs, j + 1, q);
    }
  }

  /** The runs up, down and to the left of (4,4) never reach column 8. */
  lemma OtherRunsMissEdge(b: Board, p: Player)
    ensures Pos(4, 8) !in Ray(b, p, 3, 4, (-1, 0), 8)
    ensures Pos(4, 8) !in Ray(b, p, 5, 4, (1, 0), 8)
    ensures Pos(4, 8) !in Ray(b, p, 4, 3, (0, -1), 8)
  {
    RayIsRun(b, p, 3, 4, (-1, 0), 8);
    RayIsRun(b, p, 5, 4, (1, 0), 8);
    RayIsRun(b, p, 4, 3, (0, -1), 8);
    RunStaysOnSide(b, p, 3, 4, (-1, 0), 8, Ray(b, p, 3, 4, (-1, 0), 8));
    RunStaysOnSide(b, p, 5, 4, (1, 0), 8, Ray(b, p, 5, 4, (1, 0), 8));
    RunStaysOnSide(b, p, 4, 3, (0, -1), 8, Ray(b, p, 4, 3, (0, -1), 8));
  }

  lemma RightRunOfScenario(b: Board, p: Player)
    requires b[4][5].Empty? && b[4][6].Empty?
    requires b[4][7].Occupied? && b[4][7].piece.owner != p
    ensures Ray(b, p, 4, 5, (0, 1), 8) == [Pos(4, 5), Pos(4, 6), Pos(4, 7)]
  {
    assert Ray(b, p, 4, 7, (0, 1), 6) == [Pos(4, 7)];
    assert Ray(b, p, 4, 6, (0, 1), 7) == [Pos(4, 6)] + Ray(b, p, 4, 7, (0, 1), 6);
  }

  /** A run never goes back against its direction. */
  lemma RunStaysOnSide(b: Board, p: Player, r: int, c: int, d: Offset, n: nat, ray: seq<Pos>)
    requires IsRun(b, p, r, c, d, n, ray)
    ensures forall q <- ray :: ((d.0 == 0 ==> q.row == r) && (d.1 == 0 ==> q.col == c)
      && (d.1 < 0 ==> q.col <= c) && (d.0 < 0 ==> q.row <= r)
      && (d.1 > 0 ==> q.col >= c) && (d.0 > 0 ==> q.row >= r))
  {
    var i := 0;
    while i < |ray|
      invariant 0 <= i <= |ray|
      invariant forall j | 0 <= j < i :: ((d.0 == 0 ==> ray[j].row == r) && (d.1 == 0 ==> ray[j].col == c)
        && (d.1 < 0 ==> ray[j].col <= c) && (d.0 < 0 ==> ray[j].row <= r)
        && (d.1 > 0 ==> ray[j].col >= c) && (d.0 > 0 ==> ray[j].row >= r))
    {
      if i > 0 { assert ray[i] == Next(ray[i - 1], d); }
      i := i + 1;
    }
  }

  /** getPieceMoves gives nothing for an empty square or an opposing piece, and
      otherwise only on-board squares not held by the mover. */
  lemma PieceMovesSound(b: Board, owner: Player, row: int, col: int)
    requires InBounds(row, col)
    ensures b[row][col].Empty? || b[row][col].piece.owner != owner ==> PieceMoves(b, owner, row, col) == []
    ensures forall q <- PieceMoves(b, owner, row, col) :: OnBoard(q) && (At(b, q).Empty? || At(b, q).piece.owner != owner)
  {
    if b[row][col].Occupied? {
      PieceTargetsEnterable(b, b[row][col].piece.kind, owner, row, col);
    }
  }

  /** canPromoteMove is false for the king, the gold and every promoted kind; for the
      other six it holds iff the origin or the destination lies in the promotion zone. */
  lemma CanPromoteMoveExactly(k: Kind, owner: Player, fromRow: int, toRow: int)
    ensures CanPromoteMove(k, owner, fromRow, toRow) <==>
      k in {Base(Rook), Base(Bishop), Base(Silver), Base(Knight), Base(Lance), Base(Pawn)}
      && (InPromotionZone(owner, fromRow) || InPromotionZone(owner, toRow))
  {
  }

  /** A forced promotion is always a possible one, whatever the origin row. */
  lemma MustPromoteImpliesCanPromote(k: Kind, owner: Player, fromRow: int, toRow: int)
    ensures MustPromote(k, owner, toRow) ==> CanPromoteMove(k, owner, fromRow, toRow)
  {
  }

  /** Promotion is forced exactly where the unpromoted piece would have no move left:
      for the pawn, lance and knight, on the board squares whose raw pattern is empty. */
  lemma ForcedPromotionIsDeadSquare(k: BaseKind, owner: Player, r: int, c: int)
    requires InBounds(r, c)
    ensures k !in {Pawn, Lance, Knight} ==> !MustPromote(Base(k), owner, r)
    ensures k in {Pawn, Lance, Knight} ==> (MustPromote(Base(k), owner, r) <==> RawMoves(Base(k), owner, r, c) == [])
  {
    if k == Pawn {
      PawnPattern(owner, r, c);
    } else if k == Lance {
      LancePattern(owner, r, c);
    } else if k == Knight {
      KnightPattern(owner, r, c);
    }
  }

  lemma PawnPattern(owner: Player, r: int, c: int)
    requires InBounds(r, c)
    ensures RawMoves(Base(Pawn), owner, r, c) == [] <==> !InBounds(r + Forward(owner), c)
  {
    var f := Forward(owner);
    assert RawSteps(r, c, PawnSteps(f), 1) == [];
  }

  lemma LancePattern(owner: Player, r: int, c: int)
    requires InBounds(r, c)
    ensures RawMoves(Base(Lance), owner, r, c) == [] <==> !InBounds(r + Forward(owner), c)
  {
    var d := (Forward(owner), 0);
    LanceRay(owner, r, c);
    assert OpenRay(r + d.0, c + d.1, d, 8) == [] <==> !InBounds(r + d.0, c + d.1);
  }

  lemma LanceRay(owner: Player, r: int, c: int)
    ensures var d := (Forward(owner), 0); RawMoves(Base(Lance), owner, r, c) == OpenRay(r + d.0, c + d.1, d, 8)
  {
    var d := (Forward(owner), 0);
    var dirs := SlideDirections(Base(Lance), owner);
    assert dirs == [d];
    assert RawMoves(Base(Lance), owner, r, c) == OpenRays(r, c, dirs, 0);
    assert OpenRays(r, c, dirs, 0) == OpenRay(r + d.0, c + d.1, d, 8) + OpenRays(r, c, dirs, 1);
    assert OpenRays(r, c, dirs, 1) == [];
  }

  lemma KnightPattern(owner: Player, r: int, c: int)
    requires InBounds(r, c)
    ensures RawMoves(Base(Knight), owner, r, c) == [] <==> !InBounds(r + 2 * Forward(owner), c - 1) && !InBounds(r + 2 * Forward(owner), c + 1)
  {
    var offs := KnightSteps(Forward(owner));
    assert RawSteps(r, c, offs, 2) == [];
    assert RawSteps(r, c, offs, 0) == (if InBounds(r + offs[0].0, c - 1) then [Pos(r + offs[0].0, c - 1)] else [])
      + RawSteps(r, c, offs, 1);
  }

  /** One destination yields a promoting move iff promotion is possible, and a
      non-promoting move iff promotion is not forced. */
  lemma ExpandChoices(b: Board, p: Player, from: Pos, k: Kind, to: Pos)
    requires OnBoard(to)
    ensures var plain := Move(Some(from), to, k, false, At(b, to), None);
      (plain.(promote := true) in Expand(b, p, from, k, to) <==> CanPromoteMove(k, p, from.row, to.row))
      && (plain in Expand(b, p, from, k, to) <==> !MustPromote(k, p, to.row))
      && (forall m <- Expand(b, p, from, k, to) :: m == plain || m == plain.(promote := true))
  {
    MustPromoteImpliesCanPromote(k, p, from.row, to.row);
  }

  // ---------------------------------------------------------------------------
  // Properties of applyMove

  /** A board move: the destination holds the mover's piece, promoted when asked and
      possible; the origin is emptied; no other square changes; the mover's hand gains
      the base kind of a captured piece; the opponent's hand is untouched. */
  lemma ApplyBoardMoveEffect(b: Board, cap: Captured, m: Move, p: Player)
    requires Applicable(b, m) && m.from.Some?
    ensures var f, a := m.from.value, Apply(b, cap, m, p);
      var k := At(b, f).piece.kind;
      var captured := if f != m.to then At(b, m.to) else Empty;
      At(a.board, m.to) == Occupied(Piece(if m.promote && CanPromote(k) then Promote(k) else k, p))
      && (f != m.to ==> At(a.board, f).Empty?)
      && (forall r, c | InBounds(r, c) && Pos(r, c) != f && Pos(r, c) != m.to :: a.board[r][c] == b[r][c])
      && HandOf(a.captured, p) == (if captured.Occupied? then Credit(HandOf(cap, p), BaseType(captured.piece.kind)) else HandOf(cap, p))
      && HandOf(a.captured, Opponent(p)) == HandOf(cap, Opponent(p))
  {
    var f := m.from.value;
    var cleared := SetSquare(b, f.row, f.col, Empty);
    SetSquareAt(b, f.row, f.col, Empty);
    var piece := At(b, f).piece;
    var kind := if m.promote && CanPromote(piece.kind) then Promote(piece.kind) else piece.kind;
    SetSquareAt(cleared, m.to.row, m.to.col, Occupied(Piece(kind, p)));
  }

  /** A drop: the destination holds the dropped base kind, no other square changes, the
      mover's hand holds one fewer of that kind (the entry goes once it reaches zero), and
      the opponent's hand is untouched. */
  lemma ApplyDropEffect(b: Board, cap: Captured, m: Move, p: Player)
    requires Applicable(b, m) && m.from.None?
    ensures var a, k := Apply(b, cap, m, p), DropKind(m);
      At(a.board, m.to) == Occupied(Piece(Base(k), p))
      && (forall r, c | InBounds(r, c) && Pos(r, c) != m.to :: a.board[r][c] == b[r][c])
      && Count(HandOf(a.captured, p), k) == (if Count(HandOf(cap, p), k) <= 1 then 0 else Count(HandOf(cap, p), k) - 1)
      && (forall k' | k' != k :: Count(HandOf(a.captured, p), k') == Count(HandOf(cap, p), k'))
      && HandOf(a.captured, Opponent(p)) == HandOf(cap, Opponent(p))
  {
    SetSquareAt(b, m.to.row, m.to.col, Occupied(Piece(Base(DropKind(m)), p)));
  }

  /** Pieces of base kind k on the board and in both hands. */
  function Total(b: Board, cap: Captured, k: BaseKind): nat
  {
    BoardCount(b, k) + Count(cap.sente, k) + Count(cap.gote, k)
  }

  /** applyMove keeps the keys of both hands distinct: a capture overwrites or adds
      the captured kind's key, a drop lowers or deletes the dropped kind's. */
  lemma ApplyKeepsDistinct(b: Board, cap: Captured, m: Move, p: Player)
    requires Applicable(b, m)
    requires DistinctKinds(cap.sente) && DistinctKinds(cap.gote)
    ensures var a := Apply(b, cap, m, p); DistinctKinds(a.captured.sente) && DistinctKinds(a.captured.gote)
  {
    var h := HandOf(cap, p);
    match m.from
    case Some(f) =>
      var target := SetSquare(b, f.row, f.col, Empty)[m.to.row][m.to.col];
      if target.Occupied? {
        var k := BaseType(target.piece.kind);
        SetCountKeepsDistinct(h, k, Count(h, k) + 1);
      }
    case None =>
      var k := DropKind(m);
      if Count(h, k) - 1 <= 0 {
        DeleteKeepsDistinct(h, k);
      } else {
        SetCountKeepsDistinct(h, k, Count(h, k) - 1);
      }
  }

  /** Moving and capturing never create or destroy a piece: for every base kind the
      board count plus both hand counts is unchanged. A drop keeps it as well when it
      lands on an empty square from a hand that holds the kind. */
  lemma ApplyConserves(b: Board, cap: Captured, m: Move, p: Player, k: BaseKind)
    requires Applicable(b, m)
    requires m.from.None? ==> At(b, m.to).Empty? && Count(HandOf(cap, p), DropKind(m)) > 0
    ensures var a := Apply(b, cap, m, p); Total(a.board, a.captured, k) == Total(b, cap, k)
  {
    var a := Apply(b, cap, m, p);
    if m.from.Some? {
      ApplyBoardMoveEffect(b, cap, m, p);
      BoardMoveCount(b, cap, m, p, k);
    } else {
      ApplyDropEffect(b, cap, m, p);
      BoardCountUpdate(b, m.to.row, m.to.col, Occupied(Piece(Base(DropKind(m)), p)), k);
    }
    TotalByHands(b, cap, p, k);
    TotalByHands(a.board, a.captured, p, k);
  }

  lemma TotalByHands(b: Board, cap: Captured, p: Player, k: BaseKind)
    ensures Total(b, cap, k) == BoardCount(b, k) + Count(HandOf(cap, p), k) + Count(HandOf(cap, Opponent(p)), k)
  {
  }

  /** For a board move, the board loses exactly what the mover's hand gains. */
  lemma BoardMoveCount(b: Board, cap: Captured, m: Move, p: Player, k: BaseKind)
    requires Applicable(b, m) && m.from.Some?
    ensures var a := Apply(b, cap, m, p);
      BoardCount(a.board, k) + Count(HandOf(a.captured, p), k) == BoardCount(b, k) + Count(HandOf(cap, p), k)
  {
    BoardMoveBoardCount(b, cap, m, p, k);
    BoardMoveHandCount(b, cap, m, p, k);
  }

  /** What a board move lifts from (and leaves on) the board: the captured piece. */
  function Taken(b: Board, m: Move): Square
    requires Applicable(b, m) && m.from.Some?
  {
    SetSquare(b, m.from.value.row, m.from.value.col, Empty)[m.to.row][m.to.col]
  }

  lemma BoardMoveBoardCount(b: Board, cap: Captured, m: Move, p: Player, k: BaseKind)
    requires Applicable(b, m) && m.from.Some?
    ensures BoardCount(Apply(b, cap, m, p).board, k) + Holds(Taken(b, m), k) == BoardCount(b, k)
  {
    var f := m.from.value;
    var piece := At(b, f).piece;
    var cleared := SetSquare(b, f.row, f.col, Empty);
    var kind := if m.promote && CanPromote(piece.kind) then Promote(piece.kind) else piece.kind;
    assert Apply(b, cap, m, p).board == SetSquare(cleared, m.to.row, m.to.col, Occupied(Piece(kind, p)));
    assert BaseType(kind) == BaseType(piece.kind);
    BoardCountUpdate(b, f.row, f.col, Empty, k);
    BoardCountUpdate(cleared, m.to.row, m.to.col, Occupied(Piece(kind, p)), k);
  }

  lemma BoardMoveHandCount(b: Board, cap: Captured, m: Move, p: Player, k: BaseKind)
    requires Applicable(b, m) && m.from.Some?
    ensures Count(HandOf(Apply(b, cap, m, p).captured, p), k) == Count(HandOf(cap, p), k) + Holds(Taken(b, m), k)
  {
    var target := Taken(b, m);
    if target.Occupied? {
      assert HandOf(Apply(b, cap, m, p).captured, p) == Credit(HandOf(cap, p), BaseType(target.piece.kind));
    } else {
      assert Apply(b, cap, m, p).captured == cap;
    }
  }

  // ---------------------------------------------------------------------------
  // Soundness and completeness of getAllLegalMoves

  /** Every legal move is a pseudo-legal board move or an allowed drop of a held kind,
      and it never leaves the mover's own king attacked. */
  lemma LegalMoveSound(b: Board, cap: Captured, p: Player, m: Move)
    requires m in LegalMoves(b, cap, p)
    ensures BoardCandidate(b, p, m) || DropCandidate(b, cap, p, m)
    ensures LeavesKingSafe(b, cap, p, m)
  {
    var ms := Candidates(b, cap, p);
    CandidatesSound(b, cap, p);
    FilterSound(ms, SafeTest(b, cap, p), 0);
    assert m in ms && SafeTest(b, cap, p)(m);
  }

  /** A legal move keeps every piece count, board plus hands, as it was. */
  lemma LegalMoveConserves(b: Board, cap: Captured, p: Player, m: Move, k: BaseKind)
    requires m in LegalMoves(b, cap, p)
    ensures var a := Apply(b, cap, m, p); Total(a.board, a.captured, k) == Total(b, cap, k)
  {
    LegalMoveSound(b, cap, p, m);
    ApplyConserves(b, cap, m, p, k);
  }

  /** Conversely, every pseudo-legal board move and every allowed drop of a held kind
      that leaves the king safe is listed. */
  lemma LegalMoveComplete(b: Board, cap: Captured, p: Player, m: Move)
    requires BoardCandidate(b, p, m) || DropCandidate(b, cap, p, m)
    requires Applicable(b, m) && LeavesKingSafe(b, cap, p, m)
    ensures m in LegalMoves(b, cap, p)
  {
    var ms := Candidates(b, cap, p);
    if BoardCandidate(b, p, m) {
      BoardMoveListed(b, p, m);
    } else {
      DropListed(b, cap, p, m);
    }
    assert m in ms;
    var j :| 0 <= j < |ms| && ms[j] == m;
    assert SafeTest(b, cap, p)(ms[j]);
    FilterComplete(ms, SafeTest(b, cap, p), 0, j);
  }

  lemma BoardMoveListed(b: Board, p: Player, m: Move)
    requires BoardCandidate(b, p, m)
    ensures m in BoardRows(b, p, 0)
  {
    var f := m.from.value;
    var k := m.piece;
    var ts := PieceTargets(b, k, p, f.row, f.col);
    ExpandChoices(b, p, f, k, m.to);
    var plain := Move(Some(f), m.to, k, false, At(b, m.to), None);
    assert m == plain || m == plain.(promote := true);
    var j :| 0 <= j < |ts| && ts[j] == m.to;
    InExpandAll(b, p, f, k, ts, 0, j, m);
    InBoardCells(b, p, f.row, 0, f.col, m);
    InBoardRows(b, p, 0, f.row, m);
  }

  lemma {:induction false} InExpandAll(b: Board, p: Player, from: Pos, k: Kind, ts: seq<Pos>, i: nat, j: nat, m: Move)
    requires i <= j < |ts|
    requires m in Expand(b, p, from, k, ts[j])
    ensures m in ExpandAll(b, p, from, k, ts, i)
    decreases j - i
  {
    var head, tail := Expand(b, p, from, k, ts[i]), ExpandAll(b, p, from, k, ts, i + 1);
    assert ExpandAll(b, p, from, k, ts, i) == head + tail;
    if i < j {
      InExpandAll(b, p, from, k, ts, i + 1, j, m);
      assert m in tail;
    } else {
      assert m in head;
    }
  }


  lemma {:induction false} InBoardCells(b: Board, p: Player, r: int, c: nat, c': int, m: Move)
    requires 0 <= r < 9 && c <= c' < 9
    requires m in SquareMoves(b, p, r, c')
    ensures m in BoardCells(b, p, r, c)
    decreases c' - c
  {
    var head, tail := SquareMoves(b, p, r, c), BoardCells(b, p, r, c + 1);
    assert BoardCells(b, p, r, c) == head + tail;
    if c < c' {
      InBoardCells(b, p, r, c + 1, c', m);
      assert m in tail;
    } else {
      assert m in head;
    }
  }


  lemma {:induction false} InBoardRows(b: Board, p: Player, r: nat, r': int, m: Move)
    requires r <= r' < 9
    requires m in BoardCells(b, p, r', 0)
    ensures m in BoardRows(b, p, r)
    decreases r' - r
  {
    var head, tail := BoardCells(b, p, r, 0), BoardRows(b, p, r + 1);
    assert BoardRows(b, p, r) == head + tail;
    if r < r' {
      InBoardRows(b, p, r + 1, r', m);
      assert m in tail;
    } else {
      assert m in head;
    }
  }


  lemma DropListed(b: Board, cap: Captured, p: Player, m: Move)
    requires DropCandidate(b, cap, p, m)
    ensures m in DropMoves(b, cap, p)
  {
    var h, k := HandOf(cap, p), m.dropPiece.value;
    var i := HeldKindHasEntry(h, k);
    InDropCells(b, p, k, m.to.row, 0, m.to.col);
    InDropRows(b, p, k, 0, m.to.row, m);
    InDropsForKeys(b, p, h, 0, i, m);
  }

  /** A kind with a positive count has an entry whose count is the looked-up count. */
  lemma {:induction false} HeldKindHasEntry(h: Hand, k: BaseKind) returns (i: nat)
    requires Count(h, k) > 0
    ensures i < |h| && h[i].kind == k && Count(h, h[i].kind) == Count(h, k)
  {
    if h[0].kind == k {
      i := 0;
    } else {
      var j := HeldKindHasEntry(h[1..], k);
      i := j + 1;
    }
  }

  lemma {:induction false} InDropCells(b: Board, p: Player, k: BaseKind, r: int, c: nat, c': int)
    requires 0 <= r < 9 && c <= c' < 9
    requires DropAllowed(b, p, k, r, c')
    ensures DropMove(k, Pos(r, c')) in DropCells(b, p, k, r, c)
    decreases c' - c
  {
    var head := if DropAllowed(b, p, k, r, c) then [DropMove(k, Pos(r, c))] else [];
    var tail := DropCells(b, p, k, r, c + 1);
    assert DropCells(b, p, k, r, c) == head + tail;
    if c < c' {
      InDropCells(b, p, k, r, c + 1, c');
      assert DropMove(k, Pos(r, c')) in tail;
    } else {
      assert DropMove(k, Pos(r, c')) in head;
    }
  }


  lemma {:induction false} InDropRows(b: Board, p: Player, k: BaseKind, r: nat, r': int, m: Move)
    requires r <= r' < 9
    requires m in DropCells(b, p, k, r', 0)
    ensures m in DropRows(b, p, k, r)
    decreases r' - r
  {
    var head, tail := DropCells(b, p, k, r, 0), DropRows(b, p, k, r + 1);
    assert DropRows(b, p, k, r) == head + tail;
    if r < r' {
      InDropRows(b, p, k, r + 1, r', m);
      assert m in tail;
    } else {
      assert m in head;
    }
  }


  lemma {:induction false} InDropsForKeys(b: Board, p: Player, h: Hand, i: nat, j: nat, m: Move)
    requires i <= j < |h| && Count(h, h[j].kind) > 0
    requires m in DropRows(b, p, h[j].kind, 0)
    ensures m in DropsForKeys(b, p, h, i)
    decreases j - i
  {
    var rest := DropsForKeys(b, p, h, i + 1);
    var here := if Count(h, h[i].kind) > 0 then DropRows(b, p, h[i].kind, 0) else [];
    assert DropsForKeys(b, p, h, i) == here + rest;
    if i < j {
      InDropsForKeys(b, p, h, i + 1, j, m);
      assert m in rest;
    } else {
      assert m in here;
    }
  }

  /** With no legal move, the side to move is either checkmated or stalemated, never both. */
  lemma NoMoveOutcome(b: Board, cap: Captured, p: Player)
    ensures Checkmate(b, cap, p) ==> !Stalemate(b, cap, p)
    ensures |LegalMoves(b, cap, p)| == 0 <==> Checkmate(b, cap, p) || Stalemate(b, cap, p)
  {
  }

  /** KingFrom finds the first king of p at or after (r, c): a king, and no king of p
      between (r, c) and it; None when there is none from (r, c) on. */
  lemma {:induction false} KingFromFirst(b: Board, p: Player, r: nat, c: nat)
    requires r <= 9 && c <= 9
    ensures KingFrom(b, p, r, c).Some? ==>
      var k := KingFrom(b, p, r, c).value;
      OnBoard(k) && KingAt(b, k.row, k.col, p) && !Before(k.row, k.col, r, c)
      && forall r', c' | InBounds(r', c') && !Before(r', c', r, c) && Before(r', c', k.row, k.col) :: !KingAt(b, r', c', p)
    ensures KingFrom(b, p, r, c).None? ==>
      forall r', c' | InBounds(r', c') && !Before(r', c', r, c) :: !KingAt(b, r', c', p)
    decreases 9 - r, 9 - c
  {
    if r == 9 {
    } else if c == 9 {
      KingFromFirst(b, p, r + 1, 0);
    } else if !KingAt(b, r, c, p) {
      KingFromFirst(b, p, r, c + 1);
    }
  }

  /** findKing returns the first king of p in row-major order, and null exactly when
      p has no king on the board. */
  lemma KingPosFirst(b: Board, p: Player)
    ensures KingPos(b, p).Some? ==>
      var k := KingPos(b, p).value;
      OnBoard(k) && KingAt(b, k.row, k.col, p)
      && forall r, c | InBounds(r, c) && Before(r, c, k.row, k.col) :: !KingAt(b, r, c, p)
    ensures KingPos(b, p).None? <==> forall r, c | InBounds(r, c) :: !KingAt(b, r, c, p)
  {
    KingFromFirst(b, p, 0, 0);
  }

  /** The scan from (r, c) finds an attacker exactly when one stands at (r, c) or later. */
  lemma {:induction false} AttackerFromExactly(b: Board, side: Player, target: Pos, r: nat, c: nat)
    requires r <= 9 && c <= 9
    ensures AttackerFrom(b, side, target, r, c) <==>
      exists r', c' | InBounds(r', c') && !Before(r', c', r, c) :: Attacks(b, side, r', c', target)
    decreases 9 - r, 9 - c
  {
    if r == 9 {
    } else if c == 9 {
      AttackerFromExactly(b, side, target, r + 1, 0);
    } else {
      AttackerFromExactly(b, side, target, r, c + 1);
      if Attacks(b, side, r, c, target) {
        assert InBounds(r, c) && !Before(r, c, r, c);
      }
    }
  }

  /** The scan of isInCheck decides the check predicate. */
  lemma InCheckByScan(b: Board, p: Player)
    ensures InCheck(b, p) <==>
      KingPos(b, p).Some? && AttackerFrom(b, Opponent(p), KingPos(b, p).value, 0, 0)
  {
    if KingPos(b, p).Some? {
      AttackerFromExactly(b, Opponent(p), KingPos(b, p).value, 0, 0);
    }
  }

  /** A side without a king is never in check (the program's guard for a missing king). */
  lemma NoKingNoCheck(b: Board, p: Player)
    requires forall r, c | InBounds(r, c) :: !KingAt(b, r, c, p)
    ensures !InCheck(b, p)
  {
    KingPosFirst(b, p);
  }

  /** Concatenation is associative; the loops below use it to move one step of work
      from what is left to what is done. */
  lemma ConcatAssoc<T>(a: seq<T>, b: seq<T>, c: seq<T>)
    ensures a + (b + c) == (a + b) + c
  {
  }

  // ---------------------------------------------------------------------------
  // The program's loops, each proved equal to the definition above it models

  /** addLineMoves: appends, direction by direction, the squares 1 to 8 steps away,
      stopping at the edge. */
  method AddLineMoves(positions: seq<Pos>, row: int, col: int, dirs: seq<Offset>) returns (out: seq<Pos>)
    ensures out == positions + OpenRays(row, col, dirs, 0)
  {
    out := positions;
    var j := 0;
    while j < |dirs|
      invariant j <= |dirs|
      invariant out + OpenRays(row, col, dirs, j) == positions + OpenRays(row, col, dirs, 0)
    {
      var d := dirs[j];
      ghost var before := out;
      out := AddLine(out, row + d.0, col + d.1, d);
      OpenRaysStep(row, col, dirs, j, before, out);
      j := j + 1;
    }
    assert OpenRays(row, col, dirs, j) == [];
  }

  lemma OpenRaysStep(row: int, col: int, dirs: seq<Offset>, j: nat, before: seq<Pos>, after: seq<Pos>)
    requires j < |dirs|
    requires after == before + OpenRay(row + dirs[j].0, col + dirs[j].1, dirs[j], 8)
    ensures before + OpenRays(row, col, dirs, j) == after + OpenRays(row, col, dirs, j + 1)
  {
  }

  /** The inner loop of addLineMoves: squares from (r0, c0) on in direction d, eight at most. */
  method AddLine(positions: seq<Pos>, r0: int, c0: int, d: Offset) returns (out: seq<Pos>)
    ensures out == positions + OpenRay(r0, c0, d, 8)
  {
    out := positions;
    var i, r, c := 1, r0, c0;
    while i < 9
      invariant 1 <= i <= 9
      invariant out + OpenRay(r, c, d, 9 - i) == positions + OpenRay(r0, c0, d, 8)
    {
      if !InBounds(r, c) {
        break;
      }
      assert OpenRay(r, c, d, 9 - i) == [Pos(r, c)] + OpenRay(r + d.0, c + d.1, d, 8 - i);
      out := out + [Pos(r, c)];
      i, r, c := i + 1, r + d.0, c + d.1;
    }
  }

  /** The add(r, c) calls of getRawMoves for a table of offsets: on-board squares only. */
  method AddSteps(positions: seq<Pos>, row: int, col: int, offs: seq<Offset>) returns (out: seq<Pos>)
    ensures out == positions + RawSteps(row, col, offs, 0)
  {
    out := positions;
    for i := 0 to |offs|
      invariant out + RawSteps(row, col, offs, i) == positions + RawSteps(row, col, offs, 0)
    {
      var r, c := row + offs[i].0, col + offs[i].1;
      RawStepsStep(row, col, offs, i, out);
      if InBounds(r, c) {
        out := out + [Pos(r, c)];
      }
    }
  }

  lemma RawStepsStep(row: int, col: int, offs: seq<Offset>, i: nat, done: seq<Pos>)
    requires i < |offs|
    ensures var r, c := row + offs[i].0, col + offs[i].1;
      done + RawSteps(row, col, offs, i) == (done + if InBounds(r, c) then [Pos(r, c)] else []) + RawSteps(row, col, offs, i + 1)
  {
    var r, c := row + offs[i].0, col + offs[i].1;
    ConcatAssoc(done, if InBounds(r, c) then [Pos(r, c)] else [], RawSteps(row, col, offs, i + 1));
  }

  /** getRawMoves. */
  method GetRawMoves(k: Kind, owner: Player, row: int, col: int) returns (positions: seq<Pos>)
    ensures positions == RawMoves(k, owner, row, col)
  {
    var dirs, offs := SlideDirections(k, owner), StepPattern(k, owner);
    if k == Promoted(PRook) || k == Promoted(PBishop) {
      var lines := AddLineMoves([], row, col, dirs);
      assert lines == OpenRays(row, col, dirs, 0);
      positions := AddSteps(lines, row, col, offs);
    } else if k == Base(Rook) || k == Base(Bishop) || k == Base(Lance) {
      positions := AddLineMoves([], row, col, dirs);
      assert positions == OpenRays(row, col, dirs, 0);
    } else {
      positions := AddSteps([], row, col, offs);
      assert positions == RawSteps(row, col, offs, 0);
    }
  }

  /** getNonSlideMoves: the raw pattern filtered to squares the mover may enter. */
  method GetNonSlideMoves(b: Board, k: Kind, owner: Player, row: int, col: int) returns (positions: seq<Pos>)
    ensures positions == NonSlideMoves(b, k, owner, row, col)
  {
    var raw := GetRawMoves(k, owner, row, col);
    positions := KeepEnterable(b, owner, raw);
  }

  /** The single-step loop of getFilteredLineMoves for the dragon and the horse. */
  method AddEnterableSteps(b: Board, owner: Player, positions: seq<Pos>, row: int, col: int, offs: seq<Offset>)
    returns (out: seq<Pos>)
    ensures out == positions + Steps(b, owner, row, col, offs, 0)
  {
    out := positions;
    for i := 0 to |offs|
      invariant out + Steps(b, owner, row, col, offs, i) == positions + Steps(b, owner, row, col, offs, 0)
    {
      var r, c := row + offs[i].0, col + offs[i].1;
      StepsStep(b, owner, row, col, offs, i, out);
      if InBounds(r, c) {
        var target := b[r][c];
        if target.Empty? || target.piece.owner != owner {
          out := out + [Pos(r, c)];
        }
      }
    }
  }

  lemma StepsStep(b: Board, owner: Player, row: int, col: int, offs: seq<Offset>, i: nat, done: seq<Pos>)
    requires i < |offs|
    ensures var q := Pos(row + offs[i].0, col + offs[i].1);
      done + Steps(b, owner, row, col, offs, i) == (done + if EnterableAt(b, owner, q) then [q] else []) + Steps(b, owner, row, col, offs, i + 1)
  {
    var q := Pos(row + offs[i].0, col + offs[i].1);
    ConcatAssoc(done, if EnterableAt(b, owner, q) then [q] else [], Steps(b, owner, row, col, offs, i + 1));
  }

  /** The sliding loop of getFilteredLineMoves over the directions dirs. */
  method AddRays(b: Board, owner: Player, positions: seq<Pos>, row: int, col: int, dirs: seq<Offset>)
    returns (out: seq<Pos>)
    ensures out == positions + Rays(b, owner, row, col, dirs, 0)
  {
    out := positions;
    var j := 0;
    while j < |dirs|
      invariant j <= |dirs|
      invariant out + Rays(b, owner, row, col, dirs, j) == positions + Rays(b, owner, row, col, dirs, 0)
    {
      var d := dirs[j];
      ghost var before := out;
      out := AddRay(b, owner, out, row + d.0, col + d.1, d);
      RaysStep(b, owner, row, col, dirs, j, before, out);
      j := j + 1;
    }
    assert Rays(b, owner, row, col, dirs, j) == [];
  }

  lemma RaysStep(b: Board, owner: Player, row: int, col: int, dirs: seq<Offset>, j: nat, before: seq<Pos>, after: seq<Pos>)
    requires j < |dirs|
    requires after == before + Ray(b, owner, row + dirs[j].0, col + dirs[j].1, dirs[j], 8)
    ensures before + Rays(b, owner, row, col, dirs, j) == after + Rays(b, owner, row, col, dirs, j + 1)
  {
  }

  /** One direction of the sliding loop: empty squares are added, the first occupied
      square is added when it holds an enemy, and the run ends there or at the edge. */
  method AddRay(b: Board, owner: Player, positions: seq<Pos>, r0: int, c0: int, d: Offset) returns (out: seq<Pos>)
    ensures out == positions + Ray(b, owner, r0, c0, d, 8)
  {
    out := positions;
    var i, r, c := 1, r0, c0;
    while i < 9
      invariant 1 <= i <= 9
      invariant out + Ray(b, owner, r, c, d, 9 - i) == positions + Ray(b, owner, r0, c0, d, 8)
    {
      if !InBounds(r, c) {
        break;
      }
      var target := b[r][c];
      if target.Occupied? {
        if target.piece.owner != owner {
          out := out + [Pos(r, c)];
        }
        break;
      }
      assert Ray(b, owner, r, c, d, 9 - i) == [Pos(r, c)] + Ray(b, owner, r + d.0, c + d.1, d, 8 - i);
      out := out + [Pos(r, c)];
      i, r, c := i + 1, r + d.0, c + d.1;
    }
  }

  /** getFilteredLineMoves. */
  method GetFilteredLineMoves(b: Board, k: Kind, owner: Player, row: int, col: int) returns (positions: seq<Pos>)
    ensures positions == PieceTargets(b, k, owner, row, col)
  {
    if k == Promoted(PRook) || k == Promoted(PBishop) {
      positions := AddEnterableSteps(b, owner, [], row, col, StepPattern(k, owner));
      positions := AddRays(b, owner, positions, row, col, SlideDirections(k, owner));
    } else if k == Base(Rook) || k == Base(Bishop) || k == Base(Lance) {
      positions := AddRays(b, owner, [], row, col, SlideDirections(k, owner));
    } else {
      positions := GetNonSlideMoves(b, k, owner, row, col);
    }
  }

  /** getPieceMoves. */
  method GetPieceMoves(b: Board, owner: Player, row: int, col: int) returns (positions: seq<Pos>)
    requires InBounds(row, col)
    ensures positions == PieceMoves(b, owner, row, col)
  {
    var piece := b[row][col];
    if piece.Empty? || piece.piece.owner != owner {
      return [];
    }
    positions := GetFilteredLineMoves(b, piece.piece.kind, owner, row, col);
  }

  /** findKing: scans row by row and returns the first king of p. */
  method FindKing(b: Board, p: Player) returns (kp: Option<Pos>)
    ensures kp == KingPos(b, p)
  {
    for r := 0 to 9
      invariant KingFrom(b, p, r, 0) == KingPos(b, p)
    {
      for c := 0 to 9
        invariant KingFrom(b, p, r, c) == KingPos(b, p)
      {
        if b[r][c] == Occupied(Piece(Base(King), p)) {
          return Some(Pos(r, c));
        }
      }
    }
    return None;
  }

  /** isInCheck: false without a king; otherwise whether some piece of the other side
      has the king's square among its destinations. */
  method IsInCheck(b: Board, p: Player) returns (check: bool)
    ensures check == InCheck(b, p)
  {
    var kingPos := FindKing(b, p);
    if kingPos.None? {
      return false;
    }
    var opp := Opponent(p);
    check := ScanAttackers(b, opp, kingPos.value);
    InCheckByScan(b, p);
  }

  /** The two loops of isInCheck: whether some piece of side reaches target. */
  method ScanAttackers(b: Board, side: Player, target: Pos) returns (found: bool)
    ensures found == AttackerFrom(b, side, target, 0, 0)
  {
    for r := 0 to 9
      invariant AttackerFrom(b, side, target, r, 0) == AttackerFrom(b, side, target, 0, 0)
    {
      found := RowAttacks(b, side, target, r);
      if found {
        return true;
      }
    }
    return false;
  }

  /** The inner loop of isInCheck over one row. */
  method RowAttacks(b: Board, side: Player, target: Pos, r: nat) returns (found: bool)
    requires r < 9
    ensures found ==> AttackerFrom(b, side, target, r, 0)
    ensures !found ==> AttackerFrom(b, side, target, r, 0) == AttackerFrom(b, side, target, r + 1, 0)
  {
    for c := 0 to 9
      invariant AttackerFrom(b, side, target, r, 0) == AttackerFrom(b, side, target, r, c)
    {
      var piece := b[r][c];
      if piece.Occupied? && piece.piece.owner == side {
        var moves := GetFilteredLineMoves(b, piece.piece.kind, side, r, c);
        if target in moves {
          return true;
        }
      }
    }
    return false;
  }

  /** applyMove: copies the board and the hands, then moves (capturing and promoting)
      or drops; the result is the new position and the inputs are left as they were. */
  method ApplyMove(b: Board, cap: Captured, m: Move, p: Player) returns (a: Applied)
    requires Applicable(b, m)
    ensures a == Apply(b, cap, m, p)
  {
    var newBoard := CloneBoard(b);
    var newCaptured := CloneCaptured(cap);
    if m.from.Some? {
      var f := m.from.value;
      var piece := newBoard[f.row][f.col].piece;
      newBoard := SetSquare(newBoard, f.row, f.col, Empty);
      var target := newBoard[m.to.row][m.to.col];
      if target.Occupied? {
        var capturedType := BaseType(target.piece.kind);
        var hand := HandOf(newCaptured, p);
        newCaptured := WithHand(newCaptured, p, SetCount(hand, capturedType, Count(hand, capturedType) + 1));
      }
      var newType := piece.kind;
      if m.promote && CanPromote(piece.kind) {
        newType := Promote(piece.kind);
      }
      newBoard := SetSquare(newBoard, m.to.row, m.to.col, Occupied(Piece(newType, p)));
    } else {
      var dropType := if m.dropPiece.Some? then m.dropPiece.value else m.piece.base;
      newBoard := SetSquare(newBoard, m.to.row, m.to.col, Occupied(Piece(Base(dropType), p)));
      var hand := HandOf(newCaptured, p);
      var left := Count(hand, dropType) - 1;
      if left <= 0 {
        hand := Delete(hand, dropType);
      } else {
        hand := SetCount(hand, dropType, left);
      }
      newCaptured := WithHand(newCaptured, p, hand);
    }
    a := Applied(newBoard, newCaptured);
  }

  /** hasPawnInColumn: whether p has an unpromoted pawn in column col. */
  method HasPawnInColumn(b: Board, p: Player, col: int) returns (found: bool)
    requires 0 <= col < 9
    ensures found == PawnInColumn(b, p, col)
  {
    for r := 0 to 9
      invariant forall r' | 0 <= r' < r :: b[r'][col] != Occupied(Piece(Base(Pawn), p))
    {
      if b[r][col] == Occupied(Piece(Base(Pawn), p)) {
        return true;
      }
    }
    return false;
  }

  /** getDropMoves: for each kind in the hand with a positive count, every empty square
      allowed by the double-pawn and dead-square rules, in row-major order. */
  method GetDropMoves(b: Board, cap: Captured, p: Player) returns (moves: seq<Move>)
    ensures moves == DropMoves(b, cap, p)
  {
    moves := AddDropsOfKeys(b, p, HandOf(cap, p));
  }

  /** The outer loop of getDropMoves over the keys of the hand, in order. */
  method AddDropsOfKeys(b: Board, p: Player, hand: Hand) returns (moves: seq<Move>)
    ensures moves == DropsForKeys(b, p, hand, 0)
  {
    moves := [];
    var i := 0;
    while i < |hand|
      invariant 0 <= i <= |hand|
      invariant moves + DropsForKeys(b, p, hand, i) == DropsForKeys(b, p, hand, 0)
    {
      DropsForKeysStep(b, p, hand, i, moves);
      moves := AddDropsOfKey(b, p, hand, i, moves);
      i := i + 1;
    }
    assert DropsForKeys(b, p, hand, |hand|) == [];
  }

  lemma DropsForKeysStep(b: Board, p: Player, hand: Hand, i: nat, done: seq<Move>)
    requires i < |hand|
    ensures done + DropsForKeys(b, p, hand, i) == (done + KeyDrops(b, p, hand, i)) + DropsForKeys(b, p, hand, i + 1)
  {
    ConcatAssoc(done, KeyDrops(b, p, hand, i), DropsForKeys(b, p, hand, i + 1));
  }

  /** The body of the outer loop of getDropMoves: a key whose count is not positive is skipped. */
  method AddDropsOfKey(b: Board, p: Player, hand: Hand, i: nat, moves: seq<Move>) returns (out: seq<Move>)
    requires i < |hand|
    ensures out == moves + KeyDrops(b, p, hand, i)
  {
    var pieceType := hand[i].kind;
    if Count(hand, pieceType) <= 0 {
      return moves;
    }
    out := AddDropsOfKind(b, p, pieceType, moves);
  }

  /** The two inner loops of getDropMoves for one kind. */
  method AddDropsOfKind(b: Board, p: Player, k: BaseKind, moves: seq<Move>) returns (out: seq<Move>)
    ensures out == moves + DropRows(b, p, k, 0)
  {
    out := moves;
    for r := 0 to 9
      invariant out + DropRows(b, p, k, r) == moves + DropRows(b, p, k, 0)
    {
      ConcatAssoc(out, DropCells(b, p, k, r, 0), DropRows(b, p, k, r + 1));
      out := AddDropsInRow(b, p, k, r, out);
    }
  }

  method AddDropsInRow(b: Board, p: Player, k: BaseKind, r: int, moves: seq<Move>) returns (out: seq<Move>)
    requires 0 <= r < 9
    ensures out == moves + DropCells(b, p, k, r, 0)
  {
    out := moves;
    for c := 0 to 9
      invariant out + DropCells(b, p, k, r, c) == moves + DropCells(b, p, k, r, 0)
    {
      ghost var here := if DropAllowed(b, p, k, r, c) then [DropMove(k, Pos(r, c))] else [];
      assert DropCells(b, p, k, r, c) == here + DropCells(b, p, k, r, c + 1);
      ConcatAssoc(out, here, DropCells(b, p, k, r, c + 1));
      out := AddDropAt(b, p, k, r, c, out);
    }
  }

  /** The body of the innermost loop of getDropMoves: the checks for one square. */
  method AddDropAt(b: Board, p: Player, k: BaseKind, r: int, c: int, moves: seq<Move>) returns (out: seq<Move>)
    requires InBounds(r, c)
    ensures out == moves + (if DropAllowed(b, p, k, r, c) then [DropMove(k, Pos(r, c))] else [])
  {
    out := moves;
    if b[r][c].Occupied? {
      return;
    }
    if k == Pawn {
      var doubled := HasPawnInColumn(b, p, c);
      if doubled {
        return;
      }
    }
    if MustPromote(Base(k), p, r) {
      return;
    }
    out := out + [DropMove(k, Pos(r, c))];
  }

  /** getAllLegalMoves: the board moves square by square, then the drops, then only the
      moves after which p is not in check. */
  method GetAllLegalMoves(b: Board, cap: Captured, p: Player) returns (legal: seq<Move>)
    ensures legal == LegalMoves(b, cap, p)
  {
    var moves := GetBoardMoves(b, p);
    var dropMoves := GetDropMoves(b, cap, p);
    moves := moves + dropMoves;
    CandidatesSound(b, cap, p);
    legal := KeepUnchecked(b, cap, p, moves);
  }

  /** The board scan of getAllLegalMoves, row by row. */
  method GetBoardMoves(b: Board, p: Player) returns (moves: seq<Move>)
    ensures moves == BoardRows(b, p, 0)
  {
    moves := [];
    for r := 0 to 9
      invariant moves + BoardRows(b, p, r) == BoardRows(b, p, 0)
    {
      ConcatAssoc(moves, BoardCells(b, p, r, 0), BoardRows(b, p, r + 1));
      moves := AddBoardRow(b, p, r, moves);
    }
    assert BoardRows(b, p, 9) == [];
  }

  /** The inner loop of the board scan of getAllLegalMoves over one row. */
  method AddBoardRow(b: Board, p: Player, r: int, moves: seq<Move>) returns (out: seq<Move>)
    requires 0 <= r < 9
    ensures out == moves + BoardCells(b, p, r, 0)
  {
    out := moves;
    var c := 0;
    while c < 9
      invariant 0 <= c <= 9
      invariant out + BoardCells(b, p, r, c) == moves + BoardCells(b, p, r, 0)
    {
      BoardCellsStep(b, p, r, c, out);
      out := AddSquareMoves(b, p, r, c, out);
      c := c + 1;
    }
    assert BoardCells(b, p, r, 9) == [];
  }

  lemma BoardCellsStep(b: Board, p: Player, r: int, c: nat, done: seq<Move>)
    requires 0 <= r < 9 && c < 9
    ensures done + BoardCells(b, p, r, c) == (done + SquareMoves(b, p, r, c)) + BoardCells(b, p, r, c + 1)
  {
    ConcatAssoc(done, SquareMoves(b, p, r, c), BoardCells(b, p, r, c + 1));
  }

  /** The body of that loop: the moves of p's piece on (r, c), none for an empty square
      or a piece of the other side. */
  method AddSquareMoves(b: Board, p: Player, r: int, c: int, moves: seq<Move>) returns (out: seq<Move>)
    requires InBounds(r, c)
    ensures out == moves + SquareMoves(b, p, r, c)
  {
    var piece := b[r][c];
    if piece.Empty? || piece.piece.owner != p {
      return moves;
    }
    var targets := GetFilteredLineMoves(b, piece.piece.kind, p, r, c);
    PieceTargetsEnterable(b, piece.piece.kind, p, r, c);
    out := AddExpanded(b, p, Pos(r, c), piece.piece.kind, targets, moves);
  }

  /** The loop over one piece's destinations. */
  method AddExpanded(b: Board, p: Player, from: Pos, k: Kind, targets: seq<Pos>, moves: seq<Move>) returns (out: seq<Move>)
    requires forall t <- targets :: OnBoard(t)
    ensures out == moves + ExpandAll(b, p, from, k, targets, 0)
  {
    out := moves;
    for i := 0 to |targets|
      invariant out + ExpandAll(b, p, from, k, targets, i) == moves + ExpandAll(b, p, from, k, targets, 0)
    {
      assert ExpandAll(b, p, from, k, targets, i) == Expand(b, p, from, k, targets[i]) + ExpandAll(b, p, from, k, targets, i + 1);
      ConcatAssoc(out, Expand(b, p, from, k, targets[i]), ExpandAll(b, p, from, k, targets, i + 1));
      out := AddMovesTo(b, p, from, k, targets[i], out);
    }
  }

  /** The body of that loop for one destination: the promoted move where promotion is
      possible, the unpromoted one unless promotion is forced. */
  method AddMovesTo(b: Board, p: Player, from: Pos, k: Kind, to: Pos, moves: seq<Move>) returns (out: seq<Move>)
    requires OnBoard(to)
    ensures out == moves + Expand(b, p, from, k, to)
  {
    var cp := CanPromoteMove(k, p, from.row, to.row);
    var mp := MustPromote(k, p, to.row);
    var plain := Move(Some(from), to, k, false, b[to.row][to.col], None);
    if cp {
      out := moves + [plain.(promote := true)];
      if !mp {
        out := out + [plain];
      }
    } else {
      out := moves + [plain];
    }
  }

  /** The final filter of getAllLegalMoves. */
  method KeepUnchecked(b: Board, cap: Captured, p: Player, moves: seq<Move>) returns (legal: seq<Move>)
    requires forall m <- moves :: Applicable(b, m)
    ensures legal == Filter(moves, SafeTest(b, cap, p), 0)
  {
    legal := [];
    ghost var keep := SafeTest(b, cap, p);
    for i := 0 to |moves|
      invariant legal + Filter(moves, keep, i) == Filter(moves, keep, 0)
    {
      ghost var here := if keep(moves[i]) then [moves[i]] else [];
      assert Filter(moves, keep, i) == here + Filter(moves, keep, i + 1);
      ConcatAssoc(legal, here, Filter(moves, keep, i + 1));
      legal := KeepIfSafe(b, cap, p, moves[i], legal);
    }
  }

  /** The filter's test for one move: apply it, then ask whether p is in check. */
  method KeepIfSafe(b: Board, cap: Captured, p: Player, m: Move, legal: seq<Move>) returns (out: seq<Move>)
    requires Applicable(b, m)
    ensures out == legal + (if SafeTest(b, cap, p)(m) then [m] else [])
  {
    var result := ApplyMove(b, cap, m, p);
    var check := IsInCheck(result.board, p);
    out := if check then legal else legal + [m];
  }

  /** isCheckmate: in check and without a legal move. */
  method IsCheckmate(b: Board, cap: Captured, p: Player) returns (mate: bool)
    ensures mate == Checkmate(b, cap, p)
  {
    var check := IsInCheck(b, p);
    if !check {
      return false;
    }
    var legal := GetAllLegalMoves(b, cap, p);
    return |legal| == 0;
  }

  /** isStalemate: not in check and without a legal move. */
  method IsStalemate(b: Board, cap: Captured, p: Player) returns (stale: bool)
    ensures stale == Stalemate(b, cap, p)
  {
    var check := IsInCheck(b, p);
    if check {
      return false;
    }
    var legal := GetAllLegalMoves(b, cap, p);
    return |legal| == 0;
  }
}
