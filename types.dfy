/** Piece algebra, board and move shapes of the shogi engine.
    A piece kind is a tagged variant: one of eight base kinds or one of six
    promoted kinds, instead of the string identifiers the program uses. */
module PieceTypes {

  datatype Option<T> = None | Some(value: T)

  /** Sente moves first and sits at row 8; gote sits at row 0. */
  datatype Player = Sente | Gote

  datatype BaseKind = King | Rook | Bishop | Gold | Silver | Knight | Lance | Pawn

  datatype PromotedKind = PRook | PBishop | PSilver | PKnight | PLance | PPawn

  datatype Kind = Base(base: BaseKind) | Promoted(promoted: PromotedKind)

  datatype Piece = Piece(kind: Kind, owner: Player)

  datatype Square = Empty | Occupied(piece: Piece)

  /** A square address; coordinates are plain integers so that offsets may
      leave the board before they are checked. */
  datatype Pos = Pos(row: int, col: int)

  /** A board move has `from`; a drop has none and names its kind in `dropPiece`.
      An absent `promote` is false and an absent `capture` is Empty. */
  datatype Move = Move(from: Option<Pos>, to: Pos, piece: Kind, promote: bool,
                       capture: Square, dropPiece: Option<BaseKind>)

  /** One key of a player's hand record with its count. */
  datatype HandEntry = HandEntry(kind: BaseKind, count: nat)

  /** A hand keeps its keys in insertion order, as the program's record does:
      that order decides the order in which drops are generated. */
  type Hand = seq<HandEntry>

  datatype Captured = Captured(sente: Hand, gote: Hand)

  datatype Difficulty = Easy | Normal | Hard

  datatype Status = Playing | Check | Checkmate | Stalemate

  /** board[row][col]: row 0 is gote's edge, row 8 is sente's edge. */
  type Board = b: seq<seq<Square>> | |b| == 9 && forall r | 0 <= r < 9 :: |b[r]| == 9
    witness seq(9, _ => seq(9, _ => Empty))

  datatype GameState = GameState(board: Board, turn: Player, captured: Captured,
                                 moveHistory: seq<Move>, status: Status, winner: Option<Player>)

  /** The identifier the program uses for each kind. */
  function Name(k: Kind): string
  {
    match k
    case Base(King) => "king"
    case Base(Rook) => "rook"
    case Base(Bishop) => "bishop"
    case Base(Gold) => "gold"
    case Base(Silver) => "silver"
    case Base(Knight) => "knight"
    case Base(Lance) => "lance"
    case Base(Pawn) => "pawn"
    case Promoted(PRook) => "prook"
    case Promoted(PBishop) => "pbishop"
    case Promoted(PSilver) => "psilver"
    case Promoted(PKnight) => "pknight"
    case Promoted(PLance) => "plance"
    case Promoted(PPawn) => "ppawn"
  }

  /** The promotion table: defined exactly on the six promotable base kinds. */
  function PromoteMap(k: Kind): Option<PromotedKind>
  {
    match k
    case Base(Rook) => Some(PRook)
    case Base(Bishop) => Some(PBishop)
    case Base(Silver) => Some(PSilver)
    case Base(Knight) => Some(PKnight)
    case Base(Lance) => Some(PLance)
    case Base(Pawn) => Some(PPawn)
    case _ => None
  }

  /** The unpromotion table; every promoted kind comes from the base kind it maps back to. */
  function UnpromoteMap(p: PromotedKind): (k: BaseKind)
    ensures PromoteMap(Base(k)) == Some(p)
  {
    match p
    case PRook => Rook
    case PBishop => Bishop
    case PSilver => Silver
    case PKnight => Knight
    case PLance => Lance
    case PPawn => Pawn
  }

  /** Material values (pawn 1 ... rook 10, king 0, promoted kinds their own values). */
  function PieceValue(k: Kind): (v: nat)
    ensures v <= 13
    ensures k == Base(King) ==> v == 0
  {
    match k
    case Base(Pawn) => 1
    case Base(Lance) => 3
    case Base(Knight) => 4
    case Base(Silver) => 5
    case Base(Gold) => 6
    case Base(Bishop) => 8
    case Base(Rook) => 10
    case Base(King) => 0
    case Promoted(PPawn) => 7
    case Promoted(PLance) => 6
    case Promoted(PKnight) => 6
    case Promoted(PSilver) => 6
    case Promoted(PRook) => 13
    case Promoted(PBishop) => 11
  }

  /** The program tests "name starts with p and is not pawn"; here it is the tag. */
  predicate IsPromoted(k: Kind)
  {
    k.Promoted?
  }

  /** Membership in the promotion table. */
  predicate CanPromote(k: Kind)
  {
    PromoteMap(k).Some?
  }

  function BaseType(k: Kind): (b: BaseKind)
    ensures k.Base? ==> b == k.base
    ensures k.Promoted? ==> PromoteMap(Base(b)) == Some(k.promoted)
  {
    match k
    case Base(b) => b
    case Promoted(p) => UnpromoteMap(p)
  }

  /** The promoted form of a promotable kind (PROMOTE_MAP lookup). */
  function Promote(k: Kind): (r: Kind)
    requires CanPromote(k)
    ensures r.Promoted? && BaseType(r) == k.base
  {
    Promoted(PromoteMap(k).value)
  }

  /** The hand lookup `hand[kind] || 0`: the count of the first entry for `k`. */
  function Count(h: Hand, k: BaseKind): nat
  {
    if |h| == 0 then 0
    else if h[0].kind == k then h[0].count
    else Count(h[1..], k)
  }

  /** Keys of a record are distinct. */
  predicate DistinctKinds(h: Hand)
  {
    forall i, j | 0 <= i < j < |h| :: h[i].kind != h[j].kind
  }

  function HandOf(c: Captured, p: Player): Hand
  {
    if p == Sente then c.sente else c.gote
  }

  function WithHand(c: Captured, p: Player, h: Hand): (r: Captured)
    ensures HandOf(r, p) == h
  {
    if p == Sente then c.(sente := h) else c.(gote := h)
  }

  // ---------------------------------------------------------------------------
  // Properties of the tables

  /** The two tables are inverse bijections between the six promotable base
      kinds and the six promoted kinds. */
  lemma PromotionTablesInverse(k: BaseKind, p: PromotedKind)
    ensures PromoteMap(Base(k)) == Some(p) <==> UnpromoteMap(p) == k
  {
  }

  lemma PromoteMapOnlyOnBaseKinds(k: Kind)
    ensures PromoteMap(k).Some? ==> k.Base? && UnpromoteMap(PromoteMap(k).value) == k.base
  {
  }

  /** canPromote holds exactly for rook, bishop, silver, knight, lance and pawn. */
  lemma CanPromoteExactly(k: Kind)
    ensures CanPromote(k) <==> k in {Base(Rook), Base(Bishop), Base(Silver), Base(Knight), Base(Lance), Base(Pawn)}
  {
  }

  /** The tag agrees with the program's name test, which must exclude "pawn". */
  lemma IsPromotedMatchesNameTest(k: Kind)
    ensures IsPromoted(k) <==> (Name(k)[0] == 'p' && Name(k) != "pawn")
  {
  }

  /** Names are distinct, so the tag and the name identify the same kind. */
  lemma NameInjective(k1: Kind, k2: Kind)
    ensures Name(k1) == Name(k2) ==> k1 == k2
  {
  }

  lemma BaseTypeOfPromotion(k: Kind)
    requires CanPromote(k)
    ensures BaseType(Promote(k)) == BaseType(k)
    ensures BaseType(Base(BaseType(k))) == BaseType(k)
  {
  }

  /** Each promoted kind is worth at least its base kind. */
  lemma PromotionNeverLosesValue(p: PromotedKind)
    ensures PieceValue(Promoted(p)) >= PieceValue(Base(UnpromoteMap(p)))
  {
  }

  /** With distinct keys, Count reads the count of the entry that holds the kind. */
  lemma {:induction false} CountOfEntry(h: Hand, i: int)
    requires DistinctKinds(h)
    requires 0 <= i < |h|
    ensures Count(h, h[i].kind) == h[i].count
  {
    if i > 0 {
      assert h[0].kind != h[i].kind;
      assert DistinctKinds(h[1..]) by {
        forall a, b | 0 <= a < b < |h[1..]| ensures h[1..][a].kind != h[1..][b].kind {
          assert h[1..][a] == h[a + 1] && h[1..][b] == h[b + 1];
        }
      }
      assert h[1..][i - 1] == h[i];
      CountOfEntry(h[1..], i - 1);
    }
  }

  /** A kind that no entry names has count 0. */
  lemma {:induction false} CountAbsent(h: Hand, k: BaseKind)
    requires forall i | 0 <= i < |h| :: h[i].kind != k
    ensures Count(h, k) == 0
  {
    if |h| > 0 {
      assert forall i | 0 <= i < |h[1..]| :: h[1..][i].kind != k by {
        forall i | 0 <= i < |h[1..]| ensures h[1..][i].kind != k {
          assert h[1..][i] == h[i + 1];
        }
      }
      CountAbsent(h[1..], k);
    }
  }

  /** A hand with distinct keys drawn from s has at most |s| entries. */
  lemma {:induction false} DistinctHandSize(h: Hand, s: set<BaseKind>)
    requires DistinctKinds(h)
    requires forall i | 0 <= i < |h| :: h[i].kind in s
    ensures |h| <= |s|
  {
    if |h| > 0 {
      var t := h[1..];
      assert DistinctKinds(t) by {
        forall a, b | 0 <= a < b < |t| ensures t[a].kind != t[b].kind {
          assert t[a] == h[a + 1] && t[b] == h[b + 1];
        }
      }
      forall i | 0 <= i < |t| ensures t[i].kind in s - {h[0].kind} {
        assert t[i] == h[i + 1];
      }
      DistinctHandSize(t, s - {h[0].kind});
    }
  }

  /** No hand with distinct keys has more than the eight base kinds. */
  lemma DistinctHandAtMostEight(h: Hand)
    requires DistinctKinds(h)
    ensures |h| <= 8
  {
    var all := {King, Rook, Bishop, Gold, Silver, Knight, Lance, Pawn};
    assert |all| == 8;
    forall i | 0 <= i < |h| ensures h[i].kind in all {
      match h[i].kind
      case King => case Rook => case Bishop => case Gold =>
      case Silver => case Knight => case Lance => case Pawn =>
    }
    DistinctHandSize(h, all);
  }
}
