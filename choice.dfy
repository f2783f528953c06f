// The computer player's choice of a move at each difficulty, and the move
// ordering the hard level uses to keep its search narrow (getAIMove and
// prioritizeMoves of src/lib/ai.ts).

module Choice {
  import opened PieceTypes
  import opened Moves
  import opened AI
  import opened BoardState

  // ---------------------------------------------------------------------------
  // prioritizeMoves: captures of valuable pieces first, promotions next

  /** The ordering key: ten times the value of the captured piece, plus 5 for a
      promotion. */
  function Key(m: Move): nat
  {
    (if m.capture.Occupied? then 10 * PieceValue(m.capture.piece.kind) else 0) + (if m.promote then 5 else 0)
  }

  /** Keys never increase along s. */
  predicate Descending(s: seq<Move>)
  {
    forall i, j | 0 <= i < j < |s| :: Key(s[i]) >= Key(s[j])
  }

  /** m placed before the first move of s whose key is not above its own. */
  function Insert(m: Move, s: seq<Move>): (r: seq<Move>)
    ensures |r| == |s| + 1
  {
    if |s| == 0 || Key(s[0]) <= Key(m) then [m] + s else [s[0]] + Insert(m, s[1..])
  }

  /** prioritizeMoves: the moves sorted by descending key. The comparator returns
      the difference of the keys and the sort is stable, so moves of equal key keep
      their order; inserting each move in front of the already sorted later moves
      gives exactly that order. */
  function Prioritize(ms: seq<Move>): (r: seq<Move>)
    ensures |r| == |ms|
  {
    if |ms| == 0 then [] else Insert(ms[0], Prioritize(ms[1..]))
  }

  /** The moves of s with key k, in their order in s. */
  function OfKey(s: seq<Move>, k: nat): seq<Move>
  {
    if |s| == 0 then [] else (if Key(s[0]) == k then [s[0]] else []) + OfKey(s[1..], k)
  }

  lemma {:induction false} InsertPerm(m: Move, s: seq<Move>)
    ensures multiset(Insert(m, s)) == multiset{m} + multiset(s)
  {
    if |s| > 0 && Key(s[0]) > Key(m) {
      assert s == [s[0]] + s[1..];
      InsertPerm(m, s[1..]);
    }
  }

  lemma {:induction false} InsertBelow(m: Move, s: seq<Move>, k: nat)
    requires Key(m) <= k && forall x <- s :: Key(x) <= k
    ensures forall x <- Insert(m, s) :: Key(x) <= k
  {
    if |s| > 0 && Key(s[0]) > Key(m) {
      InsertBelow(m, s[1..], k);
      assert forall x <- s[1..] :: x in s;
    }
  }

  lemma {:induction false} InsertSorted(m: Move, s: seq<Move>)
    requires Descending(s)
    ensures Descending(Insert(m, s))
  {
    if |s| > 0 && Key(s[0]) > Key(m) {
      var t := s[1..];
      assert Descending(t) by {
        forall i, j | 0 <= i < j < |t| ensures Key(t[i]) >= Key(t[j]) {
          assert t[i] == s[i + 1] && t[j] == s[j + 1];
        }
      }
      InsertSorted(m, t);
      forall x <- t ensures Key(x) <= Key(s[0]) {
        var j :| 0 <= j < |t| && t[j] == x;
        assert s[j + 1] == x;
      }
      InsertBelow(m, t, Key(s[0]));
      var r := Insert(m, t);
      forall i, j | 0 <= i < j < |[s[0]] + r| ensures Key(([s[0]] + r)[i]) >= Key(([s[0]] + r)[j]) {
        assert ([s[0]] + r)[j] == r[j - 1];
        if i > 0 {
          assert ([s[0]] + r)[i] == r[i - 1];
        } else {
          assert r[j - 1] in r;
        }
      }
    }
  }

  lemma OfKeyCons(x: Move, s: seq<Move>, k: nat)
    ensures OfKey([x] + s, k) == (if Key(x) == k then [x] else []) + OfKey(s, k)
  {
    assert ([x] + s)[1..] == s;
  }

  /** Inserting m adds it to the moves of its key and leaves the others alone: the
      moves it passes have larger keys. */
  lemma {:induction false} InsertOfKey(m: Move, s: seq<Move>, k: nat)
    ensures OfKey(Insert(m, s), k) == (if Key(m) == k then [m] else []) + OfKey(s, k)
  {
    if |s| == 0 || Key(s[0]) <= Key(m) {
      OfKeyCons(m, s, k);
    } else {
      var t := s[1..];
      assert s == [s[0]] + t;
      InsertOfKey(m, t, k);
      OfKeyCons(s[0], Insert(m, t), k);
      OfKeyCons(s[0], t, k);
      if Key(m) == k {
        assert Key(s[0]) != k;
      }
    }
  }

  /** prioritizeMoves returns the same moves, sorted by descending key, with moves of
      equal key in their original order. */
  lemma {:induction false} PrioritizeSorts(ms: seq<Move>)
    ensures multiset(Prioritize(ms)) == multiset(ms)
    ensures |Prioritize(ms)| == |ms|
    ensures Descending(Prioritize(ms))
    ensures forall k :: OfKey(Prioritize(ms), k) == OfKey(ms, k)
  {
    if |ms| > 0 {
      var t := ms[1..];
      assert ms == [ms[0]] + t;
      PrioritizeSorts(t);
      InsertPerm(ms[0], Prioritize(t));
      InsertSorted(ms[0], Prioritize(t));
      assert multiset(ms) == multiset{ms[0]} + multiset(t);
      forall k ensures OfKey(Prioritize(ms), k) == OfKey(ms, k) {
        InsertOfKey(ms[0], Prioritize(t), k);
        OfKeyCons(ms[0], t, k);
      }
    }
  }

  /** How many moves the hard level searches at most. */
  const SearchWidth := 30

  /** The moves the hard level searches: the first 30 in priority order when there
      are more than 30, all of them in generation order otherwise. */
  function Limited(ms: seq<Move>): (lim: seq<Move>)
    ensures forall m <- lim :: m in ms
  {
    if |ms| > SearchWidth then
      var s := Prioritize(ms);
      PrioritizeSorts(ms);
      assert forall m <- s[..SearchWidth] :: m in s && m in multiset(s);
      s[..SearchWidth]
    else ms
  }

  /** The hard level searches legal moves only, and a move it leaves out has no
      larger key than any move it keeps. */
  lemma LimitedKeepsBest(ms: seq<Move>)
    ensures |Limited(ms)| == if |ms| > SearchWidth then SearchWidth else |ms|
    ensures forall m <- Limited(ms) :: m in ms
    ensures forall m <- ms :: m in Limited(ms) || forall k <- Limited(ms) :: Key(k) >= Key(m)
  {
    if |ms| > SearchWidth {
      var s := Prioritize(ms);
      PrioritizeSorts(ms);
      forall m <- Limited(ms) ensures m in ms {
        assert m in s;
        assert m in multiset(s);
      }
      forall m <- ms ensures m in Limited(ms) || forall k <- Limited(ms) :: Key(k) >= Key(m) {
        assert m in multiset(s);
        var j :| 0 <= j < |s| && s[j] == m;
        if j < SearchWidth {
          assert s[..SearchWidth][j] == m;
        } else {
          forall k <- Limited(ms) ensures Key(k) >= Key(m) {
            var i :| 0 <= i < SearchWidth && s[..SearchWidth][i] == k;
          }
        }
      }
    }
  }

  // ---------------------------------------------------------------------------
  // Math.random, and picking one of n items with it

  /** Math.random's draws, in call order: every draw lies in [0, 1). */
  ghost predicate RandomDraws(rand: nat -> real)
  {
    forall i: nat :: 0.0 <= rand(i) < 1.0
  }

  /** Math.floor(r * n). */
  function PickIndex(r: real, n: nat): (k: nat)
    requires 0.0 <= r < 1.0 && n > 0
    ensures k < n
  {
    var x := r * n as real;
    assert x < n as real;
    x.Floor
  }

  /** Each index is picked by an interval of draws of width 1/n: the pick is uniform. */
  lemma PickIndexInterval(r: real, n: nat)
    requires 0.0 <= r < 1.0 && n > 0
    ensures PickIndex(r, n) as real <= r * n as real < PickIndex(r, n) as real + 1.0
    ensures PickIndex(r, n) as real / n as real <= r < (PickIndex(r, n) + 1) as real / n as real
  {
    var k := PickIndex(r, n) as real;
    var nn := n as real;
    assert k <= r * nn < k + 1.0;
    assert k / nn <= r by {
      assert (k / nn) * nn == k;
    }
    assert r < (k + 1.0) / nn by {
      assert ((k + 1.0) / nn) * nn == k + 1.0;
    }
  }

  // ---------------------------------------------------------------------------
  // The normal level's loop: keep the moves of the best score seen so far

  /** The normal level's loop from xs[i] on: best is the best score so far (None for
      -Infinity) and acc the moves that reached it, in order. */
  function Leaders<T>(xs: seq<T>, sc: seq<real>, i: nat, best: Option<real>, acc: seq<T>): seq<T>
    requires |xs| == |sc| && i <= |xs|
    decreases |xs| - i
  {
    if i == |xs| then acc
    else if best.None? || sc[i] > best.value then Leaders(xs, sc, i + 1, Some(sc[i]), [xs[i]])
    else if sc[i] == best.value then Leaders(xs, sc, i + 1, best, acc + [xs[i]])
    else Leaders(xs, sc, i + 1, best, acc)
  }

  /** The largest of sc[..i]. */
  function MaxPrefix(sc: seq<real>, i: nat): (v: real)
    requires 0 < i <= |sc|
    ensures forall j | 0 <= j < i :: sc[j] <= v
  {
    if i == 1 then sc[0]
    else
      var v := MaxPrefix(sc, i - 1);
      if sc[i - 1] > v then sc[i - 1] else v
  }

  /** The largest score is one of the scores. */
  lemma {:induction false} MaxPrefixAttained(sc: seq<real>, i: nat)
    requires 0 < i <= |sc|
    ensures exists j | 0 <= j < i :: sc[j] == MaxPrefix(sc, i)
  {
    if i == 1 {
      assert sc[0] == MaxPrefix(sc, 1);
    } else {
      MaxPrefixAttained(sc, i - 1);
      var j :| 0 <= j < i - 1 && sc[j] == MaxPrefix(sc, i - 1);
      if sc[i - 1] > MaxPrefix(sc, i - 1) {
        assert sc[i - 1] == MaxPrefix(sc, i);
      } else {
        assert sc[j] == MaxPrefix(sc, i);
      }
    }
  }

  /** The xs[j], j < i, whose score sc[j] is v, in order. */
  function Tied<T>(xs: seq<T>, sc: seq<real>, v: real, i: nat): seq<T>
    requires |xs| == |sc| && i <= |xs|
  {
    if i == 0 then [] else Tied(xs, sc, v, i - 1) + (if sc[i - 1] == v then [xs[i - 1]] else [])
  }

  lemma {:induction false} TiedNone<T>(xs: seq<T>, sc: seq<real>, v: real, i: nat)
    requires |xs| == |sc| && i <= |xs|
    requires forall j | 0 <= j < i :: sc[j] < v
    ensures Tied(xs, sc, v, i) == []
  {
    if i > 0 {
      TiedNone(xs, sc, v, i - 1);
    }
  }

  lemma {:induction false} TiedIn<T>(xs: seq<T>, sc: seq<real>, v: real, i: nat)
    requires |xs| == |sc| && i <= |xs|
    ensures forall x <- Tied(xs, sc, v, i) :: x in xs
  {
    if i > 0 {
      TiedIn(xs, sc, v, i - 1);
    }
  }

  /** A move is among the tied ones exactly when it is some xs[j] with score v. */
  lemma {:induction false} TiedMembers<T>(xs: seq<T>, sc: seq<real>, v: real, i: nat)
    requires |xs| == |sc| && i <= |xs|
    ensures forall x :: x in Tied(xs, sc, v, i) <==> exists j | 0 <= j < i :: xs[j] == x && sc[j] == v
  {
    if i > 0 {
      TiedMembers(xs, sc, v, i - 1);
      forall x ensures x in Tied(xs, sc, v, i) <==> exists j | 0 <= j < i :: xs[j] == x && sc[j] == v {
        if sc[i - 1] == v && x == xs[i - 1] {
          assert x in Tied(xs, sc, v, i);
        }
      }
    }
  }

  lemma {:induction false} LeadersFrom<T>(xs: seq<T>, sc: seq<real>, i: nat, acc: seq<T>)
    requires |xs| == |sc| && 0 < i <= |xs|
    requires acc == Tied(xs, sc, MaxPrefix(sc, i), i)
    ensures Leaders(xs, sc, i, Some(MaxPrefix(sc, i)), acc) == Tied(xs, sc, MaxPrefix(sc, |xs|), |xs|)
    decreases |xs| - i
  {
    if i < |xs| {
      var v := MaxPrefix(sc, i);
      var s := sc[i];
      if s > v {
        assert MaxPrefix(sc, i + 1) == s;
        TiedNone(xs, sc, s, i);
        assert Tied(xs, sc, s, i + 1) == [] + [xs[i]];
        assert Leaders(xs, sc, i, Some(v), acc) == Leaders(xs, sc, i + 1, Some(s), [xs[i]]);
        LeadersFrom(xs, sc, i + 1, [xs[i]]);
      } else if s == v {
        assert MaxPrefix(sc, i + 1) == v;
        assert Tied(xs, sc, v, i + 1) == acc + [xs[i]];
        assert Leaders(xs, sc, i, Some(v), acc) == Leaders(xs, sc, i + 1, Some(v), acc + [xs[i]]);
        LeadersFrom(xs, sc, i + 1, acc + [xs[i]]);
      } else {
        assert MaxPrefix(sc, i + 1) == v;
        assert Tied(xs, sc, v, i + 1) == acc + [];
        assert Leaders(xs, sc, i, Some(v), acc) == Leaders(xs, sc, i + 1, Some(v), acc);
        LeadersFrom(xs, sc, i + 1, acc);
      }
    }
  }

  /** The normal level keeps exactly the moves of the highest score, in generation
      order, and there is at least one. */
  lemma LeadersAreTop<T>(xs: seq<T>, sc: seq<real>)
    requires |xs| == |sc| > 0
    ensures Leaders(xs, sc, 0, None, []) == Tied(xs, sc, MaxPrefix(sc, |xs|), |xs|)
    ensures |Leaders(xs, sc, 0, None, [])| > 0
    ensures forall x :: x in Leaders(xs, sc, 0, None, []) <==>
              exists j | 0 <= j < |xs| :: xs[j] == x && sc[j] == MaxPrefix(sc, |xs|)
    ensures forall x <- Leaders(xs, sc, 0, None, []) :: x in xs
  {
    assert Tied(xs, sc, sc[0], 1) == [] + [xs[0]];
    LeadersFrom(xs, sc, 1, [xs[0]]);
    TiedMembers(xs, sc, MaxPrefix(sc, |xs|), |xs|);
    MaxPrefixAttained(sc, |xs|);
    var j :| 0 <= j < |xs| && sc[j] == MaxPrefix(sc, |xs|);
    assert xs[j] in Leaders(xs, sc, 0, None, []);
    TiedIn(xs, sc, MaxPrefix(sc, |xs|), |xs|);
  }

  // ---------------------------------------------------------------------------
  // The hard level's loop: the first move of the strictly best score

  /** The hard level's loop from sc[i] on, with the best score so far and its index. */
  function FirstBest(sc: seq<Score>, i: nat, best: Score, at: nat): (k: nat)
    requires i <= |sc|
    ensures k == at || i <= k < |sc|
    decreases |sc| - i
  {
    if i == |sc| then at
    else if Lt(best, sc[i]) then FirstBest(sc, i + 1, sc[i], i)
    else FirstBest(sc, i + 1, best, at)
  }

  lemma {:induction false} FirstBestFrom(sc: seq<Score>, i: nat, best: Score, at: nat)
    requires i <= |sc|
    requires (i == 0 && best == NegInf && at == 0 && |sc| > 0) ||
             (at < i && best == sc[at] && (forall j | 0 <= j < i :: Le(sc[j], best)) &&
              forall j | 0 <= j < at :: Lt(sc[j], best))
    ensures FirstBest(sc, i, best, at) < |sc|
    ensures forall j | 0 <= j < |sc| :: Le(sc[j], sc[FirstBest(sc, i, best, at)])
    ensures forall j | 0 <= j < FirstBest(sc, i, best, at) :: Lt(sc[j], sc[FirstBest(sc, i, best, at)])
    decreases |sc| - i
  {
    if i < |sc| {
      if Lt(best, sc[i]) {
        FirstBestFrom(sc, i + 1, sc[i], i);
      } else {
        FirstBestFrom(sc, i + 1, best, at);
      }
    }
  }

  /** The hard level picks the first of the moves with the highest score. */
  lemma FirstBestIsFirstMax(sc: seq<Score>)
    requires |sc| > 0
    ensures FirstBest(sc, 0, NegInf, 0) < |sc|
    ensures forall j | 0 <= j < |sc| :: Le(sc[j], sc[FirstBest(sc, 0, NegInf, 0)])
    ensures forall j | 0 <= j < FirstBest(sc, 0, NegInf, 0) :: Lt(sc[j], sc[FirstBest(sc, 0, NegInf, 0)])
  {
    FirstBestFrom(sc, 0, NegInf, 0);
  }

  // ---------------------------------------------------------------------------
  // The three difficulties

  /** The normal level's bonus for the position a that m leads to: 8 when the
      opponent is in check, 1000 more when it is mated. */
  function MateBonus(a: Applied, p: Player): real
  {
    (if InCheck(a.board, Opponent(p)) then 8.0 else 0.0)
      + (if Moves.Checkmate(a.board, a.captured, Opponent(p)) then 1000.0 else 0.0)
  }

  /** The normal level's score of m: a random amount below 2, the ordering key (ten
      times the value of a captured piece, 5 for a promotion) and the check and mate
      bonus. */
  function NormalScore(b: Board, cap: Captured, p: Player, m: Move, r: real): real
    requires Applicable(b, m)
  {
    r * 2.0 + Key(m) as real + MateBonus(Apply(b, cap, m, p), p)
  }

  /** The normal level's scores of ms, the j-th with the j-th random draw. */
  function NormalScores(b: Board, cap: Captured, p: Player, ms: seq<Move>, rand: nat -> real): (sc: seq<real>)
    requires forall m <- ms :: Applicable(b, m)
    ensures |sc| == |ms|
  {
    seq(|ms|, j requires 0 <= j < |ms| => NormalScore(b, cap, p, ms[j], rand(j)))
  }

  /** The hard level's score of each move in the game g (the shogi game for the
      side to move of n): the value of the position after it, searched two more
      plies with the opponent to move. */
  function HardScores(g: Game<Node>, n: Node, ms: seq<Move>): (sc: seq<Score>)
    requires forall m <- ms :: Applicable(n.board, m)
    ensures |sc| == |ms|
  {
    seq(|ms|, j requires 0 <= j < |ms| => Minimax(g, After(n, ms[j]), 2, false))
  }

  /** The normal level's pick: among the moves of the highest score, the one the
      draw r selects. */
  function Pick<T>(xs: seq<T>, sc: seq<real>, r: real): (x: T)
    requires |xs| == |sc| > 0 && 0.0 <= r < 1.0
    ensures x in xs
  {
    LeadersAreTop(xs, sc);
    var top := Leaders(xs, sc, 0, None, []);
    assert top[PickIndex(r, |top|)] in top;
    top[PickIndex(r, |top|)]
  }

  /** The pick is some xs[j] of the highest score. */
  lemma PickIsTop<T>(xs: seq<T>, sc: seq<real>, r: real)
    requires |xs| == |sc| > 0 && 0.0 <= r < 1.0
    ensures exists j | 0 <= j < |xs| :: xs[j] == Pick(xs, sc, r) && sc[j] == MaxPrefix(sc, |xs|)
  {
    LeadersAreTop(xs, sc);
    var top := Leaders(xs, sc, 0, None, []);
    var x := top[PickIndex(r, |top|)];
    assert x in top;
    var j :| 0 <= j < |xs| && xs[j] == x && sc[j] == MaxPrefix(sc, |xs|);
    assert x == Pick(xs, sc, r);
  }

  /** The hard level's pick among ms. */
  function HardChoice(b: Board, cap: Captured, p: Player, ms: seq<Move>): (m: Move)
    requires |ms| > 0 && forall m <- ms :: Applicable(b, m)
    ensures m in ms
  {
    LimitedKeepsBest(ms);
    var lim := Limited(ms);
    FirstBestIsFirstMax(HardScores(ShogiGame(p), Node(b, cap, p), lim));
    lim[FirstBest(HardScores(ShogiGame(p), Node(b, cap, p), lim), 0, NegInf, 0)]
  }

  /** getAIMove: no move when p has no legal move; otherwise a uniformly random legal
      move (easy), a random one of the best-scoring moves (normal), or the first move
      of the highest two-ply minimax value among the searched moves (hard). */
  function AIMove(b: Board, cap: Captured, p: Player, d: Difficulty, rand: nat -> real): Option<Move>
    requires RandomDraws(rand)
  {
    var ms := LegalMoves(b, cap, p);
    if |ms| == 0 then None
    else
      match d
      case Easy => Some(ms[PickIndex(rand(0), |ms|)])
      case Normal => Some(Pick(ms, NormalScores(b, cap, p, ms, rand), rand(|ms|)))
      case Hard => Some(HardChoice(b, cap, p, ms))
  }

  /** The computer moves exactly when it has a legal move, and only legally. */
  lemma AIMoveIsLegal(b: Board, cap: Captured, p: Player, d: Difficulty, rand: nat -> real)
    requires RandomDraws(rand)
    ensures AIMove(b, cap, p, d, rand).None? <==> |LegalMoves(b, cap, p)| == 0
    ensures AIMove(b, cap, p, d, rand).Some? ==> AIMove(b, cap, p, d, rand).value in LegalMoves(b, cap, p)
  {
    var ms := LegalMoves(b, cap, p);
    if |ms| > 0 {
      match d
      case Easy =>
        AIMoveEasy(b, cap, p, rand);
      case Normal =>
        AIMoveNormal(b, cap, p, rand);
      case Hard =>
        AIMoveHard(b, cap, p, rand);
    }
  }

  /** The easy level picks the j-th legal move for draws in [j/n, (j+1)/n): each of
      the n moves with the same chance. */
  lemma EasyIsUniform(b: Board, cap: Captured, p: Player, rand: nat -> real)
    requires RandomDraws(rand) && |LegalMoves(b, cap, p)| > 0
    ensures exists j | 0 <= j < |LegalMoves(b, cap, p)| ::
              AIMove(b, cap, p, Easy, rand) == Some(LegalMoves(b, cap, p)[j]) &&
              j as real / |LegalMoves(b, cap, p)| as real <= rand(0) < (j + 1) as real / |LegalMoves(b, cap, p)| as real
  {
    var n := |LegalMoves(b, cap, p)|;
    PickIndexInterval(rand(0), n);
    AIMoveEasy(b, cap, p, rand);
  }

  /** The mate bonus decides: a score reaches 1000 exactly when the move mates (the
      rest stays below 2 + 135 + 8). */
  lemma NormalScoreBelowMate(b: Board, cap: Captured, p: Player, m: Move, r: real)
    requires Applicable(b, m) && 0.0 <= r < 1.0
    ensures var a := Apply(b, cap, m, p);
            Moves.Checkmate(a.board, a.captured, Opponent(p)) <==> NormalScore(b, cap, p, m, r) >= 1000.0
  {
    assert Key(m) <= 135;
  }

  /** When one of ms mates, the normal level's pick among ms mates. */
  lemma NormalPickMates(b: Board, cap: Captured, p: Player, ms: seq<Move>, rand: nat -> real, i: nat)
    requires RandomDraws(rand) && forall m <- ms :: Applicable(b, m)
    requires i < |ms| && var a := Apply(b, cap, ms[i], p); Moves.Checkmate(a.board, a.captured, Opponent(p))
    ensures var m := Pick(ms, NormalScores(b, cap, p, ms, rand), rand(|ms|));
            m in ms && var a := Apply(b, cap, m, p); Moves.Checkmate(a.board, a.captured, Opponent(p))
  {
    var sc := NormalScores(b, cap, p, ms, rand);
    PickIsTop(ms, sc, rand(|ms|));
    var m := Pick(ms, sc, rand(|ms|));
    var j :| 0 <= j < |ms| && ms[j] == m && sc[j] == MaxPrefix(sc, |ms|);
    NormalScoreBelowMate(b, cap, p, ms[i], rand(i));
    NormalScoreBelowMate(b, cap, p, ms[j], rand(j));
    assert sc[i] == NormalScore(b, cap, p, ms[i], rand(i)) && sc[j] == NormalScore(b, cap, p, ms[j], rand(j));
  }

  /** When some legal move mates, the normal level plays a mating move. */
  lemma NormalPrefersMate(b: Board, cap: Captured, p: Player, rand: nat -> real, mate: Move)
    requires RandomDraws(rand)
    requires mate in LegalMoves(b, cap, p)
    requires var a := Apply(b, cap, mate, p); Moves.Checkmate(a.board, a.captured, Opponent(p))
    ensures AIMove(b, cap, p, Normal, rand).Some?
    ensures var m := AIMove(b, cap, p, Normal, rand).value;
            m in LegalMoves(b, cap, p) &&
            var a := Apply(b, cap, m, p); Moves.Checkmate(a.board, a.captured, Opponent(p))
  {
    var ms := LegalMoves(b, cap, p);
    var i :| 0 <= i < |ms| && ms[i] == mate;
    NormalPickMates(b, cap, p, ms, rand, i);
    AIMoveNormal(b, cap, p, rand);
  }

  /** The hard level's pick among ms is the first searched move of the highest
      two-ply minimax value (with at most 30 moves, Limited(ms) is ms itself). */
  lemma HardChoiceIsBest(b: Board, cap: Captured, p: Player, ms: seq<Move>)
    requires |ms| > 0 && forall m <- ms :: Applicable(b, m)
    ensures var lim := Limited(ms);
            var sc := HardScores(ShogiGame(p), Node(b, cap, p), lim);
            exists k | 0 <= k < |lim| ::
              HardChoice(b, cap, p, ms) == lim[k] &&
              (forall j | 0 <= j < |lim| :: Le(sc[j], sc[k])) &&
              (forall j | 0 <= j < k :: Lt(sc[j], sc[k]))
  {
    var lim := Limited(ms);
    var sc := HardScores(ShogiGame(p), Node(b, cap, p), lim);
    FirstBestIsFirstMax(sc);
    var k := FirstBest(sc, 0, NegInf, 0);
    assert HardChoice(b, cap, p, ms) == lim[k];
  }

  /** In a position that holds the standard forty pieces, with p's hand keyed once
      per kind, the hard level's score of a move is 99980 when it mates and at most
      11388 + 12960 otherwise. */
  lemma HardScoreOfMate(b: Board, cap: Captured, p: Player, lim: seq<Move>, j: nat)
    requires forall m <- lim :: Applicable(b, m)
    requires forall k :: Total(b, cap, k) == InitialTotal(k)
    requires DistinctKinds(HandOf(cap, p))
    requires j < |lim|
    ensures var a := Apply(b, cap, lim[j], p); var sc := HardScores(ShogiGame(p), Node(b, cap, p), lim);
            if Moves.Checkmate(a.board, a.captured, Opponent(p)) then sc[j] == Fin(99980)
            else Le(sc[j], Fin(24348))
  {
    var n := Node(b, cap, p);
    var a := Apply(b, cap, lim[j], p);
    if Moves.Checkmate(a.board, a.captured, Opponent(p)) {
      MateValue(n, lim[j]);
    } else {
      NonMateValue(n, lim[j]);
      StandardHandWorth(b, cap, p);
    }
  }

  /** In a position that holds the standard forty pieces, with p's hand keyed once per
      kind, the hard level's pick mates whenever one of the searched moves does: the
      first move of the highest score is then one of the mates. */
  lemma HardChoiceMates(b: Board, cap: Captured, p: Player, ms: seq<Move>, i: nat)
    requires |ms| > 0 && forall m <- ms :: Applicable(b, m)
    requires forall k :: Total(b, cap, k) == InitialTotal(k)
    requires DistinctKinds(HandOf(cap, p))
    requires i < |Limited(ms)| &&
             var a := Apply(b, cap, Limited(ms)[i], p); Moves.Checkmate(a.board, a.captured, Opponent(p))
    ensures var m := HardChoice(b, cap, p, ms);
            m in ms && var a := Apply(b, cap, m, p); Moves.Checkmate(a.board, a.captured, Opponent(p))
  {
    var lim := Limited(ms);
    var sc := HardScores(ShogiGame(p), Node(b, cap, p), lim);
    FirstBestIsFirstMax(sc);
    var k := FirstBest(sc, 0, NegInf, 0);
    assert HardChoice(b, cap, p, ms) == lim[k];
    HardScoreOfMate(b, cap, p, lim, i);
    HardScoreOfMate(b, cap, p, lim, k);
    assert Le(sc[i], sc[k]);
  }

  /** When a mating move is among the legal moves the hard level searches, in a
      position that holds the standard forty pieces with p's hand keyed once per kind,
      the hard level plays a mating move. */
  lemma HardPrefersMate(b: Board, cap: Captured, p: Player, rand: nat -> real, mate: Move)
    requires RandomDraws(rand)
    requires forall k :: Total(b, cap, k) == InitialTotal(k)
    requires DistinctKinds(HandOf(cap, p))
    requires mate in Limited(LegalMoves(b, cap, p))
    requires var a := Apply(b, cap, mate, p); Moves.Checkmate(a.board, a.captured, Opponent(p))
    ensures AIMove(b, cap, p, Hard, rand).Some?
    ensures var m := AIMove(b, cap, p, Hard, rand).value;
            m in LegalMoves(b, cap, p) &&
            var a := Apply(b, cap, m, p); Moves.Checkmate(a.board, a.captured, Opponent(p))
  {
    var ms := LegalMoves(b, cap, p);
    var i :| 0 <= i < |Limited(ms)| && Limited(ms)[i] == mate;
    HardChoiceMates(b, cap, p, ms, i);
    AIMoveHard(b, cap, p, rand);
  }

  lemma AIMoveNormal(b: Board, cap: Captured, p: Player, rand: nat -> real)
    requires RandomDraws(rand) && |LegalMoves(b, cap, p)| > 0
    ensures AIMove(b, cap, p, Normal, rand) ==
            Some(Pick(LegalMoves(b, cap, p), NormalScores(b, cap, p, LegalMoves(b, cap, p), rand), rand(|LegalMoves(b, cap, p)|)))
  {
  }

  lemma AIMoveEasy(b: Board, cap: Captured, p: Player, rand: nat -> real)
    requires RandomDraws(rand) && |LegalMoves(b, cap, p)| > 0
    ensures AIMove(b, cap, p, Easy, rand) ==
            Some(LegalMoves(b, cap, p)[PickIndex(rand(0), |LegalMoves(b, cap, p)|)])
  {
  }

  lemma AIMoveHard(b: Board, cap: Captured, p: Player, rand: nat -> real)
    requires RandomDraws(rand) && |LegalMoves(b, cap, p)| > 0
    ensures AIMove(b, cap, p, Hard, rand) == Some(HardChoice(b, cap, p, LegalMoves(b, cap, p)))
  {
  }

  // ---------------------------------------------------------------------------
  // getAIMove as the program runs it

  /** getAIMove. rand(j) is the j-th call of Math.random: the easy level draws once;
      the normal level draws once per move, in move order, and once more to pick
      among the best. */
  method GetAIMove(b: Board, cap: Captured, p: Player, d: Difficulty, rand: nat -> real) returns (r: Option<Move>)
    requires RandomDraws(rand)
    ensures r == AIMove(b, cap, p, d, rand)
  {
    var moves := GetAllLegalMoves(b, cap, p);
    if |moves| == 0 {
      return None;
    }
    match d
    case Easy =>
      AIMoveEasy(b, cap, p, rand);
      r := Some(moves[PickIndex(rand(0), |moves|)]);
    case Normal =>
      AIMoveNormal(b, cap, p, rand);
      var m := NormalMove(b, cap, p, moves, rand);
      r := Some(m);
    case Hard =>
      AIMoveHard(b, cap, p, rand);
      var limitedMoves := if |moves| > SearchWidth then Prioritize(moves)[..SearchWidth] else moves;
      var m := HardMove(b, cap, p, limitedMoves, ShogiGame(p), 0);
      r := Some(m);
  }

  /** The normal level's score of one move (the capture, promotion, check and mate
      bonuses added to the draw). */
  method ScoreMove(b: Board, cap: Captured, p: Player, m: Move, r: real) returns (score: real)
    requires Applicable(b, m)
    ensures score == NormalScore(b, cap, p, m, r)
  {
    score := r * 2.0;
    if m.capture.Occupied? {
      score := score + (PieceValue(m.capture.piece.kind) * 10) as real;
    }
    if m.promote {
      score := score + 5.0;
    }
    assert score == r * 2.0 + Key(m) as real;
    var result := ApplyMove(b, cap, m, p);
    var bonus := BonusOf(result, p);
    score := score + bonus;
  }

  /** The check and mate bonus, added up as the program does. */
  method BonusOf(result: Applied, p: Player) returns (bonus: real)
    ensures bonus == MateBonus(result, p)
  {
    bonus := 0.0;
    var check := IsInCheck(result.board, Opponent(p));
    if check {
      bonus := bonus + 8.0;
    }
    var mate := IsCheckmate(result.board, result.captured, Opponent(p));
    if mate {
      bonus := bonus + 1000.0;
    }
  }

  /** The normal level's loop and its final draw. */
  method NormalMove(b: Board, cap: Captured, p: Player, moves: seq<Move>, rand: nat -> real) returns (m: Move)
    requires RandomDraws(rand)
    requires |moves| > 0 && forall m <- moves :: Applicable(b, m)
    ensures m == Pick(moves, NormalScores(b, cap, p, moves, rand), rand(|moves|))
  {
    ghost var sc := NormalScores(b, cap, p, moves, rand);
    var bestScore: Option<real> := None;
    var bestMoves: seq<Move> := [];
    for i := 0 to |moves|
      invariant Leaders(moves, sc, i, bestScore, bestMoves) == Leaders(moves, sc, 0, None, [])
    {
      var score := ScoreMove(b, cap, p, moves[i], rand(i));
      assert score == sc[i];
      if bestScore.None? || score > bestScore.value {
        bestScore := Some(score);
        bestMoves := [moves[i]];
      } else if score == bestScore.value {
        bestMoves := bestMoves + [moves[i]];
      }
    }
    LeadersAreTop(moves, sc);
    m := bestMoves[PickIndex(rand(|moves|), |bestMoves|)];
  }

  /** The hard level's search of one move: the minimax value of the position after
      it, two plies deep with the full window. */
  method HardScore(b: Board, cap: Captured, p: Player, moves: seq<Move>, i: nat, ghost g: Game<Node>, ghost k: nat)
    returns (score: Score)
    requires Plays(g, p, k)
    requires i < |moves| && forall m <- moves :: Applicable(b, m)
    ensures score == HardScores(g, Node(b, cap, p), moves)[i]
  {
    var result := ApplyMove(b, cap, moves[i], p);
    score := SearchNode(result.board, result.captured, Opponent(p), p, 2, NegInf, PosInf, false, g, k);
    AlphaBetaIsMinimax(g, After(Node(b, cap, p), moves[i]), 2, false);
  }

  /** The hard level's loop: keep the first move of the highest value. */
  method HardMove(b: Board, cap: Captured, p: Player, limitedMoves: seq<Move>, ghost g: Game<Node>, ghost k: nat)
    returns (bestMove: Move)
    requires Plays(g, p, k)
    requires |limitedMoves| > 0 && forall m <- limitedMoves :: Applicable(b, m)
    ensures bestMove == limitedMoves[FirstBest(HardScores(g, Node(b, cap, p), limitedMoves), 0, NegInf, 0)]
  {
    ghost var sc := HardScores(g, Node(b, cap, p), limitedMoves);
    var bestScore := NegInf;
    ghost var at := 0;
    bestMove := limitedMoves[0];
    for i := 0 to |limitedMoves|
      invariant at < |limitedMoves| && bestMove == limitedMoves[at]
      invariant FirstBest(sc, i, bestScore, at) == FirstBest(sc, 0, NegInf, 0)
    {
      var score := HardScore(b, cap, p, limitedMoves, i, g, k);
      if Lt(bestScore, score) {
        bestScore := score;
        at := i;
        bestMove := limitedMoves[i];
      }
    }
  }
}
