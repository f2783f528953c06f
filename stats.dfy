// The play statistics: the counters a finished game updates, the daily login
// streak, the win rate and the comments chosen from them. Dates are day numbers;
// loading and saving the record is not modelled, so the record is an object that
// starts from the defaults and is changed in place.

module Stats {
  import opened PieceTypes

  datatype Outcome = Win | Lose | Draw

  datatype WinLoss = WinLoss(wins: nat, losses: nat)

  /** The wins and losses against each difficulty. */
  datatype DifficultyStats = DifficultyStats(easy: WinLoss, normal: WinLoss, hard: WinLoss)
  {
    function Of(d: Difficulty): WinLoss
    {
      match d
      case Easy => easy
      case Normal => normal
      case Hard => hard
    }

    function Wins(): nat
    {
      easy.wins + normal.wins + hard.wins
    }

    function Losses(): nat
    {
      easy.losses + normal.losses + hard.losses
    }

    /** The record of d replaced by x, the other two kept; the totals move by
        the change in d's record. */
    function With(d: Difficulty, x: WinLoss): (r: DifficultyStats)
      ensures r.Of(d) == x
      ensures forall e :: e != d ==> r.Of(e) == Of(e)
      ensures r.Wins() + Of(d).wins == Wins() + x.wins
      ensures r.Losses() + Of(d).losses == Losses() + x.losses
    {
      match d
      case Easy => this.(easy := x)
      case Normal => this.(normal := x)
      case Hard => this.(hard := x)
    }
  }

  /** The login-streak comment tiers. */
  datatype StreakNote = Monthly | Weekly | Days(n: nat)

  /** The statistics comments, in the order they are tried. */
  datatype StatsNote =
    | NoGames | FirstWin | FiftyWins | ThirtyWins | TenWins | OnStreak(n: nat)
    | Strong | Even | Struggling | TryNormal | TryHard | Always

  /** Position of a comment in the order the tests run. */
  function Rank(n: StatsNote): nat
  {
    match n
    case NoGames => 0
    case FirstWin => 1
    case FiftyWins => 2
    case ThirtyWins => 3
    case TenWins => 4
    case OnStreak(_) => 5
    case Strong => 6
    case Even => 7
    case Struggling => 8
    case TryNormal => 9
    case TryHard => 10
    case Always => 11
  }

  /** Math.round(100 * wins / (wins + losses)), 0 with no decided game. The
      rate is the nearest whole percentage, halves rounded up. */
  function WinRate(wins: nat, losses: nat): (r: nat)
    ensures wins + losses == 0 ==> r == 0
    ensures wins + losses > 0 ==>
      (2 * r - 1) * (wins + losses) <= 200 * wins < (2 * r + 1) * (wins + losses)
    ensures r <= 100
    ensures losses == 0 && wins > 0 ==> r == 100
    ensures wins == 0 ==> r == 0
  {
    var total := wins + losses;
    if total == 0 then 0
    else
      var r := (200 * wins + total) / (2 * total);
      assert 2 * total * r <= 200 * wins + total < 2 * total * r + 2 * total;
      RateBounds(wins, total, r);
      r
  }

  lemma RateBounds(wins: nat, total: nat, r: nat)
    requires 0 < total && wins <= total
    requires 2 * total * r <= 200 * wins + total < 2 * total * r + 2 * total
    ensures (2 * r - 1) * total <= 200 * wins < (2 * r + 1) * total
    ensures r <= 100
    ensures wins == total ==> r == 100
    ensures wins == 0 ==> r == 0
  {
    var p := r * total;
    assert 2 * total * r == 2 * p && (2 * r - 1) * total == 2 * p - total && (2 * r + 1) * total == 2 * p + total;
    if r > 100 {
      MulLe(101, r, total);
      assert false;
    }
    if wins == total && r < 100 {
      MulLe(r, 99, total);
      assert false;
    }
    if wins == 0 && r > 0 {
      MulLe(1, r, total);
      assert false;
    }
  }

  lemma MulLe(x: int, y: int, c: nat)
    requires x <= y
    ensures x * c <= y * c
  {
  }

  lemma MulLt(x: int, y: int, c: nat)
    requires x < y && c > 0
    ensures x * c < y * c
  {
  }

  lemma Regroup(a: int, b: int, c: int)
    ensures a * (b * c) == (a * b) * c == (a * c) * b
  {
  }

  /** Rounding keeps the order of fractions: when w1/t1 <= w2/t2, the rounded
      percentage of the first is not above that of the second. */
  lemma RoundedOrder(w1: nat, t1: nat, r1: nat, w2: nat, t2: nat, r2: nat)
    requires t1 > 0 && t2 > 0 && w1 * t2 <= w2 * t1
    requires (2 * r1 - 1) * t1 <= 200 * w1
    requires 200 * w2 < (2 * r2 + 1) * t2
    ensures r1 <= r2
  {
    if r1 > r2 {
      var x, y := 2 * r2 + 1, 2 * r1 - 1;
      MulLe(x, y, t1 * t2);
      Regroup(x, t1, t2);
      Regroup(y, t1, t2);
      MulLe(y * t1, 200 * w1, t2);
      Regroup(200, w1, t2);
      MulLe(w1 * t2, w2 * t1, 200);
      Regroup(200, w2, t1);
      MulLt(200 * w2, x * t2, t1);
      assert false;
    }
  }

  /** A further win never lowers the rate, and a further loss never raises it. */
  lemma WinRateMonotone(wins: nat, losses: nat)
    ensures WinRate(wins + 1, losses) >= WinRate(wins, losses)
    ensures WinRate(wins, losses + 1) <= WinRate(wins, losses)
  {
    var t := wins + losses;
    if t > 0 {
      assert wins * (t + 1) == wins * t + wins && (wins + 1) * t == wins * t + t;
      RoundedOrder(wins, t, WinRate(wins, losses), wins + 1, t + 1, WinRate(wins + 1, losses));
      RoundedOrder(wins, t + 1, WinRate(wins, losses + 1), wins, t, WinRate(wins, losses));
    }
  }

  /** getLoginStreakComment: no comment below three days, then one tier from
      three, seven and thirty days on, the three-day tier naming the count. */
  function LoginStreakComment(days: int): (c: Option<StreakNote>)
    ensures c.None? <==> days < 3
    ensures c == Some(Monthly) <==> days >= 30
    ensures c == Some(Weekly) <==> 7 <= days < 30
    ensures c.Some? && c.value.Days? <==> 3 <= days < 7
    ensures c.Some? && c.value.Days? ==> c.value.n == days
  {
    if days >= 30 then Some(Monthly)
    else if days >= 7 then Some(Weekly)
    else if days >= 3 then Some(Days(days))
    else None
  }

  /** The next value of the login streak when the last login was on day `last`
      and the player comes back on day `today`. */
  function StreakStep(days: nat, last: int, today: int): (r: nat)
    ensures today == last ==> r == days
    ensures today == last + 1 ==> r == days + 1
    ensures today > last + 1 ==> r == 1
    ensures today < last ==> r == days
    ensures days >= 1 ==> r >= 1
  {
    if today == last then days
    else if today - last == 1 then days + 1
    else if today - last > 1 then 1
    else days
  }

  /** The streak after a series of logins on the given days, starting from the
      streak `days` and the last login `last`. */
  function Logins(days: nat, last: int, todays: seq<int>): nat
    decreases |todays|
  {
    if todays == [] then days
    else Logins(StreakStep(days, last, todays[0]), todays[0], todays[1..])
  }

  /** Coming back on each of the next n days raises the streak by n. */
  lemma {:induction false} DailyLogins(days: nat, last: int, n: nat)
    ensures Logins(days, last, seq(n, i => last + 1 + i)) == days + n
    decreases n
  {
    if n > 0 {
      var todays := seq(n, i => last + 1 + i);
      assert todays[0] == last + 1;
      assert todays[1..] == seq(n - 1, i => last + 1 + 1 + i);
      DailyLogins(days + 1, last + 1, n - 1);
    }
  }

  /** A streak of at least one day stays at least one whatever the login days. */
  lemma {:induction false} LoginsPositive(days: nat, last: int, todays: seq<int>)
    requires days >= 1
    ensures Logins(days, last, todays) >= 1
    decreases |todays|
  {
    if todays != [] {
      LoginsPositive(StreakStep(days, last, todays[0]), todays[0], todays[1..]);
    }
  }

  /** The stored statistics record. */
  class PlayerStats {
    var totalGames: nat
    var wins: nat
    var losses: nat
    var draws: nat
    var currentStreak: nat
    var bestStreak: nat
    var totalMoves: nat
    var hintsUsed: nat
    var undosUsed: nat
    var firstPlayDate: Option<int>
    var lastPlayDate: int
    var consecutiveDays: nat
    var lastLoginDate: int
    var difficultyStats: DifficultyStats

    /** Every game is a win, a loss or a draw; the per-difficulty records add up
        to the wins and losses; the best streak is never below the current one;
        the login streak counts at least the current day. */
    ghost predicate Valid()
      reads this
    {
      totalGames == wins + losses + draws
      && difficultyStats.Wins() == wins && difficultyStats.Losses() == losses
      && currentStreak <= bestStreak
      && consecutiveDays >= 1
    }

    /** defaultStats: everything zero, every date today, a one-day login streak. */
    constructor (today: int)
      ensures Valid()
      ensures totalGames == 0 && wins == 0 && losses == 0 && draws == 0
      ensures currentStreak == 0 && bestStreak == 0 && totalMoves == 0 && hintsUsed == 0 && undosUsed == 0
      ensures firstPlayDate == Some(today) && lastPlayDate == today
      ensures consecutiveDays == 1 && lastLoginDate == today
      ensures difficultyStats == DifficultyStats(WinLoss(0, 0), WinLoss(0, 0), WinLoss(0, 0))
    {
      totalGames := 0;
      wins := 0;
      losses := 0;
      draws := 0;
      currentStreak := 0;
      bestStreak := 0;
      totalMoves := 0;
      hintsUsed := 0;
      undosUsed := 0;
      firstPlayDate := Some(today);
      lastPlayDate := today;
      consecutiveDays := 1;
      lastLoginDate := today;
      difficultyStats := DifficultyStats(WinLoss(0, 0), WinLoss(0, 0), WinLoss(0, 0));
    }

    /** recordGame: one more game, of the given outcome; the supplied move, hint
        and undo counts are added; the play dates are set (Score says what the
        outcome changes). */
    method RecordGame(result: Outcome, difficulty: Difficulty, moves: nat, hints: nat, undos: nat, today: int)
      requires Valid()
      modifies this
      ensures Valid()
      ensures totalGames == old(totalGames) + 1
      ensures totalMoves == old(totalMoves) + moves && hintsUsed == old(hintsUsed) + hints
      ensures undosUsed == old(undosUsed) + undos
      ensures lastPlayDate == today
      ensures firstPlayDate == if old(firstPlayDate).None? then Some(today) else old(firstPlayDate)
      ensures consecutiveDays == old(consecutiveDays) && lastLoginDate == old(lastLoginDate)
      ensures Scored(old(wins), old(losses), old(draws), old(currentStreak), old(bestStreak),
                     old(difficultyStats), result, difficulty)
    {
      totalGames := totalGames + 1;
      totalMoves := totalMoves + moves;
      hintsUsed := hintsUsed + hints;
      undosUsed := undosUsed + undos;
      lastPlayDate := today;
      if firstPlayDate.None? {
        firstPlayDate := Some(today);
      }
      Score(result, difficulty);
    }

    /** What an outcome does to the record: a win adds a win and extends the
        streak, the best streak following it; a loss adds a loss and ends the
        streak; a draw adds a draw and keeps the streak; only the given
        difficulty's record changes, and only on a win or a loss. */
    ghost predicate Scored(wins0: nat, losses0: nat, draws0: nat, streak0: nat, best0: nat,
                           ds0: DifficultyStats, result: Outcome, difficulty: Difficulty)
      reads this
    {
      var r := ds0.Of(difficulty);
      match result
      case Win =>
        wins == wins0 + 1 && losses == losses0 && draws == draws0 &&
        currentStreak == streak0 + 1 &&
        bestStreak == (if best0 < currentStreak then currentStreak else best0) &&
        difficultyStats == ds0.With(difficulty, r.(wins := r.wins + 1))
      case Lose =>
        wins == wins0 && losses == losses0 + 1 && draws == draws0 &&
        currentStreak == 0 && bestStreak == best0 &&
        difficultyStats == ds0.With(difficulty, r.(losses := r.losses + 1))
      case Draw =>
        wins == wins0 && losses == losses0 && draws == draws0 + 1 &&
        currentStreak == streak0 && bestStreak == best0 && difficultyStats == ds0
    }

    /** The outcome part of recordGame. */
    method Score(result: Outcome, difficulty: Difficulty)
      modifies this
      ensures Scored(old(wins), old(losses), old(draws), old(currentStreak), old(bestStreak),
                     old(difficultyStats), result, difficulty)
      ensures old(currentStreak) <= old(bestStreak) ==> currentStreak <= bestStreak
      ensures wins + losses + draws == old(wins) + old(losses) + old(draws) + 1
      ensures difficultyStats.Wins() + old(wins) == old(difficultyStats).Wins() + wins
      ensures difficultyStats.Losses() + old(losses) == old(difficultyStats).Losses() + losses
      ensures totalGames == old(totalGames) && totalMoves == old(totalMoves)
      ensures hintsUsed == old(hintsUsed) && undosUsed == old(undosUsed)
      ensures firstPlayDate == old(firstPlayDate) && lastPlayDate == old(lastPlayDate)
      ensures consecutiveDays == old(consecutiveDays) && lastLoginDate == old(lastLoginDate)
    {
      match result {
        case Win =>
          wins := wins + 1;
          currentStreak := currentStreak + 1;
          if currentStreak > bestStreak {
            bestStreak := currentStreak;
          }
          var r := difficultyStats.Of(difficulty);
          difficultyStats := difficultyStats.With(difficulty, r.(wins := r.wins + 1));
        case Lose =>
          losses := losses + 1;
          currentStreak := 0;
          var r := difficultyStats.Of(difficulty);
          difficultyStats := difficultyStats.With(difficulty, r.(losses := r.losses + 1));
        case Draw =>
          draws := draws + 1;
      }
    }

    /** updateLoginStreak: nothing on a second login the same day; otherwise the
        streak takes its next value and today becomes the last login. */
    method UpdateLoginStreak(today: int)
      requires Valid()
      modifies this
      ensures Valid()
      ensures consecutiveDays == StreakStep(old(consecutiveDays), old(lastLoginDate), today)
      ensures lastLoginDate == today
      ensures totalGames == old(totalGames) && wins == old(wins) && losses == old(losses) && draws == old(draws)
      ensures currentStreak == old(currentStreak) && bestStreak == old(bestStreak)
      ensures totalMoves == old(totalMoves) && hintsUsed == old(hintsUsed) && undosUsed == old(undosUsed)
      ensures firstPlayDate == old(firstPlayDate) && lastPlayDate == old(lastPlayDate)
      ensures difficultyStats == old(difficultyStats)
    {
      if lastLoginDate == today {
        return;
      }
      var diffDays := today - lastLoginDate;
      if diffDays == 1 {
        consecutiveDays := consecutiveDays + 1;
      } else if diffDays > 1 {
        consecutiveDays := 1;
      }
      lastLoginDate := today;
    }

    /** The condition under which each comment may be given, order aside. */
    ghost predicate Applies(n: StatsNote)
      requires Valid()
      reads this
    {
      var rate := WinRate(wins, losses);
      match n
      case NoGames => totalGames == 0
      case FirstWin => totalGames == 1 && wins == 1
      case FiftyWins => wins >= 50
      case ThirtyWins => wins >= 30
      case TenWins => wins >= 10
      case OnStreak(k) => currentStreak >= 5 && k == currentStreak
      case Strong => rate >= 70
      case Even => rate >= 50
      case Struggling => rate < 30 && totalGames >= 5
      case TryNormal => difficultyStats.easy.wins >= 5 && difficultyStats.normal.wins == 0
      case TryHard => difficultyStats.normal.wins >= 5 && difficultyStats.hard.wins == 0
      case Always => true
    }

    /** getStatsComment: the first comment, in the fixed order, whose condition
        holds. */
    function Comment(): (c: StatsNote)
      requires Valid()
      reads this
      ensures Applies(c)
      ensures forall n :: Rank(n) < Rank(c) ==> !Applies(n)
    {
      var rate := WinRate(wins, losses);
      if totalGames == 0 then NoGames
      else if totalGames == 1 && wins == 1 then FirstWin
      else if wins >= 50 then FiftyWins
      else if wins >= 30 then ThirtyWins
      else if wins >= 10 then TenWins
      else if currentStreak >= 5 then OnStreak(currentStreak)
      else if rate >= 70 then Strong
      else if rate >= 50 then Even
      else if rate < 30 && totalGames >= 5 then Struggling
      else if difficultyStats.easy.wins >= 5 && difficultyStats.normal.wins == 0 then TryNormal
      else if difficultyStats.normal.wins >= 5 && difficultyStats.hard.wins == 0 then TryHard
      else Always
    }
  }
}
