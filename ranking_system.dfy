/** The rule-based part of the ranking service
    (doanltudm/server/RankingSystem.java): which achievements a player's
    statistics earn, when they are handed to the database, and a player's
    position in the ranked list. The weighted rank score and the percentile
    are floating point and are not part of this model. */
module Ranking {
  import opened JavaLang
  import GameFeatures
  import opened Scores

  /** The achievements the service hands out. */
  datatype Achievement =
    | FirstVictory | LuckyCollector | SpeedDemon | Veteran | Champion | LuckyMaster | WinningStreak

  /** The name stored for each achievement. */
  function Name(a: Achievement): string
  {
    match a
    case FirstVictory => "First Victory"
    case LuckyCollector => "Lucky Collector"
    case SpeedDemon => "Speed Demon"
    case Veteran => "Veteran"
    case Champion => "Champion"
    case LuckyMaster => "Lucky Master"
    case WinningStreak => "Winning Streak"
  }

  const LUCKY_COLLECTOR_THRESHOLD := 5

  /** The two thresholds the service reads from GameFeatures but that
      GameFeatures does not declare; they are parameters here. */
  datatype Thresholds = Thresholds(veteranGames: int, championWins: int)

  /** The threshold each achievement checks. */
  predicate Qualifies(a: Achievement, stats: StatsValue, t: Thresholds)
  {
    match a
    case FirstVictory => stats.gamesWon >= 1
    case LuckyCollector => stats.luckyNumbersFound >= LUCKY_COLLECTOR_THRESHOLD
    case SpeedDemon => stats.bestTime <= GameFeatures.SPEED_DEMON_TIME
    case Veteran => stats.gamesPlayed >= t.veteranGames
    case Champion => stats.gamesWon >= t.championWins
    case LuckyMaster => stats.luckyNumbersFound >= GameFeatures.LUCKY_MASTER_THRESHOLD
    case WinningStreak => stats.bestConsecutiveWins >= GameFeatures.WINNING_STREAK_THRESHOLD
  }

  /** The achievements `stats` earns. */
  function Earned(stats: StatsValue, t: Thresholds): set<Achievement>
  {
    set a: Achievement | Qualifies(a, stats, t)
  }

  /** One test of `checkAndAwardAchievements`: `a` is added when its
      threshold is met. */
  method AwardIf(achievements: set<Achievement>, a: Achievement, stats: StatsValue, t: Thresholds)
    returns (awarded: set<Achievement>)
    ensures awarded == if Qualifies(a, stats, t) then achievements + {a} else achievements
  {
    awarded := achievements;
    if Qualifies(a, stats, t) {
      awarded := awarded + {a};
    }
  }

  /** `checkAndAwardAchievements`: the set built by successive adds, one test
      per achievement, and the database update, which happens only when the
      set is non-empty (Some(set) is the call `updateAchievements` makes). */
  method CheckAndAwardAchievements(stats: StatsValue, t: Thresholds)
    returns (achievements: set<Achievement>, update: Option<set<Achievement>>)
    ensures achievements == Earned(stats, t)
    ensures update == if achievements == {} then None else Some(achievements)
  {
    achievements := {};
    achievements := AwardIf(achievements, FirstVictory, stats, t);
    achievements := AwardIf(achievements, LuckyCollector, stats, t);
    achievements := AwardIf(achievements, SpeedDemon, stats, t);
    achievements := AwardIf(achievements, Veteran, stats, t);
    achievements := AwardIf(achievements, Champion, stats, t);
    achievements := AwardIf(achievements, LuckyMaster, stats, t);
    achievements := AwardIf(achievements, WinningStreak, stats, t);
    assert forall a :: a in achievements <==> Qualifies(a, stats, t);
    if achievements == {} {
      update := None;
    } else {
      update := Some(achievements);
    }
  }

  /** stats2 is at least as good as stats1 in every counter an achievement
      looks at. */
  predicate AtLeastAsGood(stats1: StatsValue, stats2: StatsValue)
  {
    stats1.gamesWon <= stats2.gamesWon
    && stats1.gamesPlayed <= stats2.gamesPlayed
    && stats1.luckyNumbersFound <= stats2.luckyNumbersFound
    && stats1.bestConsecutiveWins <= stats2.bestConsecutiveWins
    && stats2.bestTime <= stats1.bestTime
  }

  /** Better statistics never lose an achievement. */
  lemma EarnedMonotone(stats1: StatsValue, stats2: StatsValue, t: Thresholds)
    requires AtLeastAsGood(stats1, stats2)
    ensures Earned(stats1, t) <= Earned(stats2, t)
  {
    forall name | name in Earned(stats1, t) ensures name in Earned(stats2, t) {
      assert Qualifies(name, stats1, t);
    }
  }

  /** Statistics only improve with `updateStats`, so achievements already
      earned are kept after any further game. */
  lemma UpdatedKeepsAchievements(stats: StatsValue, score: int, won: bool, gameTime: int, t: Thresholds)
    ensures Earned(stats, t) <= Earned(Updated(stats, score, won, gameTime), t)
  {
    EarnedMonotone(stats, Updated(stats, score, won, gameTime), t);
  }

  /** A player without a win keeps bestTime at Long.MAX_VALUE, so is never
      a Speed Demon (nor has a First Victory). */
  lemma NoWinNoSpeedDemon(stats: StatsValue, t: Thresholds)
    requires Consistent(stats) && stats.gamesWon == 0
    ensures SpeedDemon !in Earned(stats, t) && FirstVictory !in Earned(stats, t)
  {
  }

  /** The rank `getPlayerRankInfo` means to report: walking the ranked
      names with a counter that starts at 1, the counter's value at the
      first entry equal to `username`, or no rank when the name is absent. */
  function FirstPosition(topPlayers: seq<string>, username: string): (rank: Option<nat>)
    ensures rank.None? <==> username !in topPlayers
    ensures rank.Some? ==>
              1 <= rank.value <= |topPlayers| && topPlayers[rank.value - 1] == username
              && username !in topPlayers[..rank.value - 1]
  {
    if |topPlayers| == 0 then None
    else if topPlayers[0] == username then Some(1)
    else
      match FirstPosition(topPlayers[1..], username)
      case None => None
      case Some(k) =>
        assert topPlayers[1..][..k - 1] == topPlayers[1..k];
        Some(k + 1)
  }

  /** `getPlayerRankInfo`'s walk over the ranked list. The list's "score"
      entries are stored as `Integer`, so the `(double)` cast on the
      matching entry throws `ClassCastException` before the rank is put
      into the result: the call throws exactly when the name is listed,
      and otherwise returns with no rank. */
  method PlayerRank(topPlayers: seq<string>, username: string) returns (r: Result<Option<nat>>)
    ensures username in topPlayers <==> r == Throws(ClassCastException)
    ensures username !in topPlayers ==> r == Ok(None)
  {
    var position := 1;
    for i := 0 to |topPlayers|
      invariant position == i + 1
      invariant username !in topPlayers[..i]
    {
      if topPlayers[i] == username {
        // score = (double) player.get("score") on an Integer
        return Throws(ClassCastException);
      }
      position := position + 1;
    }
    assert topPlayers[..|topPlayers|] == topPlayers;
    r := Ok(None);
  }
}
