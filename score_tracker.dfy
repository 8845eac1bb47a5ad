/** Statistics of the second server (doanltudm/shared/ScoreTracker.java):
    per-player counters and streaks, the ten most recent games of each
    player, the top-20 leaderboard and the integer part of the global
    statistics. The wall clock is the `now` parameter. */
module Scores {
  import opened JavaLang

  const RECENT_GAMES_LIMIT: int := 10
  const LEADERBOARD_SIZE: int := 20

  // ---------------------------------------------------------------------
  // Per-player statistics
  // ---------------------------------------------------------------------

  /** The counters of a `PlayerStats` object at one moment. */
  datatype StatsValue = StatsValue(
    gamesPlayed: int,
    gamesWon: int,
    totalScore: int,
    luckyNumbersFound: int,
    bestTime: int,
    totalGameTime: int,
    consecutiveWins: int,
    bestConsecutiveWins: int)

  /** A new `PlayerStats`: everything zero and no best time yet. */
  const NEW_STATS: StatsValue := StatsValue(0, 0, 0, 0, LONG_MAX, 0, 0, 0)

  /** The counters after `updateStats(score, won, gameTime)`. */
  function Updated(v: StatsValue, score: int, won: bool, gameTime: int): StatsValue
  {
    var played := v.(gamesPlayed := v.gamesPlayed + 1, totalScore := v.totalScore + score,
                     totalGameTime := v.totalGameTime + gameTime);
    if won then
      var streak := v.consecutiveWins + 1;
      played.(gamesWon := v.gamesWon + 1,
              consecutiveWins := streak,
              bestConsecutiveWins := if streak > v.bestConsecutiveWins then streak else v.bestConsecutiveWins,
              bestTime := if gameTime < v.bestTime then gameTime else v.bestTime)
    else
      played.(consecutiveWins := 0)
  }

  /** Relations between the counters that `updateStats` keeps. */
  predicate Consistent(v: StatsValue)
  {
    0 <= v.gamesWon <= v.gamesPlayed
    && 0 <= v.consecutiveWins <= v.bestConsecutiveWins <= v.gamesWon
    && (v.gamesWon == 0 ==> v.bestTime == LONG_MAX)
  }

  lemma UpdatedKeepsConsistent(v: StatsValue, score: int, won: bool, gameTime: int)
    requires Consistent(v)
    ensures Consistent(Updated(v, score, won, gameTime))
    ensures Updated(v, score, won, gameTime).bestTime <= v.bestTime
    ensures !won ==> Updated(v, score, won, gameTime).bestTime == v.bestTime
  {
  }

  /** The outcome of one game for one player, as `updateStats` receives it. */
  datatype Outcome = Outcome(score: int, won: bool, gameTime: int)

  /** The counters after a series of games, oldest first. */
  function Replay(v: StatsValue, games: seq<Outcome>): StatsValue
  {
    if games == [] then v
    else
      var last := games[|games| - 1];
      Updated(Replay(v, games[..|games| - 1]), last.score, last.won, last.gameTime)
  }

  /** Games i .. i+k-1 of the series were all won. */
  ghost predicate WinRun(games: seq<Outcome>, i: int, k: int)
  {
    0 <= i && 0 <= k && i + k <= |games| && forall j :: i <= j < i + k ==> games[j].won
  }

  /** Replaying games from fresh statistics, the current streak is the run
      of wins that ends the series: those games were all won, and the game
      before them, if any, was lost. */
  lemma {:induction false} ReplayCurrentStreak(games: seq<Outcome>)
    ensures var v := Replay(NEW_STATS, games);
            WinRun(games, |games| - v.consecutiveWins, v.consecutiveWins)
            && (v.consecutiveWins < |games| ==> !games[|games| - v.consecutiveWins - 1].won)
  {
    if games != [] {
      var prefix := games[..|games| - 1];
      var u := Replay(NEW_STATS, prefix);
      var v := Replay(NEW_STATS, games);
      ReplayCurrentStreak(prefix);
      assert forall j :: 0 <= j < |prefix| ==> prefix[j] == games[j];
      if games[|games| - 1].won {
        assert v.consecutiveWins == u.consecutiveWins + 1;
        assert WinRun(games, |games| - v.consecutiveWins, v.consecutiveWins);
        if v.consecutiveWins < |games| {
          assert |games| - v.consecutiveWins - 1 == |prefix| - u.consecutiveWins - 1;
        }
      } else {
        assert WinRun(games, |games|, 0);
      }
    }
  }

  /** Replaying games from fresh statistics: the current streak is the run of
      wins that ends the series, and the best streak is the longest run of
      wins anywhere in it. */
  lemma {:induction false} ReplayStreaks(games: seq<Outcome>)
    ensures var v := Replay(NEW_STATS, games);
            WinRun(games, |games| - v.consecutiveWins, v.consecutiveWins)
            && (v.consecutiveWins < |games| ==> !games[|games| - v.consecutiveWins - 1].won)
            && (exists i :: WinRun(games, i, v.bestConsecutiveWins))
            && forall i, k :: WinRun(games, i, k) ==> k <= v.bestConsecutiveWins
  {
    ReplayCurrentStreak(games);
    if games == [] {
      assert WinRun(games, 0, 0);
    } else {
      var prefix := games[..|games| - 1];
      var u := Replay(NEW_STATS, prefix);
      var v := Replay(NEW_STATS, games);
      ReplayStreaks(prefix);
      assert forall j :: 0 <= j < |prefix| ==> prefix[j] == games[j];
      var b :| WinRun(prefix, b, u.bestConsecutiveWins);
      if games[|games| - 1].won {
        if v.consecutiveWins > u.bestConsecutiveWins {
          assert WinRun(games, |games| - v.consecutiveWins, v.bestConsecutiveWins);
        } else {
          assert WinRun(games, b, v.bestConsecutiveWins);
        }
        forall i, k | WinRun(games, i, k) ensures k <= v.bestConsecutiveWins {
          if i + k <= |prefix| {
            assert WinRun(prefix, i, k);
          } else if k > 0 && v.consecutiveWins < |games| {
            // the run ends with the last game, and the game before the final
            // streak was lost, so the run lies inside the final streak
            assert !games[|games| - v.consecutiveWins - 1].won;
          }
        }
      } else {
        assert WinRun(games, b, v.bestConsecutiveWins);
        forall i, k | WinRun(games, i, k) ensures k <= v.bestConsecutiveWins {
          if k > 0 {
            assert i + k <= |prefix| by {
              assert !games[|games| - 1].won;
            }
            assert WinRun(prefix, i, k);
          }
        }
      }
    }
  }

  /** `PlayerStats`: one player's counters, updated in place. */
  class PlayerStats {
    var gamesPlayed: int
    var gamesWon: int
    var totalScore: int
    var luckyNumbersFound: int
    var bestTime: int
    var totalGameTime: int
    var consecutiveWins: int
    var bestConsecutiveWins: int

    function Snapshot(): StatsValue
      reads this
    {
      StatsValue(gamesPlayed, gamesWon, totalScore, luckyNumbersFound, bestTime, totalGameTime,
                 consecutiveWins, bestConsecutiveWins)
    }

    constructor()
      ensures Snapshot() == NEW_STATS
    {
      gamesPlayed, gamesWon, totalScore, luckyNumbersFound := 0, 0, 0, 0;
      bestTime := LONG_MAX;
      totalGameTime, consecutiveWins, bestConsecutiveWins := 0, 0, 0;
    }

    /** `updateStats`: one more game with its score and time; a win extends
        the streak, the best streak and possibly the best time, a loss ends
        the streak. */
    method UpdateStats(score: int, won: bool, gameTime: int)
      modifies this
      ensures Snapshot() == Updated(old(Snapshot()), score, won, gameTime)
    {
      gamesPlayed := gamesPlayed + 1;
      totalScore := totalScore + score;
      totalGameTime := totalGameTime + gameTime;
      if won {
        gamesWon := gamesWon + 1;
        consecutiveWins := consecutiveWins + 1;
        if consecutiveWins > bestConsecutiveWins {
          bestConsecutiveWins := consecutiveWins;
        }
        if gameTime < bestTime {
          bestTime := gameTime;
        }
      } else {
        consecutiveWins := 0;
      }
    }

    method AddLuckyNumber()
      modifies this
      ensures Snapshot() == old(Snapshot()).(luckyNumbersFound := old(luckyNumbersFound) + 1)
    {
      luckyNumbersFound := luckyNumbersFound + 1;
    }
  }

  // ---------------------------------------------------------------------
  // Game records
  // ---------------------------------------------------------------------

  /** `GameRecord`: a copy of the final scores, the winner (which may be
      null), the duration and when the game was recorded. */
  datatype GameRecord = GameRecord(scores: map<string, int>, winner: Option<string>, duration: int, timestamp: int)

  /** `getTimeAgo` at time `now`. */
  function TimeAgo(record: GameRecord, now: int): string
  {
    var diff := now - record.timestamp;
    if diff < 60000 then "just now"
    else if diff < 3600000 then Decimal(diff / 60000) + " minutes ago"
    else if diff < 86400000 then Decimal(diff / 3600000) + " hours ago"
    else Decimal(diff / 86400000) + " days ago"
  }

  /** The buckets of `getTimeAgo`: the number printed is between 1 and 59
      minutes, between 1 and 23 hours, or at least one day. */
  lemma TimeAgoBuckets(record: GameRecord, now: int)
    ensures var diff := now - record.timestamp;
            var t := TimeAgo(record, now);
            (diff < 60000 <==> t == "just now")
            && (60000 <= diff < 3600000 ==> exists m :: 1 <= m <= 59 && t == Decimal(m) + " minutes ago")
            && (3600000 <= diff < 86400000 ==> exists h :: 1 <= h <= 23 && t == Decimal(h) + " hours ago")
            && (86400000 <= diff ==> exists d :: 1 <= d && t == Decimal(d) + " days ago")
  {
    var diff := now - record.timestamp;
    var t := TimeAgo(record, now);
    if diff >= 60000 {
      assert t != "just now" by {
        assert t[|t| - 1] == 'o' && "just now"[7] == 'w';
      }
    }
  }

  /** A player's recent games after `record` is added at the front and the
      oldest entry is dropped once there are more than ten. */
  function AddRecent(games: seq<GameRecord>, record: GameRecord): (r: seq<GameRecord>)
    ensures |r| >= 1 && r[0] == record
    ensures |games| <= RECENT_GAMES_LIMIT ==> |r| <= RECENT_GAMES_LIMIT
    ensures |r| == if |games| + 1 > RECENT_GAMES_LIMIT then |games| else |games| + 1
    ensures r[1..] == games[..|r| - 1]
  {
    var added := [record] + games;
    if |added| > RECENT_GAMES_LIMIT then added[..|added| - 1] else added
  }

  // ---------------------------------------------------------------------
  // Leaderboard
  // ---------------------------------------------------------------------

  /** The integer columns of a leaderboard row (the win rate is a double and
      is not modelled). */
  datatype LeaderEntry = LeaderEntry(username: string, score: int, gamesWon: int, luckyNumbers: int)

  predicate SortedByScore(s: seq<LeaderEntry>)
  {
    forall i, j :: 0 <= i < j < |s| ==> s[i].score >= s[j].score
  }

  /** Puts `e` in front of the first entry that does not score more. */
  function InsertByScore(e: LeaderEntry, s: seq<LeaderEntry>): (r: seq<LeaderEntry>)
    ensures forall x :: x in r ==> x == e || x in s
    ensures multiset(r) == multiset(s) + multiset{e}
    ensures |r| == |s| + 1
  {
    if s == [] then [e]
    else if e.score >= s[0].score then [e] + s
    else
      assert s == [s[0]] + s[1..];
      [s[0]] + InsertByScore(e, s[1..])
  }

  lemma {:induction false} InsertKeepsSorted(e: LeaderEntry, s: seq<LeaderEntry>)
    requires SortedByScore(s)
    ensures SortedByScore(InsertByScore(e, s))
  {
    if s != [] && e.score < s[0].score {
      InsertKeepsSorted(e, s[1..]);
      var rest := InsertByScore(e, s[1..]);
      assert forall x :: x in rest ==> x.score <= s[0].score;
      var r := InsertByScore(e, s);
      assert r == [s[0]] + rest;
      assert forall j :: 0 < j < |r| ==> r[j] == rest[j - 1];
    }
  }

  /** `sorted((a, b) -> Integer.compare(b.score, a.score))`: highest score
      first, a permutation of the input. */
  function SortByScore(s: seq<LeaderEntry>): (r: seq<LeaderEntry>)
    ensures SortedByScore(r)
    ensures multiset(r) == multiset(s)
    ensures |r| == |s|
  {
    if s == [] then []
    else
      assert s == [s[0]] + s[1..];
      var rest := SortByScore(s[1..]);
      InsertKeepsSorted(s[0], rest);
      InsertByScore(s[0], rest)
  }

  /** `getLeaderboard` over the rows in the table's order: sorted by score,
      then the first twenty. */
  function Leaderboard(rows: seq<LeaderEntry>): (board: seq<LeaderEntry>)
    ensures |board| == Min(|rows|, LEADERBOARD_SIZE)
    ensures SortedByScore(board)
    ensures multiset(board) <= multiset(rows)
  {
    var sorted := SortByScore(rows);
    var board := sorted[..Min(|rows|, LEADERBOARD_SIZE)];
    assert sorted == board + sorted[|board|..];
    board
  }

  /** A row left off the leaderboard scores no more than any row on it. */
  lemma LeaderboardDominates(rows: seq<LeaderEntry>, e: LeaderEntry)
    requires e in rows && e !in Leaderboard(rows)
    ensures forall b :: b in Leaderboard(rows) ==> e.score <= b.score
  {
    var sorted := SortByScore(rows);
    var k := Min(|rows|, LEADERBOARD_SIZE);
    assert Leaderboard(rows) == sorted[..k];
    assert e in multiset(sorted);
    var j :| 0 <= j < |sorted| && sorted[j] == e;
    assert j >= k;
    forall b | b in sorted[..k] ensures e.score <= b.score {
      var i :| 0 <= i < k && sorted[..k][i] == b;
      assert sorted[i] == b;
    }
  }

  // ---------------------------------------------------------------------
  // The tracker
  // ---------------------------------------------------------------------

  datatype GlobalStats = GlobalStats(totalGames: int, activePlayers: int, avgGameDuration: int)

  /** `totalGameTime / totalGamesPlayed` with Java's truncating division, or
      0 when no games were played. */
  function AverageDuration(totalTime: int, games: int): (avg: int)
    ensures games <= 0 ==> avg == 0
    ensures games > 0 && totalTime >= 0 ==> avg * games <= totalTime < (avg + 1) * games
  {
    if games > 0 then Quot(totalTime, games) else 0
  }

  /** Games that all last d minutes average d. */
  lemma AverageOfEqualDurations(d: nat, games: nat)
    requires games > 0
    ensures AverageDuration(d * games, games) == d
  {
    var avg := AverageDuration(d * games, games);
    MulMonotone(avg + 1, d, games);
    MulMonotone(d + 1, avg, games);
  }

  lemma MulMonotone(a: int, b: int, c: nat)
    ensures a <= b ==> a * c <= b * c
  {
    assert b * c - a * c == (b - a) * c;
  }

  /** A player's counters, or those of a new player. */
  function StatsOr(stats: map<string, StatsValue>, p: string): StatsValue
  {
    if p in stats then stats[p] else NEW_STATS
  }

  /** A player's recent games, or none. */
  function RecentOr(recent: map<string, seq<GameRecord>>, p: string): seq<GameRecord>
  {
    if p in recent then recent[p] else []
  }

  /** The counters after the players in `players` have had the game with the
      given final scores recorded: each such player has played one more game,
      won iff named as the winner; nobody else changes. */
  function Recorded(before: map<string, StatsValue>, finalScores: map<string, int>, winner: Option<string>,
                    gameDuration: int, players: set<string>): map<string, StatsValue>
    requires players <= finalScores.Keys
  {
    map p | p in before.Keys + players ::
      if p in players then Updated(StatsOr(before, p), finalScores[p], winner == Some(p), gameDuration) else before[p]
  }

  /** The recent games after the record was added for the players in `players`. */
  function WithRecent(before: map<string, seq<GameRecord>>, record: GameRecord, players: set<string>)
    : map<string, seq<GameRecord>>
  {
    map p | p in before.Keys + players :: if p in players then AddRecent(RecentOr(before, p), record) else before[p]
  }

  /** Recording a game keeps every player's counters consistent, counts one
      more game for each participant, credits a win to the winner alone and
      leaves everybody else as they were. */
  lemma RecordedEffect(before: map<string, StatsValue>, finalScores: map<string, int>, winner: Option<string>,
                       gameDuration: int)
    requires forall p :: p in before ==> Consistent(before[p])
    ensures var after := Recorded(before, finalScores, winner, gameDuration, finalScores.Keys);
            && after.Keys == before.Keys + finalScores.Keys
            && (forall p :: p in after ==> Consistent(after[p]))
            && (forall p :: p in finalScores ==> after[p].gamesPlayed == StatsOr(before, p).gamesPlayed + 1)
            && (forall p :: p in finalScores ==>
                  (after[p].gamesWon == StatsOr(before, p).gamesWon + 1 <==> winner == Some(p)))
            && (forall p :: p in before && p !in finalScores ==> after[p] == before[p])
  {
    var after := Recorded(before, finalScores, winner, gameDuration, finalScores.Keys);
    forall p | p in after ensures Consistent(after[p]) {
      if p in finalScores {
        UpdatedKeepsConsistent(StatsOr(before, p), finalScores[p], winner == Some(p), gameDuration);
      }
    }
  }

  lemma RecordedStep(before: map<string, StatsValue>, finalScores: map<string, int>, winner: Option<string>,
                     gameDuration: int, done: set<string>, p: string)
    requires done <= finalScores.Keys && p in finalScores && p !in done
    ensures Recorded(before, finalScores, winner, gameDuration, done + {p})
            == Recorded(before, finalScores, winner, gameDuration, done)[p := Updated(StatsOr(before, p), finalScores[p], winner == Some(p), gameDuration)]
  {
  }

  lemma WithRecentStep(before: map<string, seq<GameRecord>>, record: GameRecord, done: set<string>, p: string)
    requires p !in done
    ensures WithRecent(before, record, done + {p}) == WithRecent(before, record, done)[p := AddRecent(RecentOr(before, p), record)]
  {
  }

  /** `ScoreTracker`. Each player's `PlayerStats` is held here by its
      counters (StatsValue); `recordGame` changes them as
      `PlayerStats.UpdateStats` does. */
  class ScoreTracker {
    var playerStats: map<string, StatsValue>
    var recentGames: map<string, seq<GameRecord>>
    var totalGamesPlayed: int
    var totalGameTime: int

    /** No recent-games list is longer than ten. */
    ghost predicate Valid()
      reads this
    {
      forall p :: p in recentGames ==> |recentGames[p]| <= RECENT_GAMES_LIMIT
    }

    constructor()
      ensures Valid()
      ensures playerStats == map[] && recentGames == map[]
      ensures totalGamesPlayed == 0 && totalGameTime == 0
    {
      playerStats := map[];
      recentGames := map[];
      totalGamesPlayed := 0;
      totalGameTime := 0;
    }

    /** `recordGame`: counts the game and its duration, then for every player
        in the final scores (in the table's order) updates their statistics,
        created on first sight, with `won` iff they are the winner, and puts
        the game's record at the front of their recent games. */
    method RecordGame(finalScores: map<string, int>, winner: Option<string>, gameDuration: int, now: int)
      requires Valid()
      modifies this
      ensures Valid()
      ensures totalGamesPlayed == old(totalGamesPlayed) + 1
      ensures totalGameTime == old(totalGameTime) + gameDuration
      ensures playerStats == Recorded(old(playerStats), finalScores, winner, gameDuration, finalScores.Keys)
      ensures recentGames == WithRecent(old(recentGames), GameRecord(finalScores, winner, gameDuration, now), finalScores.Keys)
    {
      totalGamesPlayed := totalGamesPlayed + 1;
      totalGameTime := totalGameTime + gameDuration;
      var gameRecord := GameRecord(finalScores, winner, gameDuration, now);
      var pending := finalScores.Keys;
      ghost var done: set<string> := {};
      while pending != {}
        invariant done + pending == finalScores.Keys && done !! pending
        invariant Valid()
        invariant totalGamesPlayed == old(totalGamesPlayed) + 1
        invariant totalGameTime == old(totalGameTime) + gameDuration
        invariant playerStats == Recorded(old(playerStats), finalScores, winner, gameDuration, done)
        invariant recentGames == WithRecent(old(recentGames), gameRecord, done)
        decreases pending
      {
        var playerName :| playerName in pending;
        RecordPlayer(playerName, finalScores[playerName], winner == Some(playerName), gameRecord);
        RecordedStep(old(playerStats), finalScores, winner, gameDuration, done, playerName);
        WithRecentStep(old(recentGames), gameRecord, done, playerName);
        pending := pending - {playerName};
        done := done + {playerName};
      }
    }

    /** The body of `recordGame`'s loop for one player: their statistics,
        or new ones, are updated and the record goes in front of their
        recent games. */
    method RecordPlayer(playerName: string, score: int, won: bool, gameRecord: GameRecord)
      requires Valid()
      modifies this`playerStats, this`recentGames
      ensures Valid()
      ensures playerStats == old(playerStats)[playerName := Updated(StatsOr(old(playerStats), playerName), score, won, gameRecord.duration)]
      ensures recentGames == old(recentGames)[playerName := AddRecent(RecentOr(old(recentGames), playerName), gameRecord)]
    {
      var stats := if playerName in playerStats then playerStats[playerName] else NEW_STATS;
      playerStats := playerStats[playerName := Updated(stats, score, won, gameRecord.duration)];
      var playerGames := if playerName in recentGames then recentGames[playerName] else [];
      recentGames := recentGames[playerName := AddRecent(playerGames, gameRecord)];
    }

    /** `getGlobalStats` without the average score (a double). */
    function GetGlobalStats(): (g: GlobalStats)
      reads this
      ensures g.totalGames == totalGamesPlayed && g.activePlayers == |playerStats|
      ensures g.avgGameDuration == AverageDuration(totalGameTime, totalGamesPlayed)
    {
      GlobalStats(totalGamesPlayed, |playerStats|, if totalGamesPlayed > 0 then Quot(totalGameTime, totalGamesPlayed) else 0)
    }

    /** `getLeaderboard`: one row per player, in the table's order, then
        Leaderboard. */
    method GetLeaderboard() returns (board: seq<LeaderEntry>)
      requires Valid()
      ensures |board| == Min(|playerStats|, LEADERBOARD_SIZE)
      ensures SortedByScore(board)
      ensures forall e :: e in board ==>
                e.username in playerStats && e.score == playerStats[e.username].totalScore
                && e.gamesWon == playerStats[e.username].gamesWon
                && e.luckyNumbers == playerStats[e.username].luckyNumbersFound
      ensures forall i, j :: 0 <= i < j < |board| ==> board[i].username != board[j].username
      ensures forall p :: p in playerStats && (forall e :: e in board ==> e.username != p) ==>
                forall e :: e in board ==> playerStats[p].totalScore <= e.score
    {
      var rows := CollectRows();
      board := Leaderboard(rows);
      forall e | e in board ensures e in rows {
        assert e in multiset(board);
      }
      forall i, j | 0 <= i < j < |board| ensures board[i].username != board[j].username {
        BoardRowsDistinct(rows, board, i, j);
      }
      forall p | p in playerStats && (forall e :: e in board ==> e.username != p)
        ensures forall e :: e in board ==> playerStats[p].totalScore <= e.score
      {
        assert RowOf(p) !in board;
        LeaderboardDominates(rows, RowOf(p));
      }
    }

    /** The loop of `getLeaderboard`: one row per player, each player once,
        in the table's order. */
    method CollectRows() returns (rows: seq<LeaderEntry>)
      ensures |rows| == |playerStats|
      ensures forall e :: e in rows ==> e.username in playerStats && e == RowOf(e.username)
      ensures forall i, j :: 0 <= i < j < |rows| ==> rows[i].username != rows[j].username
      ensures forall p :: p in playerStats ==> RowOf(p) in rows
    {
      rows := [];
      var pending := playerStats.Keys;
      while pending != {}
        invariant pending <= playerStats.Keys
        invariant |rows| + |pending| == |playerStats|
        invariant forall e :: e in rows ==> e.username in playerStats && e == RowOf(e.username) && e.username !in pending
        invariant forall i, j :: 0 <= i < j < |rows| ==> rows[i].username != rows[j].username
        invariant forall p :: p in playerStats && p !in pending ==> RowOf(p) in rows
        decreases pending
      {
        var playerName :| playerName in pending;
        rows := rows + [RowOf(playerName)];
        pending := pending - {playerName};
      }
    }

    function RowOf(p: string): LeaderEntry
      requires p in playerStats
      reads this
    {
      var stats := playerStats[p];
      LeaderEntry(p, stats.totalScore, stats.gamesWon, stats.luckyNumbersFound)
    }

    lemma BoardRowsDistinct(rows: seq<LeaderEntry>, board: seq<LeaderEntry>, i: int, j: int)
      requires forall a, b :: 0 <= a < b < |rows| ==> rows[a].username != rows[b].username
      requires multiset(board) <= multiset(rows)
      requires 0 <= i < j < |board|
      ensures board[i].username != board[j].username
    {
      assert board[i] in multiset(rows) && board[j] in multiset(rows);
      RowsByName(rows, board[i], board[j]);
      RowsCountOnce(rows, board[i]);
      EqualAtTwoPlaces(board, i, j);
    }

    /** Rows with distinct names: the name identifies the row. */
    lemma RowsByName(rows: seq<LeaderEntry>, x: LeaderEntry, y: LeaderEntry)
      requires forall a, b :: 0 <= a < b < |rows| ==> rows[a].username != rows[b].username
      ensures x in rows && y in rows && x.username == y.username ==> x == y
    {
      if x in rows && y in rows {
        var a :| 0 <= a < |rows| && rows[a] == x;
        var b :| 0 <= b < |rows| && rows[b] == y;
      }
    }

    lemma EqualAtTwoPlaces(s: seq<LeaderEntry>, i: int, j: int)
      requires 0 <= i < j < |s|
      ensures s[i] == s[j] ==> multiset(s)[s[i]] >= 2
    {
      assert s == s[..i] + [s[i]] + s[i + 1..j] + [s[j]] + s[j + 1..];
    }

    lemma RowsCountOnce(rows: seq<LeaderEntry>, e: LeaderEntry)
      requires forall a, b :: 0 <= a < b < |rows| ==> rows[a].username != rows[b].username
      ensures multiset(rows)[e] <= 1
    {
      if rows != [] {
        assert rows == [rows[0]] + rows[1..];
        RowsCountOnce(rows[1..], e);
        if rows[0] == e {
          assert e !in rows[1..];
        }
      }
    }
  }
}
