# Lucky-number game: a verified model of the server-side rules

The repository is a multiplayer "find the number" game in Java. Players
race to click numbers on a shared grid. Lucky numbers (primes and perfect
squares) earn credits, and the credits buy power-ups: a priority window
for oneself, or a block on the other players. The repository holds two
implementations side by side:

- the `src/` tree: one `Game` class per match, a lobby `GameServer`, the
  common `User` record and a Swing registration dialog;
- the `doanltudm/` tree: a `GameMatch` over a shared `GameState`, the
  `GameFeatures` constants and integer rules, a richer `User` account with
  a power-up inventory, `ScoreTracker` statistics, a `RankingSystem` of
  achievements, a second `GameServer`, the client-side `Player` and the
  `RegisterFrame` form.

The two trees use different constants, and each module here keeps its own
file's constants. For example, the priority window is 3000 ms in
`Game.java` and 30000 ms in `GameFeatures.java`.

There is one Dafny module per Java file. Stateful classes are Dafny classes
with the same fields. Their methods carry `modifies` clauses and state the
whole new state. The pure rules are functions, and the properties the code
promises are lemmas. The module `JavaLang` (`java_lang.dfy`) gives
the Java library behaviour the rules rely on:

- truncating `/` and `%`;
- 32-bit wrap-around;
- `String.hashCode`;
- `String.trim` and `String.replace`;
- `List.remove`;
- decimal printing;
- thrown exceptions, as a `Result`.

A `HashMap` iteration (`forEach`, `values().stream().findFirst()`) is a loop
that picks any remaining key. Every contract holds for each order, and the
loop invariants track which keys are done.

The wall clock, `java.util.Random` and the outcome of calls into code that
is not part of the model are parameters:

- `now` is the current time in milliseconds;
- `pick` and `draw` are the random indices;
- `refills` are the random replacements of the number generator;
- `accepted`, `added` and `afterAdd` are what a match answers.

Some of the code does not do what its comments intend. The model follows
the code, and the lemmas exhibit the effect:

- **Double scoring.** `Game.java` adds a point to the claimer on each
  accepted claim (line 179), and `endGame` adds each player's find count
  again (313-314). `Game.SettledFrom` states the resulting totals.
- **The completion check never counts finds.** `GameState.playerNumbers` is
  never appended to. So `checkGameCompletion` marks a match complete only
  when it has no numbers at all (`GameState.UpdateScore`).
- **`initializeGame` wipes the players.** It clears `blockedNumbers` and
  `scores` after the players were added. A later `isNumberBlocked` then
  throws `NullPointerException`, as `AddThenInitialize` shows. Together
  with the broadcast below, `GameMatch.processNumber` never returns true:
  it returns false or throws. `activatePowerUp` throws whenever its
  cooldown has passed.
- **The lucky counter can overcount.** `generateGameNumbers` counts a write
  as a new lucky number even when it overwrites one, so "at least 20 %
  lucky" is not guaranteed (`CounterCanOverstateLuckyNumbers`).
- **The state broadcast always throws.** `broadcastGameState` looks up
  `getBlockedNumbers(null)` in a `ConcurrentHashMap` and throws. Every
  `startGameIfReady` that initialises the game therefore ends in
  `NullPointerException`.
- **Unblocking clears too much.** The timer that lifts a block clears the
  blocked set of every player, the activator's own earlier blocks included
  (`ReversalEmptiesEveryone`).
- **A listed player's rank info always throws.** `getPlayerRankInfo` casts
  the list's `score` entry, stored as an `Integer`, to `double`. The cast
  throws `ClassCastException` for every name in the list, before the rank
  is recorded (`PlayerRank`). `FirstPosition` is the rank the code means.
- **The second form's e-mail rule is looser.** `RegisterFrame` accepts
  `a@b@c`, which the first client's pattern refuses (`SecondFormOnlyEmail`).

## Model

| member | source | states |
|---|---|---|
| JavaLang.Quot | doanltudm/shared/ScoreTracker.java:57 | Java's `long` division: truncates toward zero, so the quotient of a non-negative total is the floor and of a negative one the ceiling |
| JavaLang.Rem | doanltudm/model/User.java:129 | Java's `%`: quotient times divisor plus remainder gives back the dividend, and the remainder has the dividend's sign |
| JavaLang.Int32 | doanltudm/client/game/Player.java:29-31 | `int` arithmetic wraps: the result is in the 32-bit range, congruent to the exact value modulo 2^32, and equal to it when it fits |
| JavaLang.Decimal | doanltudm/shared/ScoreTracker.java:212 | integer-to-string: only digits, a leading 0 exactly for zero, one digit below ten |
| JavaLang.ParseDecimalOfDecimal | doanltudm/shared/ScoreTracker.java:212 | reading back a printed number gives the number |
| JavaLang.Trim | src/client/RegistrationDialog.java:156-159 | `String.trim`: the result is the middle of the input with every character up to space cut from both ends, and it neither starts nor ends with one |
| JavaLang.TrimIdempotent | doanltudm/client/RegisterFrame.java:130-133 | trimming twice is trimming once |
| JavaLang.RemoveAll | doanltudm/client/RegisterFrame.java:198 | `String.replace(target, "")` never lengthens the string |
| JavaLang.RemoveAllAbsent | doanltudm/client/RegisterFrame.java:198 | a string without the target is unchanged by the replace |
| JavaLang.RemoveAllPrefix | doanltudm/client/RegisterFrame.java:198 | removing the target from target + message leaves the message when the message does not contain the target |
| JavaLang.RemoveFirst | src/server/GameServer.java:106-108 | `List.remove(o)`: nothing changes when o is absent; otherwise exactly one occurrence of o leaves the list |
| JavaLang.RemoveFirstSplit | src/server/GameServer.java:106-108 | the occurrence removed is the first one, and the elements before and after it stay in order |
| JavaLang.StringHashCode | doanltudm/client/game/Player.java:118-121 | `String.hashCode` is a 32-bit value |
| CommonUser.User.constructor | src/common/User.java:26-32 | the two-argument account: username and password set, no e-mail, sex or birth date, zero wins, losses and score |
| CommonUser.User.WithProfile | src/common/User.java:34-39 | the five-argument account also sets e-mail, sex and birth date, and still starts from zero counters |
| CommonUser.User.IncrementGamesWon | src/common/User.java:114-116 | one more win, one more game played, no other counter changes |
| CommonUser.User.IncrementGamesLost | src/common/User.java:118-120 | one more loss, one more game played, no other counter changes |
| CommonUser.User.AddScore | src/common/User.java:122-124 | the points are added to the total score and nothing else changes |
| CommonUser.User.SetPlayerColor | src/common/User.java:137-140 | the colour is the one given |
| MatchEngine.RgbColor | src/server/Game.java:69-70 | `new Color(r, g, b).getRGB()` is an opaque ARGB value, negative as an `int` |
| MatchEngine.RgbChannels | src/server/Game.java:69-70 | the three channels can be read back from the packed colour |
| MatchEngine.UnfoundMembers | src/server/Game.java:253-260 | the available numbers are exactly the grid numbers 1..gridSize that nobody has found |
| MatchEngine.UnfoundAscending | src/server/Game.java:255-259 | the available numbers are listed in increasing order, so each appears once |
| MatchEngine.NoneLeftIffAllFound | src/server/Game.java:207-209 | no number is left exactly when as many numbers have been found as the grid holds |
| MatchEngine.TallyLookup | src/server/Game.java:276-279 | endGame's per-player table holds each finder's number of finds, lists exactly the players who found something, and is empty exactly when nothing was found |
| MatchEngine.TallyAdd | src/server/Game.java:276-279 | one more found number adds one to its finder's count and changes no other count |
| MatchEngine.WinnerFoundMost | src/server/Game.java:282-290 | the winner the scan picks found at least one number and no fewer than anyone else, or is -1 when nothing was found |
| MatchEngine.Game.constructor | src/server/Game.java:43-45 | a new match: 100 numbers, 120 seconds, three players, inactive, no target, nothing found, no credits, no priority |
| MatchEngine.Game.WithSettings | src/server/Game.java:47-53 | the same empty match with the given grid size, duration and capacity |
| MatchEngine.Game.AddPlayer | src/server/Game.java:55-83 | refused and nothing changes when the roster is full or the match is running; otherwise the player joins with zero lucky credit and gets the next palette colour, or the random one once the palette is used up |
| MatchEngine.Game.RemovePlayer | src/server/Game.java:85-90 | the player leaves the roster; a running match with nobody left is ended, and no player's wins, losses or score change, the removed player's included |
| MatchEngine.Game.StartGame | src/server/Game.java:92-121 | below two players nothing happens; otherwise the start time is now and the first target is an unfound number, or, with none left, the match ends at once with a winner who found the most numbers (nobody when none was found) and everyone is settled |
| MatchEngine.Game.AvailableNumbers | src/server/Game.java:255-260 | the loop collects exactly the unfound grid numbers in increasing order |
| MatchEngine.Game.GenerateNextTarget | src/server/Game.java:253-268 | the target is the picked entry of the unfound numbers, so it is in 1..gridSize and not yet found; with none left the match ends, the winner found the most numbers, and everyone is settled |
| MatchEngine.Game.PriorityHeldByOther | src/server/Game.java:166-172 | a claim is held back exactly when another player's priority window is still open; the claimer's own window never blocks them |
| MatchEngine.Game.ProcessNumberFound | src/server/Game.java:161-212 | false with no change exactly when the match is inactive, the number is not the target, or another player holds priority; an accepted number had not been found and is now credited to the claimer; a claimer not on the roster throws after the number is recorded; a scored claim keeps the target unfound (a number is found at most once), and a claim that ends the match settles everyone against a winner who found the most |
| MatchEngine.Game.AcceptClaim | src/server/Game.java:174-211 | the accepted path: the number is recorded once for the claimer, then either the score update throws (claimer absent) or the claim is scored |
| MatchEngine.Game.ScoreClaim | src/server/Game.java:174-211 | the claimer gains one point, every tenth find gives them a lucky credit, and a new target is drawn, or the match ends with a winner who found the most and everyone is settled |
| MatchEngine.Game.Claim | src/server/Game.java:175-183 | exactly one point for the claimer, nobody else's counters change, and one more lucky credit when the found count becomes a multiple of 10 |
| MatchEngine.Game.DrawAfterClaim | src/server/Game.java:195-209 | after a find, the next target is an unfound number; with none left the match ends with a winner who found the most |
| MatchEngine.Game.UsePowerup | src/server/Game.java:214-251 | acts only while the match runs and the player has credit: PRIORITY and BLOCK_NUMBERS each spend exactly one credit, PRIORITY opens a 3000 ms window from now, other types change nothing, and a null type throws |
| MatchEngine.Game.CountFinds | src/server/Game.java:276-279 | the counting loop builds exactly the per-player table of finds |
| MatchEngine.Game.PickWinner | src/server/Game.java:282-290 | the first strictly highest count wins, or -1 when no count exceeds -1 |
| MatchEngine.Game.SettleOne | src/server/Game.java:306-314 | one roster member: a win or a loss recorded, and their find count added to the score |
| MatchEngine.Game.SettlePlayers | src/server/Game.java:302-318 | every roster member is settled exactly once: a win for the winner, a loss for everyone else, and their find count added again to their score |
| MatchEngine.Game.Settle | src/server/Game.java:275-318 | the winner found the most numbers, and the roster is settled against that winner |
| MatchEngine.Game.EndGame | src/server/Game.java:270-326 | idempotent: a second call changes nothing; the first ends the match, names a player who found the most and settles everyone |
| SharedGameState.AwardAtLeastPoints | doanltudm/shared/GameState.java:58-71 | the award is at least the points, and at least twice them during a streak |
| SharedGameState.AwardMonotone | doanltudm/shared/GameState.java:58-71 | a faster move in a longer streak never earns less |
| SharedGameState.AwardExamples | doanltudm/shared/GameState.java:58-71 | a fast lucky find in a streak earns (1+5+2)*2 = 16; a slow plain first find earns 1 |
| SharedGameState.TotalFoundOfEmptyLists | doanltudm/shared/GameState.java:83-87 | with every player's list empty, as the code leaves them, the found total is 0 |
| SharedGameState.GameState.constructor | doanltudm/shared/GameState.java:18-25 | empty tables, no numbers yet, not complete |
| SharedGameState.GameState.InitializeGame | doanltudm/shared/GameState.java:27-35 | a fresh array of the generated numbers, not complete, and every per-player table cleared |
| SharedGameState.GameState.ClearTables | doanltudm/shared/GameState.java:29-34 | every per-player table is empty and the game is not complete |
| SharedGameState.GameState.AddPlayer | doanltudm/shared/GameState.java:37-43 | the player starts with score 0, no streak, an empty number list, an empty blocked set and the last move at now; nothing else changes |
| SharedGameState.GameState.IsValidNumber | doanltudm/shared/GameState.java:45-56 | false outside 1..100; inside, true exactly when the number occurs in the game's numbers (a throw before initialisation) |
| SharedGameState.GameState.CheckGameCompletion | doanltudm/shared/GameState.java:82-88 | complete exactly when the players' found lists hold at least as many entries as the game has numbers |
| SharedGameState.GameState.UpdateScore | doanltudm/shared/GameState.java:58-80 | the score grows by the award, the streak by one, the last move becomes now; the completion check then holds only for a game without numbers |
| SharedGameState.GameState.RecordMove | doanltudm/shared/GameState.java:59-76 | the award (points, plus the speed bonus under 1000 ms, doubled during a streak) is added to the player's score and the streak and move time are updated |
| SharedGameState.GameState.BlockNumbers | doanltudm/shared/GameState.java:90-92 | only the named player's blocked set grows by the numbers; an unknown player throws |
| SharedGameState.GameState.UnblockNumbers | doanltudm/shared/GameState.java:94-96 | only the named player's blocked set is emptied; an unknown player throws |
| SharedGameState.GameState.IsNumberBlocked | doanltudm/shared/GameState.java:98-100 | membership in that player's blocked set, a throw exactly when the player has none |
| SharedGameState.GameState.GetWinner | doanltudm/shared/GameState.java:102-107 | a player with the highest score, or none exactly when there are no scores |
| SharedGameState.AddThenInitialize | doanltudm/shared/GameState.java:27-43 | a player added before initializeGame loses their blocked set, so isNumberBlocked then throws |
| GameFeatures.TrialDivisionDecidesPrimality | doanltudm/shared/GameFeatures.java:63-73 | trial division up to the square root decides primality exactly |
| GameFeatures.IsPrime | doanltudm/shared/GameFeatures.java:63-73 | the loop answers whether the number is prime: false up to 1, otherwise true exactly when no divisor exists |
| GameFeatures.ISqrt | doanltudm/shared/GameFeatures.java:75-78 | the integer square root: its square is at most n and the next square exceeds n |
| GameFeatures.PerfectSquareIsSquare | doanltudm/shared/GameFeatures.java:75-78 | isPerfectSquare holds exactly for the squares |
| GameFeatures.LuckyMeansPrimeOrSquare | doanltudm/shared/GameFeatures.java:54-61 | lucky means in 1..100 and prime or a perfect square |
| GameFeatures.SmallLuckyNumbers | doanltudm/shared/GameFeatures.java:54-61 | 2 and 3 are lucky, 6 is not |
| GameFeatures.DrawNumber | doanltudm/shared/GameFeatures.java:85-87 | each drawn number lies in 1..100 |
| GameFeatures.Drawn | doanltudm/shared/GameFeatures.java:85-87 | the first pass draws one number per slot |
| GameFeatures.DrawAll | doanltudm/shared/GameFeatures.java:85-87 | the fill loop writes the drawn numbers into the array |
| GameFeatures.CountLucky | doanltudm/shared/GameFeatures.java:91-97 | the lucky count never exceeds the number of entries |
| GameFeatures.CountLuckyIn | doanltudm/shared/GameFeatures.java:91-97 | the counting loop counts exactly the lucky entries |
| GameFeatures.CountLuckyAfterWrite | doanltudm/shared/GameFeatures.java:99-106 | writing a lucky number adds one to the true count only when the slot was not lucky already |
| GameFeatures.RefillStep | doanltudm/shared/GameFeatures.java:99-106 | one refill keeps the array's length |
| GameFeatures.RefillPass | doanltudm/shared/GameFeatures.java:99-106 | the array and counter after one refill attempt are as RefillStep says |
| GameFeatures.TopUp | doanltudm/shared/GameFeatures.java:99-106 | the top-up keeps the length and the 1..100 range and never lowers the counter |
| GameFeatures.TopUpAll | doanltudm/shared/GameFeatures.java:99-106 | the refill loop leaves the array that TopUp describes |
| GameFeatures.TopUpCounterBoundsLucky | doanltudm/shared/GameFeatures.java:99-106 | the counter is only an upper bound on the true lucky count |
| GameFeatures.CounterCanOverstateLuckyNumbers | doanltudm/shared/GameFeatures.java:99-106 | a draw where the loop stops with its counter at 5 while only 4 of 25 numbers are lucky, below the intended fifth |
| GameFeatures.GeneratedNumbers | doanltudm/shared/GameFeatures.java:80-109 | exactly playerCount * 25 numbers, each in 1..100 |
| GameFeatures.GenerateGameNumbers | doanltudm/shared/GameFeatures.java:80-109 | the method returns a fresh array holding GeneratedNumbers |
| GameFeatures.DefaultPlayerColor | doanltudm/shared/GameFeatures.java:111-113 | the palette indexed modulo its length; a negative multiple of 4 gets the first colour; any other negative index throws |
| GameFeatures.DefaultPlayerColorCycles | doanltudm/shared/GameFeatures.java:111-113 | the colours repeat every four players |
| GameFeatures.TwoDigits | doanltudm/shared/GameFeatures.java:115-117 | `%02d`: at least two characters, exactly two below 100 |
| GameFeatures.ParseTwoDigits | doanltudm/shared/GameFeatures.java:115-117 | the zero-padded field reads back as the value |
| GameFeatures.FormatTimeRoundTrip | doanltudm/shared/GameFeatures.java:115-117 | the text is minutes, ':', two-digit seconds, and it reads back as the original number of seconds |
| Account.Reward | doanltudm/model/User.java:138-151 | one PRIORITY_MODE exactly for Perfect Game, Speed Demon and Lucky Master; one BLOCK_NUMBERS exactly for Perfect Game, Champion and Winning Streak; nothing of any other type |
| Account.LuckyRewardsCount | doanltudm/model/User.java:127-133 | after n lucky numbers, n / 5 BLOCK_NUMBERS rewards have been granted |
| Account.User.constructor | doanltudm/model/User.java:40-51 | a new account: three of each power-up, no use yet, zero games and score, no achievements, best time Long.MAX_VALUE |
| Account.User.WithDetails | doanltudm/model/User.java:53-60 | the same fresh account with the given e-mail, password, username and sex |
| Account.User.InitializePowerUps | doanltudm/model/User.java:62-67 | every power-up type is stocked with 3 and never used |
| Account.User.IsPowerUpAvailable | doanltudm/model/User.java:69-84 | never with a count of 0 or less; PRIORITY_MODE needs 30000 ms and BLOCK_NUMBERS 45000 ms since its own last use; other types have no cooldown |
| Account.User.UsePowerUp | doanltudm/model/User.java:86-105 | refused with no change when unavailable; otherwise exactly one of that type is spent (never below 0) and only that type's last use becomes now, so other types' availability is unchanged |
| Account.User.AddPowerUp | doanltudm/model/User.java:107-109 | the type's count grows by exactly the amount given |
| Account.User.RecordGameResult | doanltudm/model/User.java:111-125 | a win adds a win and to the streak, keeps the lower best time and grants one PRIORITY_MODE; a loss adds a loss and resets the streak; the score grows either way |
| Account.User.AddLuckyNumber | doanltudm/model/User.java:127-133 | one more lucky number, and one BLOCK_NUMBERS exactly when the new count is a multiple of 5 |
| Account.User.AddAchievement | doanltudm/model/User.java:135-153 | the achievement is added; the reward is granted only on its first insertion |
| Match.PointsFor | doanltudm/server/GameMatch.java:58-61 | BASE_POINTS, plus LUCKY_NUMBER_BONUS exactly for lucky numbers |
| Match.BlockSet | doanltudm/server/GameMatch.java:110-116 | the block set holds exactly the game numbers at the five drawn slots |
| Match.BlockOthers | doanltudm/server/GameMatch.java:118-120 | every other roster player's set becomes its old set plus the numbers; the activator's set and non-players' sets are unchanged |
| Match.UnblockAll | doanltudm/server/GameMatch.java:123 | every roster player's blocked set is emptied |
| Match.ReversalEmptiesEveryone | doanltudm/server/GameMatch.java:118-128 | block followed by its timed reversal is the same as clearing every player's set, including blocks the activator had before |
| Match.CheckAchievements | doanltudm/server/GameMatch.java:161-178 | for a roster winner: PERFECT_GAME exactly at score at least 25, SPEED_DEMON exactly within 180000 ms, LUCKY_MASTER exactly at 10 consecutive; a null winner or missing entry throws |
| Match.GameMatch.constructor | doanltudm/server/GameMatch.java:17-24 | empty roster and cooldowns, no timer, a fresh game state, started now |
| Match.GameMatch.StartGameIfReady | doanltudm/server/GameMatch.java:40-50 | the game is initialised only when it is not complete and has no timer, and then the state broadcast throws; otherwise nothing changes |
| Match.GameMatch.AddPlayer | doanltudm/server/GameMatch.java:26-38 | a full match throws IllegalStateException with no change; otherwise the player is registered with cooldown 0 and fresh game-state entries, and the second player triggers startGameIfReady |
| Match.GameMatch.ProcessNumber | doanltudm/server/GameMatch.java:52-71 | false exactly when the game is complete, the number is invalid or is blocked for the user; an accepted number passes PointsFor to updateScore, and the broadcast then throws |
| Match.GameMatch.PickBlockSet | doanltudm/server/GameMatch.java:114-116 | the loop builds BlockSet from the game's numbers |
| Match.GameMatch.BlockEach | doanltudm/server/GameMatch.java:118-120 | each of the other players' sets gains the numbers; an unknown player throws part-way |
| Match.GameMatch.HandleBlockNumbers | doanltudm/server/GameMatch.java:108-134 | the block set goes to every player except the activator; no numbers throw |
| Match.GameMatch.ActivatePowerUp | doanltudm/server/GameMatch.java:73-93 | ignored within 60000 ms of the player's last use, one cooldown for all types; otherwise the use time is stamped even for an unknown type, a block is applied, and the broadcast throws |
| Match.GameMatch.ExpireBlock | doanltudm/server/GameMatch.java:122-128 | the timed reversal empties every player's blocked set |
| Match.GameMatch.EndGame | doanltudm/server/GameMatch.java:136-159 | the winner has the highest score; achievements are checked, and cleanup runs only when they did not throw |
| Match.GameMatch.Cleanup | doanltudm/server/GameMatch.java:199-203 | the roster and the cooldown table are emptied |
| Scores.UpdatedKeepsConsistent | doanltudm/shared/ScoreTracker.java:109-126 | updateStats keeps wins at most games, streak at most best streak at most wins, and no best time without a win; the best time never rises |
| Scores.ReplayCurrentStreak | doanltudm/shared/ScoreTracker.java:114-125 | after any series of games the current streak is exactly the final run of wins |
| Scores.ReplayStreaks | doanltudm/shared/ScoreTracker.java:114-125 | after any series of games the best streak is the longest run of wins in it |
| Scores.PlayerStats.constructor | doanltudm/shared/ScoreTracker.java:98-107 | all counters zero and best time Long.MAX_VALUE |
| Scores.PlayerStats.UpdateStats | doanltudm/shared/ScoreTracker.java:109-126 | one more game and the score added; a win extends the streak, raises the best streak and lowers the best time; a loss resets the streak |
| Scores.PlayerStats.AddLuckyNumber | doanltudm/shared/ScoreTracker.java:128-130 | one more lucky number, nothing else |
| Scores.TimeAgoBuckets | doanltudm/shared/ScoreTracker.java:205-218 | "just now" exactly under a minute, then 1-59 minutes, 1-23 hours, or whole days |
| Scores.AddRecent | doanltudm/shared/ScoreTracker.java:37-41 | the new record is first and the older ones follow in order; the list grows by one up to ten entries, and beyond that only the single oldest entry is dropped |
| Scores.InsertByScore | doanltudm/shared/ScoreTracker.java:81 | insertion keeps the same entries plus the new one |
| Scores.InsertKeepsSorted | doanltudm/shared/ScoreTracker.java:81 | insertion into a list sorted by score keeps it sorted |
| Scores.SortByScore | doanltudm/shared/ScoreTracker.java:81 | the comparator sort: highest score first and a permutation of the rows |
| Scores.Leaderboard | doanltudm/shared/ScoreTracker.java:69-83 | at most 20 rows (fewer only when there are fewer players), in non-increasing score order, all from the table |
| Scores.LeaderboardDominates | doanltudm/shared/ScoreTracker.java:81-82 | a row left off the board scores no more than every row on it |
| Scores.AverageDuration | doanltudm/shared/ScoreTracker.java:57 | 0 without games; otherwise the integer quotient, so average times games is within one game of the total |
| Scores.AverageOfEqualDurations | doanltudm/shared/ScoreTracker.java:57 | games that all last d average d |
| Scores.RecordedEffect | doanltudm/shared/ScoreTracker.java:32-34 | every participant plays one more game, a win is counted only for the winner, others are unchanged, and every player's counters stay consistent |
| Scores.ScoreTracker.constructor | doanltudm/shared/ScoreTracker.java:14-19 | no statistics, no recent games, zero totals |
| Scores.ScoreTracker.RecordGame | doanltudm/shared/ScoreTracker.java:21-43 | one more game and its duration counted; each player in the scores updated once with won iff they are the winner; the record at the front of their recent games, at most ten kept |
| Scores.ScoreTracker.RecordPlayer | doanltudm/shared/ScoreTracker.java:33-41 | one player's statistics (created if absent) and recent games updated, no one else's |
| Scores.ScoreTracker.GetGlobalStats | doanltudm/shared/ScoreTracker.java:53-57 | games, active players and the integer average duration |
| Scores.ScoreTracker.GetLeaderboard | doanltudm/shared/ScoreTracker.java:69-83 | at most 20 rows, sorted by score, each the player's own figures, no player twice, and every player left off scores no more than the rows shown |
| Scores.ScoreTracker.CollectRows | doanltudm/shared/ScoreTracker.java:70-80 | one row per player with that player's figures, each player exactly once |
| Ranking.CheckAndAwardAchievements | doanltudm/server/RankingSystem.java:63-106 | the set is exactly the achievements whose threshold holds, and it is stored only when non-empty |
| Ranking.EarnedMonotone | doanltudm/server/RankingSystem.java:63-101 | better statistics never lose an achievement |
| Ranking.UpdatedKeepsAchievements | doanltudm/server/RankingSystem.java:63-101 | no further game takes an achievement away |
| Ranking.NoWinNoSpeedDemon | doanltudm/server/RankingSystem.java:77-79 | a player who never won is neither Speed Demon nor First Victory |
| Ranking.FirstPosition | doanltudm/server/RankingSystem.java:118-129 | the rank counter's value at the first matching name: that entry is the name and no earlier one is; no rank exactly when the name is absent |
| Ranking.PlayerRank | doanltudm/server/RankingSystem.java:117-139 | the call throws ClassCastException exactly when the name is listed, because the Integer score is cast to double; otherwise it returns with no rank |
| Lobby.NamesOf | src/server/GameServer.java:163-170 | what the scan reads of each client, in order |
| Lobby.LoginScanMeaning | src/server/GameServer.java:163-170 | when every logged-in user has a username, the answer is true iff some client is logged in under that name |
| Lobby.LoginScanSound | src/server/GameServer.java:163-170 | true only for a name some client is logged in under; a throw only when a logged-in user has no username |
| Lobby.ClientHandler.constructor | src/server/GameServer.java:73 | a client with the given user |
| Lobby.GameServer.constructor | src/server/GameServer.java:23-36 | no clients, no games, ids from 1 |
| Lobby.GameServer.FindOrCreateGame | src/server/GameServer.java:91-104 | an existing inactive game with fewer than 3 players when one exists; otherwise a new game under the next id, which was never used, and the counter moves on |
| Lobby.GameServer.RemoveClient | src/server/GameServer.java:106-108 | only that client leaves the list, once |
| Lobby.GameServer.IsUserLoggedIn | src/server/GameServer.java:163-170 | the loop returns the login scan's answer |
| MatchServer.ClientHandler.constructor | doanltudm/server/GameServer.java:50 | a client with the given account |
| MatchServer.GameServer.constructor | doanltudm/server/GameServer.java:21-29 | no clients, no matches, no calls |
| MatchServer.GameServer.FindPlayerMatch | doanltudm/server/GameServer.java:118-123 | a match that has the client, or none exactly when no match has it |
| MatchServer.GameServer.ChooseMatch | doanltudm/server/GameServer.java:69-77 | a joinable registered match when one exists, otherwise a new match registered under the new key |
| MatchServer.GameServer.FindGame | doanltudm/server/GameServer.java:61-84 | nothing for a client already in a match; otherwise the client is added to the chosen match, and the match is started when the add succeeded and it then has at least 2 players |
| MatchServer.GameServer.HandleNumberClick | doanltudm/server/GameServer.java:86-97 | the click reaches the client's match; a lucky credit and a save happen only when the match accepted a lucky number; a credited click adds one lucky number and one BLOCK_NUMBERS when the new count is a multiple of five, and the account stays valid |
| MatchServer.GameServer.HandlePowerUpUse | doanltudm/server/GameServer.java:99-111 | an unavailable power-up gets an error reply and the count and both use times are unchanged; a spent one is decremented, its use time becomes now while the other stays, it reaches the client's match and is saved, and is spent even with no match |
| MatchServer.GameServer.RemoveClient | doanltudm/server/GameServer.java:125-131 | the client leaves the list and its match, if any, hears of the disconnect |
| ClientPlayer.Player.constructor | doanltudm/client/game/Player.java:19-27 | score and lucky numbers 0, not blocked, not in priority mode |
| ClientPlayer.Player.IncrementScore | doanltudm/client/game/Player.java:29-31 | exactly one point more, wrapping as an `int` |
| ClientPlayer.Player.AddLuckyNumber | doanltudm/client/game/Player.java:33-36 | one lucky number more and LUCKY_NUMBER_BONUS on the score |
| ClientPlayer.Player.CanClick | doanltudm/client/game/Player.java:38-44 | refused exactly while a block runs; an allowed click clears the flag |
| ClientPlayer.Player.ActivatePriorityMode | doanltudm/client/game/Player.java:46-47 | priority mode is on |
| ClientPlayer.Player.EndPriorityMode | doanltudm/client/game/Player.java:48-55 | the timer thread turns priority mode off |
| ClientPlayer.Player.Block | doanltudm/client/game/Player.java:58-61 | blocked from now for exactly `duration` milliseconds |
| ClientPlayer.Player.Unblock | doanltudm/client/game/Player.java:63-65 | no time is blocked any more |
| ClientPlayer.Player.UpdateClickTime | doanltudm/client/game/Player.java:67-69 | the last click time is now |
| ClientPlayer.EqualsIffSameUsername | doanltudm/client/game/Player.java:108-116 | named players are equal exactly when their usernames are |
| ClientPlayer.EqualPlayersHashAlike | doanltudm/client/game/Player.java:108-121 | equal players have equal hash codes |
| ClientPlayer.EqualsSymmetric | doanltudm/client/game/Player.java:108-116 | equality between named players is symmetric |
| Registration.EmailPatternAt | src/client/RegistrationDialog.java:214 | the pattern holds exactly when the text before the '@' is a local part and the text after it a domain part |
| Registration.ValidateMeaning | src/client/RegistrationDialog.java:181-220 | the chain passes exactly the acceptable details, and each failure is the first check that fails |
| Registration.SexCode | src/client/RegistrationDialog.java:162-169 | "Male" maps to M, "Female" to F, anything else to O |
| Registration.RegistrationDialog.constructor | src/client/RegistrationDialog.java:29-35 | no result yet, not registered |
| Registration.RegistrationDialog.HandleRegister | src/client/RegistrationDialog.java:154-225 | username and e-mail trimmed, passwords as typed; the first failing check is reported; `registered` becomes true only when every check passes |
| RegisterForm.ValidEmailAtFirstAt | doanltudm/client/RegisterFrame.java:122-125 | the split is at the first '@': the address is valid exactly when the part before it is a valid local part and at least one character follows it, none a line terminator (later '@'s allowed) |
| RegisterForm.FirstFormEmailIsValid | doanltudm/client/RegisterFrame.java:122-125 | every address the first client accepts, this form accepts too |
| RegisterForm.SecondFormOnlyEmail | doanltudm/client/RegisterFrame.java:122-125 | "a@b@c" passes this form and fails the first client's pattern |
| RegisterForm.CheckFieldsOrder | doanltudm/client/RegisterFrame.java:130-159 | an empty field is reported first, a bad address before a password mismatch, and the request proceeds exactly when all checks pass |
| RegisterForm.PasswordsCompareTrimmed | doanltudm/client/RegisterFrame.java:130-159 | passwords that differ only in surrounding blanks are accepted as matching |
| RegisterForm.TrimBlankEnds | doanltudm/client/RegisterFrame.java:130-133 | a blank at either end makes no difference after trimming |
| RegisterForm.FailureShowsReason | doanltudm/client/RegisterFrame.java:185-201 | a failure reply "REGISTER_FAILED:" + reason shows the reason itself |

## Left out

- I/O: sockets, object streams, broadcasts, `notifyPlayersOfJoin`, `sendError` and dialogs are not modelled. In `MatchServer`, the calls to matches, clients and the database are kept as a `calls` log.
- The database (`DatabaseManager`) is left out. Its effects appear only as entries in that log, or as the Some value `CheckAndAwardAchievements` returns.
- Threads and timers: `gameTimerTask`, the scheduler and the sleeping thread are left out. `Match.GameMatch.ExpireBlock` and `ClientPlayer.Player.EndPriorityMode` are the state changes their callbacks make. `timerScheduled` stands for `gameTimer != null`.
- Concurrency (`synchronized`, the concurrent collections) is not modelled, so every operation runs alone.
- The clock and `java.util.Random` are parameters. Each `System.currentTimeMillis()` read inside one call is the same `now`.
- GameFeatures.GenerateGameNumbers: the unbounded refill loop is driven by a finite sequence of random draws. A run that stops because the draws ran out is not a behaviour of the source.
- Floating point is not modelled: win rates, average scores and times, `avgScore` in `getGlobalStats`, `calculateRankScore`, the consistency score and the percentile.
- Ranking.CheckAndAwardAchievements: `VETERAN_GAMES_THRESHOLD` and `CHAMPION_WINS_THRESHOLD` are parameters, because `GameFeatures.java` does not declare them.
- The `GameMatch` methods that `doanltudm/server/GameServer.java` calls (`hasPlayer`, `isStarted`, `addPlayer` returning a flag, `processNumberFound`, `handlePowerUp`, `handlePlayerDisconnect`) do not exist in `GameMatch.java`. A match is therefore a view of its membership, start flag and count, and the answers are parameters.
- The `ClientHandler` calls to `Game` methods that `Game.java` does not declare (`handleStartConfirmation`, `handleDecline`, `getMaxPlayers`) are not modelled.
- The second `addAchievement` in `doanltudm/model/User.java` (line 263) is not modelled. Java rejects the duplicate declaration, and the rewarding version at line 135 is the one modelled.
- CommonUser.User.IncrementGamesWon: does not model 32-bit wrap-around. The counters are unbounded, as are the other `src/common/User.java` counters.
- Account.User.RecordGameResult: does not model `int`/`long` wrap-around of the account counters and power-up counts.
- SharedGameState.GameState.UpdateScore: does not model `int` wrap-around of scores and streaks.
- Scores.PlayerStats.UpdateStats: does not model `int`/`long` wrap-around of the statistics counters.
- Lobby.GameServer.FindOrCreateGame: does not model the `AtomicInteger` wrap of `nextGameId`.
- ClientPlayer.Player.Block: does not model `long` overflow of `now + duration`.
- Strings are sequences of characters. `length()` is taken as the number of characters, not UTF-16 code units.
- The date of birth (`Calendar`, `SimpleDateFormat`) is a plain integer parameter. The date parsing in `RegisterFrame` and everything after it (the socket exchange) is left out, apart from the reply handling in `ReplyOutcome`.
- `Account.User.WithDetails` does not keep the date of birth.
- `toString`, the getters and setters, `getPlayerInfo` and the Swing code are not modelled.
- RankingSystem.updatePlayerRanking and `getTopPlayers` are database calls and are not modelled.
- Ranking.PlayerRank: the result map is not modelled beyond the rank. For an absent name the call goes on to load the achievements from the database, which is not modelled; no percentile is computed, because no rank was put.
- ScoreTracker.getPlayerStats and getRecentGames are not modelled. They are lookups returning copies.
