/** The per-match state of the second server (doanltudm/shared/GameState.java):
    scores with the speed and consecutive-match bonuses, per-player blocked
    numbers, the match's numbers, completion and the winner. The wall clock
    is the `now` parameter and the random source of `initializeGame` is the
    pair of draw parameters of GameFeatures.GenerateGameNumbers. */
module SharedGameState {
  import opened JavaLang
  import opened GameFeatures

  /** The points `updateScore` adds: the base points, plus SPEED_BONUS_POINTS
      when less than SPEED_BONUS_THRESHOLD_MS passed since the last move, and
      the whole doubled when the player's consecutive counter is positive. */
  function Award(points: int, sinceLastMove: int, consecutive: int): int
  {
    var withSpeed := if sinceLastMove < SPEED_BONUS_THRESHOLD_MS then points + SPEED_BONUS_POINTS else points;
    if consecutive > 0 then withSpeed * CONSECUTIVE_MATCH_BONUS else withSpeed
  }

  /** The award never falls below the points passed in when they are not
      negative, so a score never decreases. */
  lemma AwardAtLeastPoints(points: int, sinceLastMove: int, consecutive: int)
    requires points >= 0
    ensures Award(points, sinceLastMove, consecutive) >= points
    ensures consecutive > 0 ==> Award(points, sinceLastMove, consecutive) >= 2 * points
  {
  }

  /** Faster moves and longer runs never earn less. */
  lemma AwardMonotone(points: int, since1: int, since2: int, consecutive1: int, consecutive2: int)
    requires points >= 0
    requires since1 <= since2
    requires consecutive1 >= consecutive2 >= 0
    ensures Award(points, since1, consecutive1) >= Award(points, since2, consecutive2)
  {
  }

  /** A lucky number (1 + 5 points) claimed 500 ms after the previous claim
      of a run: (6 + 2) * 2 = 16. A plain number claimed after a pause on a
      fresh run earns its single point. */
  lemma AwardExamples()
    ensures Award(BASE_POINTS + LUCKY_NUMBER_BONUS, 500, 1) == 16
    ensures Award(BASE_POINTS, SPEED_BONUS_THRESHOLD_MS, 0) == 1
  {
  }

  /** The sum of the sizes of the number lists, in some order of the keys. */
  ghost function TotalFound(lists: map<string, seq<int>>): nat
    decreases |lists.Keys|
  {
    if lists == map[] then 0
    else
      var k :| k in lists;
      |lists[k]| + TotalFound(lists - {k})
  }

  predicate AllEmpty(lists: map<string, seq<int>>)
  {
    forall u :: u in lists ==> lists[u] == []
  }

  lemma {:induction false} TotalFoundOfEmptyLists(lists: map<string, seq<int>>)
    requires AllEmpty(lists)
    ensures TotalFound(lists) == 0
    decreases |lists.Keys|
  {
    if lists != map[] {
      var k :| k in lists && TotalFound(lists) == |lists[k]| + TotalFound(lists - {k});
      TotalFoundOfEmptyLists(lists - {k});
    }
  }

  class GameState {
    var scores: map<string, int>
    /** Numbers found per player. Nothing in the class ever appends to these
        lists: they are created empty and only ever cleared. */
    var playerNumbers: map<string, seq<int>>
    var blockedNumbers: map<string, set<int>>
    var gameNumbers: array?<int>
    var gameComplete: bool
    var lastMoveTime: map<string, int>
    var consecutiveMatches: map<string, int>

    /** The number lists stay empty, and the score, last-move and
        consecutive tables always hold the same players. */
    ghost predicate Valid()
      reads this
    {
      AllEmpty(playerNumbers)
      && scores.Keys == consecutiveMatches.Keys == lastMoveTime.Keys
    }

    constructor()
      ensures Valid()
      ensures scores == map[] && playerNumbers == map[] && blockedNumbers == map[]
      ensures lastMoveTime == map[] && consecutiveMatches == map[]
      ensures gameNumbers == null && !gameComplete
    {
      scores := map[];
      playerNumbers := map[];
      blockedNumbers := map[];
      lastMoveTime := map[];
      consecutiveMatches := map[];
      gameNumbers := null;
      gameComplete := false;
    }

    /** `initializeGame`: draws the match's numbers, then clears every
        per-player table, including the entries of players added before. */
    method InitializeGame(playerCount: nat, draw: nat -> nat, refills: seq<Refill>)
      modifies this
      ensures Valid()
      ensures gameNumbers != null && fresh(gameNumbers)
      ensures gameNumbers[..] == GeneratedNumbers(playerCount, draw, refills)
      ensures !gameComplete
      ensures scores == map[] && playerNumbers == map[] && blockedNumbers == map[]
      ensures lastMoveTime == map[] && consecutiveMatches == map[]
    {
      gameNumbers := GenerateGameNumbers(playerCount, draw, refills);
      ClearTables();
    }

    /** The second half of `initializeGame`: every per-player table is
        emptied and the match is not complete. */
    method ClearTables()
      modifies this`gameComplete, this`scores, this`playerNumbers, this`blockedNumbers
      modifies this`lastMoveTime, this`consecutiveMatches
      ensures Valid()
      ensures !gameComplete
      ensures scores == map[] && playerNumbers == map[] && blockedNumbers == map[]
      ensures lastMoveTime == map[] && consecutiveMatches == map[]
    {
      gameComplete := false;
      scores, playerNumbers, blockedNumbers := map[], map[], map[];
      lastMoveTime, consecutiveMatches := map[], map[];
    }

    /** `addPlayer`: a zero score, an empty number list, an empty blocked set,
        the current time as last move and a zero consecutive counter. */
    method AddPlayer(username: string, now: int)
      requires Valid()
      modifies this
      ensures Valid()
      ensures scores == old(scores)[username := 0]
      ensures playerNumbers == old(playerNumbers)[username := []]
      ensures blockedNumbers == old(blockedNumbers)[username := {}]
      ensures lastMoveTime == old(lastMoveTime)[username := now]
      ensures consecutiveMatches == old(consecutiveMatches)[username := 0]
      ensures gameNumbers == old(gameNumbers) && gameComplete == old(gameComplete)
    {
      scores := scores[username := 0];
      playerNumbers := playerNumbers[username := []];
      blockedNumbers := blockedNumbers[username := {}];
      lastMoveTime := lastMoveTime[username := now];
      consecutiveMatches := consecutiveMatches[username := 0];
    }

    /** `isValidNumber`: false outside [MIN_NUMBER, MAX_NUMBER]; inside, a scan
        of the match's numbers, which throws before `initializeGame`. */
    method IsValidNumber(number: int) returns (r: Result<bool>)
      ensures !(MIN_NUMBER <= number <= MAX_NUMBER) ==> r == Ok(false)
      ensures MIN_NUMBER <= number <= MAX_NUMBER && gameNumbers == null ==> r == Throws(NullPointerException)
      ensures MIN_NUMBER <= number <= MAX_NUMBER && gameNumbers != null ==> r == Ok(number in gameNumbers[..])
    {
      if number < MIN_NUMBER || number > MAX_NUMBER {
        return Ok(false);
      }
      if gameNumbers == null {
        return Throws(NullPointerException);
      }
      var i := 0;
      while i < gameNumbers.Length
        invariant 0 <= i <= gameNumbers.Length
        invariant number !in gameNumbers[..i]
      {
        if gameNumbers[i] == number {
          return Ok(true);
        }
        i := i + 1;
      }
      assert gameNumbers[..] == gameNumbers[..i];
      return Ok(false);
    }

    /** `checkGameCompletion`: the match is complete when the number lists
        together hold at least as many entries as the match has numbers. */
    method CheckGameCompletion() returns (r: Result<()>)
      requires Valid()
      modifies this`gameComplete
      ensures gameNumbers == null ==> r == Throws(NullPointerException) && gameComplete == old(gameComplete)
      ensures gameNumbers != null ==> r == Ok(()) && gameComplete == (TotalFound(playerNumbers) >= gameNumbers.Length)
    {
      var totalFound := 0;
      var pending := playerNumbers.Keys;
      while pending != {}
        invariant pending <= playerNumbers.Keys
        invariant totalFound == 0
        decreases pending
      {
        var u :| u in pending;
        totalFound := totalFound + |playerNumbers[u]|;
        pending := pending - {u};
      }
      if gameNumbers == null {
        return Throws(NullPointerException);
      }
      TotalFoundOfEmptyLists(playerNumbers);
      gameComplete := totalFound >= gameNumbers.Length;
      return Ok(());
    }

    function Consecutive(username: string): int
      reads this
    {
      if username in consecutiveMatches then consecutiveMatches[username] else 0
    }

    /** The scores after `username` scores `points` at time `now`: the award
        is computed from the time since the player's last move (none recorded
        counts as "just now") and from their consecutive counter. */
    function ScoresAfterMove(username: string, points: int, now: int): map<string, int>
      reads this
    {
      var last := if username in lastMoveTime then lastMoveTime[username] else now;
      var previous := if username in scores then scores[username] else 0;
      scores[username := previous + Award(points, now - last, Consecutive(username))]
    }

    /** `updateScore`: adds Award(points, time since the last move, the
        consecutive counter) to the score (a missing last move counts as
        "just now"), bumps the counter, stamps the time and re-checks
        completion. */
    method UpdateScore(username: string, points: int, now: int) returns (r: Result<()>)
      requires Valid()
      modifies this`scores, this`consecutiveMatches, this`lastMoveTime, this`gameComplete
      ensures Valid()
      ensures scores == old(ScoresAfterMove(username, points, now))
      ensures consecutiveMatches == old(consecutiveMatches)[username := old(Consecutive(username)) + 1]
      ensures lastMoveTime == old(lastMoveTime)[username := now]
      ensures playerNumbers == old(playerNumbers) && blockedNumbers == old(blockedNumbers)
      ensures gameNumbers == old(gameNumbers)
      ensures gameNumbers == null ==> r == Throws(NullPointerException) && gameComplete == old(gameComplete)
      ensures gameNumbers != null ==> r == Ok(()) && (gameComplete <==> gameNumbers.Length == 0)
    {
      RecordMove(username, points, now);
      TotalFoundOfEmptyLists(playerNumbers);
      r := CheckGameCompletion();
    }

    /** The bookkeeping of `updateScore` before the completion check. */
    method RecordMove(username: string, points: int, now: int)
      requires Valid()
      modifies this`scores, this`consecutiveMatches, this`lastMoveTime
      ensures Valid()
      ensures scores == old(ScoresAfterMove(username, points, now))
      ensures consecutiveMatches == old(consecutiveMatches)[username := old(Consecutive(username)) + 1]
      ensures lastMoveTime == old(lastMoveTime)[username := now]
    {
      var currentTime := now;
      var last := if username in lastMoveTime then lastMoveTime[username] else currentTime;
      var timeSinceLastMove := currentTime - last;
      var award := points;
      if timeSinceLastMove < SPEED_BONUS_THRESHOLD_MS {
        award := award + SPEED_BONUS_POINTS;
      }
      var currentConsecutive := if username in consecutiveMatches then consecutiveMatches[username] else 0;
      if currentConsecutive > 0 {
        award := award * CONSECUTIVE_MATCH_BONUS;
      }
      consecutiveMatches := consecutiveMatches[username := currentConsecutive + 1];
      scores := scores[username := (if username in scores then scores[username] else 0) + award];
      lastMoveTime := lastMoveTime[username := currentTime];
    }

    /** `blockNumbers`: adds to the named player's set; the player must have
        an entry, otherwise the call throws. */
    method BlockNumbers(username: string, numbers: set<int>) returns (r: Result<()>)
      requires Valid()
      modifies this`blockedNumbers
      ensures Valid()
      ensures username !in old(blockedNumbers) ==> r == Throws(NullPointerException) && blockedNumbers == old(blockedNumbers)
      ensures username in old(blockedNumbers) ==>
                r == Ok(()) && blockedNumbers == old(blockedNumbers)[username := old(blockedNumbers)[username] + numbers]
    {
      if username !in blockedNumbers {
        return Throws(NullPointerException);
      }
      blockedNumbers := blockedNumbers[username := blockedNumbers[username] + numbers];
      return Ok(());
    }

    /** `unblockNumbers`: empties the named player's set only. */
    method UnblockNumbers(username: string) returns (r: Result<()>)
      requires Valid()
      modifies this`blockedNumbers
      ensures Valid()
      ensures username !in old(blockedNumbers) ==> r == Throws(NullPointerException) && blockedNumbers == old(blockedNumbers)
      ensures username in old(blockedNumbers) ==> r == Ok(()) && blockedNumbers == old(blockedNumbers)[username := {}]
    {
      if username !in blockedNumbers {
        return Throws(NullPointerException);
      }
      blockedNumbers := blockedNumbers[username := {}];
      return Ok(());
    }

    /** `isNumberBlocked`: membership in the named player's set. */
    function IsNumberBlocked(number: int, username: string): (r: Result<bool>)
      reads this
      ensures r.Throws? <==> username !in blockedNumbers
      ensures r.Ok? ==> (r.value <==> number in blockedNumbers[username])
    {
      if username !in blockedNumbers then Throws(NullPointerException)
      else Ok(number in blockedNumbers[username])
    }

    /** `getWinner`: a player with the highest score (the first met in the
        table's order on a tie), or none when there are no scores. */
    method GetWinner() returns (winner: Option<string>)
      ensures winner.None? <==> scores == map[]
      ensures winner.Some? ==> winner.value in scores
      ensures winner.Some? ==> forall u :: u in scores ==> scores[u] <= scores[winner.value]
    {
      winner := None;
      var pending := scores.Keys;
      while pending != {}
        invariant pending <= scores.Keys
        invariant winner.None? <==> pending == scores.Keys
        invariant winner.Some? ==> winner.value in scores
        invariant winner.Some? ==> forall u :: u in scores && u !in pending ==> scores[u] <= scores[winner.value]
        decreases pending
      {
        var u :| u in pending;
        if winner.None? || scores[u] > scores[winner.value] {
          winner := Some(u);
        }
        pending := pending - {u};
      }
    }
  }

  /** Players added before `initializeGame` lose their blocked sets, so a
      block aimed at them throws afterwards. */
  method AddThenInitialize(username: string, now: int, draw: nat -> nat, refills: seq<Refill>)
    returns (state: GameState, blocked: Result<bool>)
    ensures fresh(state)
    ensures blocked == Throws(NullPointerException)
  {
    state := new GameState();
    state.AddPlayer(username, now);
    state.InitializeGame(2, draw, refills);
    blocked := state.IsNumberBlocked(MIN_NUMBER, username);
  }
}
