/** The match engine of the first server (src/server/Game.java): a roster
    of up to `maxPlayers` users, a single current target number drawn from
    the numbers not found yet, claims against that target, a "priority"
    window that locks out the other players, lucky credits every tenth find
    and the settlement of wins, losses and scores when the match ends.

    The wall clock is the `now` parameter and `random.nextInt(k)` is
    `pick % k` for a `pick` the caller supplies. A client handler stands for
    its `User`: the roster maps player ids to users. Messages to the players,
    the timer thread and the database calls are not modelled. */
module MatchEngine {
  import opened JavaLang
  import opened CommonUser

  const DEFAULT_GRID_SIZE: int := 100
  const DEFAULT_GAME_DURATION_SECONDS: int := 120
  const DEFAULT_MAX_PLAYERS: int := 3
  const MIN_PLAYERS_TO_START: int := 2
  const PRIORITY_DURATION_MS: int := 3000
  const LUCKY_EVERY: int := 10
  const NO_WINNER: int := -1

  /** `new Color(red, green, blue).getRGB()`: opaque alpha in the top byte,
      read back as a signed 32-bit int. */
  function RgbColor(red: int, green: int, blue: int): (argb: int)
    requires 0 <= red < 256 && 0 <= green < 256 && 0 <= blue < 256
    ensures -0x100_0000 <= argb < 0
  {
    -0x100_0000 + red * 0x1_0000 + green * 0x100 + blue
  }

  /** The three channels read back out of the packed colour, as
      `new Color(rgb)` on the client does. */
  lemma RgbChannels(red: int, green: int, blue: int)
    requires 0 <= red < 256 && 0 <= green < 256 && 0 <= blue < 256
    ensures var rgb := RgbColor(red, green, blue) + 0x100_0000;
            rgb / 0x1_0000 == red && rgb / 0x100 % 0x100 == green && rgb % 0x100 == blue
  {
    var rgb := RgbColor(red, green, blue) + 0x100_0000;
    assert rgb == (red * 0x100 + green) * 0x100 + blue;
    assert rgb / 0x100 == red * 0x100 + green;
    assert rgb == red * 0x1_0000 + (green * 0x100 + blue);
  }

  /** RED, BLUE and GREEN. */
  const PLAYER_COLORS: seq<int> := [RgbColor(255, 0, 0), RgbColor(0, 0, 255), RgbColor(0, 255, 0)]

  // ---------------------------------------------------------------------
  // Numbers left to find
  // ---------------------------------------------------------------------

  /** The numbers 1..n that nobody has found, in ascending order (see
      UnfoundMembers and UnfoundAscending). */
  function Unfound(found: map<int, int>, n: int): seq<int>
    decreases n
  {
    if n <= 0 then [] else Unfound(found, n - 1) + (if n in found then [] else [n])
  }

  /** Unfound lists exactly the grid numbers nobody found. */
  lemma {:induction false} UnfoundMembers(found: map<int, int>, n: int)
    ensures forall x :: x in Unfound(found, n) <==> 1 <= x <= n && x !in found
    decreases n
  {
    if n > 0 {
      UnfoundMembers(found, n - 1);
    }
  }

  lemma {:induction false} UnfoundAscending(found: map<int, int>, n: int)
    ensures forall i, j :: 0 <= i < j < |Unfound(found, n)| ==> Unfound(found, n)[i] < Unfound(found, n)[j]
    decreases n
  {
    if n > 0 {
      UnfoundAscending(found, n - 1);
      UnfoundMembers(found, n - 1);
      var prefix := Unfound(found, n - 1);
      if n !in found {
        forall i, j | 0 <= i < j < |prefix| + 1 ensures (prefix + [n])[i] < (prefix + [n])[j] {
          if j == |prefix| {
            assert prefix[i] in prefix;
          } else {
            assert (prefix + [n])[i] == prefix[i] && (prefix + [n])[j] == prefix[j];
          }
        }
      }
    }
  }

  /** A set of grid numbers 1..n has at most n elements, and n exactly
      when it covers the grid. */
  lemma {:induction false} GridSubsetSize(keys: set<int>, n: int)
    requires forall k :: k in keys ==> 1 <= k <= n
    ensures |keys| <= if n < 0 then 0 else n
    ensures |keys| >= n <==> forall x :: 1 <= x <= n ==> x in keys
    decreases n
  {
    if n <= 0 {
      assert forall k :: k !in keys;
      assert keys == {};
    } else {
      var rest := keys - {n};
      GridSubsetSize(rest, n - 1);
      if n in keys {
        assert keys == rest + {n};
        assert |keys| == |rest| + 1;
      } else {
        assert keys == rest;
      }
    }
  }

  /** When every found number lies in 1..n, none is left exactly when at
      least n have been found: the two end-of-match tests agree. */
  lemma NoneLeftIffAllFound(found: map<int, int>, n: int)
    requires forall k :: k in found ==> 1 <= k <= n
    ensures Unfound(found, n) == [] <==> |found| >= n
  {
    GridSubsetSize(found.Keys, n);
    UnfoundMembers(found, n);
    assert |found| == |found.Keys|;
    var free := Unfound(found, n);
    if free != [] {
      assert free[0] in free;
      assert 1 <= free[0] <= n;
      assert free[0] !in found.Keys;
      assert !(forall x :: 1 <= x <= n ==> x in found.Keys);
    } else {
      forall x | 1 <= x <= n ensures x in found.Keys {
        assert x !in free;
      }
    }
  }

  // ---------------------------------------------------------------------
  // Settlement
  // ---------------------------------------------------------------------

  /** The numbers `id` found. */
  function FoundBy(found: map<int, int>, id: int): set<int>
  {
    set n | n in found && found[n] == id
  }

  /** The players who found at least one number. */
  function Finders(found: map<int, int>): set<int>
  {
    set n | n in found :: found[n]
  }

  /** endGame's `playerScores`: how many numbers each finder found. */
  function Tally(found: map<int, int>): map<int, int>
  {
    map id | id in Finders(found) :: |FoundBy(found, id)|
  }

  /** The table holds, for each player, the count of the numbers they
      found, and exactly the players with at least one; it is empty exactly
      when nothing was found. */
  lemma TallyLookup(found: map<int, int>)
    ensures forall id :: GetOrDefault(Tally(found), id, 0) == |FoundBy(found, id)|
    ensures forall id :: id in Tally(found) <==> |FoundBy(found, id)| >= 1
    ensures Tally(found).Keys == {} <==> found.Keys == {}
  {
    forall id ensures id in Tally(found) <==> |FoundBy(found, id)| >= 1 {
      if id in Finders(found) {
        var n :| n in found && found[n] == id;
        assert n in FoundBy(found, id);
      }
      if |FoundBy(found, id)| >= 1 {
        var n := Element(FoundBy(found, id));
        assert found[n] == id;
      }
    }
    if found.Keys != {} {
      var n := Element(found.Keys);
      assert found[n] in Tally(found).Keys;
    } else {
      assert Finders(found) == {};
    }
  }

  lemma FindersAdd(found: map<int, int>, n: int, id: int)
    requires n !in found
    ensures Finders(found[n := id]) == Finders(found) + {id}
  {
    var after := found[n := id];
    forall v ensures v in Finders(after) <==> v in Finders(found) + {id} {
      if v in Finders(found) {
        var k :| k in found && found[k] == v;
        assert after[k] == v;
      }
      if v in Finders(after) && v != id {
        var k :| k in after && after[k] == v;
        assert found[k] == v;
      }
      assert after[n] == id;
    }
  }

  lemma FoundByAdd(found: map<int, int>, n: int, id: int)
    requires n !in found
    ensures |FoundBy(found[n := id], id)| == GetOrDefault(Tally(found), id, 0) + 1
    ensures forall k :: k != id ==> FoundBy(found[n := id], k) == FoundBy(found, k)
  {
    assert FoundBy(found[n := id], id) == FoundBy(found, id) + {n};
    forall k | k in FoundBy(found, id) ensures id in Finders(found) {
      assert found[k] == id;
    }
  }

  /** Counting one more found number adds one to its finder's tally. */
  lemma TallyAdd(found: map<int, int>, n: int, id: int)
    requires n !in found
    ensures Tally(found[n := id]) == Tally(found)[id := GetOrDefault(Tally(found), id, 0) + 1]
  {
    FindersAdd(found, n, id);
    FoundByAdd(found, n, id);
  }

  function Restrict(found: map<int, int>, keys: set<int>): map<int, int>
  {
    map n | n in keys && n in found :: found[n]
  }

  /** What endGame does to one roster member's counters: a win for the
      winner, a loss for everybody else, and `points` added to the score. */
  function Settlement(c: Counters, won: bool, points: int): Counters
  {
    if won then c.(gamesWon := c.gamesWon + 1, totalScore := c.totalScore + points)
    else c.(gamesLost := c.gamesLost + 1, totalScore := c.totalScore + points)
  }

  /** The result of endGame's winner scan over `scores`: NO_WINNER when no
      count beats -1, otherwise an entry whose count no other entry beats. */
  predicate HighestEntry(scores: map<int, int>, winnerId: int)
  {
    (winnerId == NO_WINNER && forall id :: id in scores ==> scores[id] <= -1)
    || (winnerId in scores && scores[winnerId] > -1
        && forall id :: id in scores ==> scores[id] <= scores[winnerId])
  }

  /** The announced winner: nobody when nothing was found, otherwise a
      player who found at least one number and no fewer than anyone else. */
  ghost predicate FoundMost(found: map<int, int>, winnerId: int)
  {
    (found.Keys == {} ==> winnerId == NO_WINNER)
    && (found.Keys != {} ==>
          |FoundBy(found, winnerId)| >= 1
          && forall id :: |FoundBy(found, id)| <= |FoundBy(found, winnerId)|)
  }

  /** The scan over the tally announces a player who found the most. */
  lemma WinnerFoundMost(found: map<int, int>, winnerId: int)
    requires HighestEntry(Tally(found), winnerId)
    ensures FoundMost(found, winnerId)
  {
    TallyLookup(found);
    if found.Keys != {} {
      assert winnerId in Tally(found);
      forall id ensures |FoundBy(found, id)| <= |FoundBy(found, winnerId)| {
        assert GetOrDefault(Tally(found), id, 0) == |FoundBy(found, id)|;
      }
    }
  }

  /** A claim adds one to the claimer's score. */
  function Claimed(c: Counters, id: int, claimer: int): Counters
  {
    if id == claimer then c.(totalScore := c.totalScore + 1) else c
  }

  /** Another player's priority window is still open at `now`. */
  predicate OtherHasPriority(priority: map<int, int>, playerId: int, now: int)
  {
    exists id :: id in priority && priority[id] > now && id != playerId
  }

  // ---------------------------------------------------------------------
  // The match
  // ---------------------------------------------------------------------

  class Game {
    const gameId: int
    const gridSize: int
    const gameDurationSeconds: int
    const maxPlayers: int
    var isActive: bool
    var startTime: int
    var targetNumber: int
    /** number -> id of the player who found it */
    var foundNumbers: map<int, int>
    var players: map<int, User>
    /** player id -> end of their priority window */
    var priorityPowerupEndTime: map<int, int>
    /** player id -> lucky credits */
    var luckyNumberCounts: map<int, int>

    /** Every roster entry is keyed by its user's id, every found number is
        on the grid, and no credit count is negative. */
    ghost predicate Consistent()
      reads this, players.Values`id
    {
      (forall id :: id in players ==> players[id].id == id)
      && (forall n :: n in foundNumbers ==> 1 <= n <= gridSize)
      && (forall id :: id in luckyNumberCounts ==> luckyNumberCounts[id] >= 0)
    }

    /** Between operations, also: the target of a running match is a grid
        number nobody has found. */
    ghost predicate Valid()
      reads this, players.Values`id
    {
      Consistent() && (isActive ==> 1 <= targetNumber <= gridSize && targetNumber !in foundNumbers)
    }

    /** The roster's counters, all unchanged since the method began. */
    twostate predicate CountersUnchanged()
      requires old(players) == players
      reads this, players.Values
    {
      forall id :: id in players ==> players[id].Counts() == old(players[id].Counts())
    }

    /** The roster's counters, settled against `winnerId` from the counters
        `before` gives for each player. */
    twostate predicate SettledFrom(winnerId: int, claimer: Option<int>)
      requires old(players) == players
      reads this, players.Values
    {
      forall id :: id in players ==>
        players[id].Counts()
        == Settlement(if claimer.Some? then Claimed(old(players[id].Counts()), id, claimer.value)
                      else old(players[id].Counts()),
                      id == winnerId, |FoundBy(foundNumbers, id)|)
    }

    /** `Game(gameId, dbManager)`: a 100-number grid, two minutes, three
        players. */
    constructor (gameId: int)
      ensures Valid()
      ensures this.gameId == gameId && gridSize == DEFAULT_GRID_SIZE
      ensures gameDurationSeconds == DEFAULT_GAME_DURATION_SECONDS && maxPlayers == DEFAULT_MAX_PLAYERS
      ensures !isActive && startTime == 0 && targetNumber == -1
      ensures foundNumbers == map[] && players == map[]
      ensures priorityPowerupEndTime == map[] && luckyNumberCounts == map[]
    {
      this.gameId := gameId;
      gridSize := DEFAULT_GRID_SIZE;
      gameDurationSeconds := DEFAULT_GAME_DURATION_SECONDS;
      maxPlayers := DEFAULT_MAX_PLAYERS;
      isActive := false;
      startTime := 0;
      targetNumber := -1;
      foundNumbers := map[];
      players := map[];
      priorityPowerupEndTime := map[];
      luckyNumberCounts := map[];
    }

    constructor WithSettings(gameId: int, gridSize: int, gameDurationSeconds: int, maxPlayers: int)
      ensures Valid()
      ensures this.gameId == gameId && this.gridSize == gridSize
      ensures this.gameDurationSeconds == gameDurationSeconds && this.maxPlayers == maxPlayers
      ensures !isActive && startTime == 0 && targetNumber == -1
      ensures foundNumbers == map[] && players == map[]
      ensures priorityPowerupEndTime == map[] && luckyNumberCounts == map[]
    {
      this.gameId := gameId;
      this.gridSize := gridSize;
      this.gameDurationSeconds := gameDurationSeconds;
      this.maxPlayers := maxPlayers;
      isActive := false;
      startTime := 0;
      targetNumber := -1;
      foundNumbers := map[];
      players := map[];
      priorityPowerupEndTime := map[];
      luckyNumberCounts := map[];
    }

    /** `addPlayer`: refused when the roster is full or the match is
        running; otherwise the user joins under their id with no credits
        and gets the palette colour of their place, or the colour drawn
        from `red`, `green`, `blue` once the palette is used up. */
    method AddPlayer(user: User, red: int, green: int, blue: int) returns (added: bool)
      requires Valid()
      requires 0 <= red < 256 && 0 <= green < 256 && 0 <= blue < 256
      modifies this`players, this`luckyNumberCounts, user`playerColor
      ensures Valid()
      ensures added <==> |old(players)| < maxPlayers && !old(isActive)
      ensures !added ==> players == old(players) && luckyNumberCounts == old(luckyNumberCounts)
                         && user.playerColor == old(user.playerColor)
      ensures added ==> players == old(players)[user.id := user]
                        && luckyNumberCounts == old(luckyNumberCounts)[user.id := 0]
                        && user.playerColor == (if |players| - 1 < |PLAYER_COLORS| then PLAYER_COLORS[|players| - 1]
                                                else RgbColor(red, green, blue))
    {
      if |players| >= maxPlayers || isActive {
        return false;
      }
      var playerId := user.id;
      players := players[playerId := user];
      var colorIndex := |players| - 1;
      if colorIndex < |PLAYER_COLORS| {
        user.SetPlayerColor(PLAYER_COLORS[colorIndex]);
      } else {
        user.SetPlayerColor(RgbColor(red, green, blue));
      }
      luckyNumberCounts := luckyNumberCounts[playerId := 0];
      return true;
    }

    /** `removePlayer`: the player leaves; a running match whose roster is
        now empty ends, with nobody to settle. */
    method RemovePlayer(playerId: int)
      requires Valid()
      modifies this`players, this`isActive, players.Values`gamesWon, players.Values`gamesLost, players.Values`totalScore
      ensures Valid()
      ensures players == old(players) - {playerId}
      ensures isActive == (old(isActive) && players != map[])
      ensures forall id :: id in old(players) ==>
                old(players)[id].Counts() == old(players[id].Counts())
    {
      players := map id | id in players && id != playerId :: players[id];
      assert players == old(players) - {playerId};
      if players == map[] && isActive {
        var settled := EndGame();
      }
    }

    /** `startGame`: nothing with fewer than two players; otherwise the
        match runs from `now` with a target drawn from the unfound numbers,
        or ends at once when none is left. */
    method StartGame(now: int, pick: nat) returns (ghost settled: Option<int>)
      requires Valid()
      modifies this`isActive, this`startTime, this`targetNumber
      modifies players.Values`gamesWon, players.Values`gamesLost, players.Values`totalScore
      ensures Valid()
      ensures |players| < MIN_PLAYERS_TO_START ==>
                isActive == old(isActive) && startTime == old(startTime) && targetNumber == old(targetNumber)
                && settled == None && CountersUnchanged()
      ensures |players| >= MIN_PLAYERS_TO_START ==>
                startTime == now
                && (isActive <==> Unfound(foundNumbers, gridSize) != [])
                && (isActive ==> settled == None && CountersUnchanged()
                                 && targetNumber == Unfound(foundNumbers, gridSize)[pick % |Unfound(foundNumbers, gridSize)|])
                && (!isActive ==> settled.Some? && FoundMost(foundNumbers, settled.value)
                                  && SettledFrom(settled.value, None))
    {
      settled := None;
      if |players| < MIN_PLAYERS_TO_START {
        return;
      }
      isActive := true;
      startTime := now;
      settled := GenerateNextTarget(pick);
    }

    /** generateNextTarget's scan of the grid for numbers nobody found. */
    method AvailableNumbers() returns (availableNumbers: seq<int>)
      ensures availableNumbers == Unfound(foundNumbers, gridSize)
    {
      availableNumbers := [];
      var i := 1;
      while i <= gridSize
        invariant 1 <= i && (i <= gridSize + 1 || i == 1)
        invariant availableNumbers == Unfound(foundNumbers, i - 1)
      {
        if i !in foundNumbers {
          availableNumbers := availableNumbers + [i];
        }
        i := i + 1;
      }
      assert i - 1 == gridSize || gridSize <= 0;
    }

    /** `generateNextTarget`: lists the unfound numbers of the grid in
        ascending order and draws the target among them; with none left the
        match ends. */
    method GenerateNextTarget(pick: nat) returns (ghost settled: Option<int>)
      requires Consistent() && isActive
      modifies this`targetNumber, this`isActive
      modifies players.Values`gamesWon, players.Values`gamesLost, players.Values`totalScore
      ensures Valid()
      ensures Unfound(foundNumbers, gridSize) != [] ==>
                isActive && settled == None && CountersUnchanged()
                && targetNumber == Unfound(foundNumbers, gridSize)[pick % |Unfound(foundNumbers, gridSize)|]
      ensures Unfound(foundNumbers, gridSize) == [] ==>
                !isActive && settled.Some? && FoundMost(foundNumbers, settled.value)
                && SettledFrom(settled.value, None)
    {
      var availableNumbers := AvailableNumbers();
      if |availableNumbers| > 0 {
        UnfoundMembers(foundNumbers, gridSize);
        targetNumber := availableNumbers[pick % |availableNumbers|];
        assert targetNumber in availableNumbers;
        settled := None;
      } else {
        settled := EndGame();
      }
    }

    /** The priority scan of `processNumberFound`: does another player hold
        an open priority window? */
    method PriorityHeldByOther(playerId: int, now: int) returns (held: bool)
      ensures held <==> OtherHasPriority(priorityPowerupEndTime, playerId, now)
    {
      var pending := priorityPowerupEndTime.Keys;
      while pending != {}
        invariant pending <= priorityPowerupEndTime.Keys
        invariant forall id :: id in priorityPowerupEndTime && id !in pending ==>
                    !(priorityPowerupEndTime[id] > now && id != playerId)
        decreases pending
      {
        ghost var next := Element(pending);
        var holder :| holder in pending;
        if priorityPowerupEndTime[holder] > now && holder != playerId {
          return true;
        }
        pending := pending - {holder};
      }
      return false;
    }

    /** `processNumberFound`. A claim of anything but the current target of a
        running match, or one made while another player's priority window is
        open, is refused and changes nothing; any other claim is accepted
        (see AcceptClaim). */
    method ProcessNumberFound(playerId: int, number: int, now: int, pick: nat)
      returns (r: Result<bool>, ghost settled: Option<int>)
      requires Valid()
      modifies this`foundNumbers, this`luckyNumberCounts, this`targetNumber, this`isActive
      modifies players.Values`gamesWon, players.Values`gamesLost, players.Values`totalScore
      ensures Consistent()
      ensures r == Ok(false) <==>
                !old(isActive) || number != old(targetNumber)
                || OtherHasPriority(priorityPowerupEndTime, playerId, now)
      ensures r == Ok(false) ==>
                Valid() && settled == None && foundNumbers == old(foundNumbers)
                && luckyNumberCounts == old(luckyNumberCounts)
                && targetNumber == old(targetNumber) && isActive == old(isActive) && CountersUnchanged()
      ensures r != Ok(false) ==> number !in old(foundNumbers) && foundNumbers == old(foundNumbers)[number := playerId]
      ensures r.Throws? ==>
                r.exception == NullPointerException && playerId !in players
                && isActive && targetNumber == number && luckyNumberCounts == old(luckyNumberCounts)
                && settled == None && CountersUnchanged()
      ensures r == Ok(true) ==> Valid() && Scored(old(luckyNumberCounts), playerId, pick, settled)
    {
      if !isActive || number != targetNumber {
        return Ok(false), None;
      }
      var held := PriorityHeldByOther(playerId, now);
      if held {
        return Ok(false), None;
      }
      r, settled := AcceptClaim(playerId, number, pick);
    }

    /** What a scored claim by `playerId` leaves behind: the claimer's score
        has grown by one, every tenth find has earned the claimer a lucky
        credit, and a new target is drawn, or, with no number left, the
        match has ended and everybody is settled. */
    twostate predicate Scored(lucky0: map<int, int>, playerId: int, pick: nat, new settled: Option<int>)
      requires old(players) == players
      reads this, players.Values
    {
      luckyNumberCounts == (if |foundNumbers| % LUCKY_EVERY == 0
                            then lucky0[playerId := GetOrDefault(lucky0, playerId, 0) + 1]
                            else lucky0)
      && (isActive <==> Unfound(foundNumbers, gridSize) != [])
      && (isActive ==>
            settled == None
            && targetNumber == Unfound(foundNumbers, gridSize)[pick % |Unfound(foundNumbers, gridSize)|]
            && forall id :: id in players ==> players[id].Counts() == Claimed(old(players[id].Counts()), id, playerId))
      && (!isActive ==>
            settled.Some? && FoundMost(foundNumbers, settled.value)
            && SettledFrom(settled.value, Some(playerId)))
    }

    /** The accepted path of `processNumberFound`: the number is recorded as
        found by the claimer (it was not found before); a claimer missing
        from the roster makes the score update throw, with nothing else
        changed; otherwise the claim is scored. */
    method AcceptClaim(playerId: int, number: int, pick: nat) returns (r: Result<bool>, ghost settled: Option<int>)
      requires Valid() && isActive && number == targetNumber
      modifies this`foundNumbers, this`luckyNumberCounts, this`targetNumber, this`isActive
      modifies players.Values`gamesWon, players.Values`gamesLost, players.Values`totalScore
      ensures Consistent()
      ensures number !in old(foundNumbers) && foundNumbers == old(foundNumbers)[number := playerId]
      ensures r.Throws? ==>
                r.exception == NullPointerException && playerId !in players
                && isActive && targetNumber == number && luckyNumberCounts == old(luckyNumberCounts)
                && settled == None && CountersUnchanged()
      ensures r.Ok? ==> r.value && Valid() && Scored(old(luckyNumberCounts), playerId, pick, settled)
    {
      foundNumbers := foundNumbers[number := playerId];
      if playerId !in players {
        return Throws(NullPointerException), None;
      }
      settled := ScoreClaim(playerId, pick);
      return Ok(true), settled;
    }

    /** The scoring half of `processNumberFound`. */
    method ScoreClaim(playerId: int, pick: nat) returns (ghost settled: Option<int>)
      requires Consistent() && isActive && playerId in players
      modifies this`luckyNumberCounts, this`targetNumber, this`isActive
      modifies players.Values`gamesWon, players.Values`gamesLost, players.Values`totalScore
      ensures Valid()
      ensures Scored(old(luckyNumberCounts), playerId, pick, settled)
    {
      Claim(playerId);
      settled := DrawAfterClaim(pick);
    }

    /** The end of `processNumberFound`: the next target, then the
        all-found test, which finds the match already ended whenever it
        holds. */
    method DrawAfterClaim(pick: nat) returns (ghost settled: Option<int>)
      requires Consistent() && isActive
      modifies this`targetNumber, this`isActive
      modifies players.Values`gamesWon, players.Values`gamesLost, players.Values`totalScore
      ensures Valid()
      ensures Unfound(foundNumbers, gridSize) != [] ==>
                isActive && settled == None && CountersUnchanged()
                && targetNumber == Unfound(foundNumbers, gridSize)[pick % |Unfound(foundNumbers, gridSize)|]
      ensures Unfound(foundNumbers, gridSize) == [] ==>
                !isActive && settled.Some? && FoundMost(foundNumbers, settled.value)
                && SettledFrom(settled.value, None)
    {
      settled := GenerateNextTarget(pick);
      NoneLeftIffAllFound(foundNumbers, gridSize);
      if |foundNumbers| >= gridSize {
        var again := EndGame();
      }
    }

    /** The credit for a claim in `processNumberFound`: one point to the
        claimer and, on every tenth number found, one lucky credit. */
    method Claim(playerId: int)
      requires Consistent() && playerId in players
      modifies this`luckyNumberCounts, players.Values`totalScore
      ensures Consistent()
      ensures forall id :: id in players ==> players[id].Counts() == Claimed(old(players[id].Counts()), id, playerId)
      ensures luckyNumberCounts == (if |foundNumbers| % LUCKY_EVERY == 0
                                    then old(luckyNumberCounts)[playerId := GetOrDefault(old(luckyNumberCounts), playerId, 0) + 1]
                                    else old(luckyNumberCounts))
    {
      var user := players[playerId];
      user.AddScore(1);
      if |foundNumbers| % LUCKY_EVERY == 0 {
        luckyNumberCounts := luckyNumberCounts[playerId := GetOrDefault(luckyNumberCounts, playerId, 0) + 1];
      }
    }

    /** `usePowerup`: only in a running match, and only with a lucky credit,
        which it spends. "PRIORITY" also opens the player's priority window
        until now + 3000 ms; "BLOCK_NUMBERS" only spends; any other type does
        nothing. A null type fails the `switch`. */
    method UsePowerup(playerId: int, powerupType: Option<string>, now: int) returns (r: Result<()>)
      requires Valid()
      modifies this`luckyNumberCounts, this`priorityPowerupEndTime
      ensures Valid()
      ensures r.Throws? <==> isActive && powerupType == None
      ensures r.Throws? ==> r.exception == NullPointerException
      ensures var spends := isActive && powerupType.Some?
                            && (powerupType.value == "PRIORITY" || powerupType.value == "BLOCK_NUMBERS")
                            && GetOrDefault(old(luckyNumberCounts), playerId, 0) > 0;
              (spends ==> luckyNumberCounts == old(luckyNumberCounts)[playerId := old(luckyNumberCounts)[playerId] - 1])
              && (!spends ==> luckyNumberCounts == old(luckyNumberCounts))
              && (spends && powerupType.value == "PRIORITY" ==>
                    priorityPowerupEndTime == old(priorityPowerupEndTime)[playerId := now + PRIORITY_DURATION_MS])
              && (!(spends && powerupType.value == "PRIORITY") ==> priorityPowerupEndTime == old(priorityPowerupEndTime))
    {
      if !isActive {
        return Ok(());
      }
      if powerupType.None? {
        return Throws(NullPointerException);
      }
      var kind := powerupType.value;
      if kind == "PRIORITY" {
        if GetOrDefault(luckyNumberCounts, playerId, 0) > 0 {
          luckyNumberCounts := luckyNumberCounts[playerId := luckyNumberCounts[playerId] - 1];
          priorityPowerupEndTime := priorityPowerupEndTime[playerId := now + PRIORITY_DURATION_MS];
        }
      } else if kind == "BLOCK_NUMBERS" {
        if GetOrDefault(luckyNumberCounts, playerId, 0) > 0 {
          luckyNumberCounts := luckyNumberCounts[playerId := luckyNumberCounts[playerId] - 1];
        }
      }
      return Ok(());
    }

    /** endGame's count of finds per player. */
    method CountFinds() returns (playerScores: map<int, int>)
      ensures playerScores == Tally(foundNumbers)
    {
      playerScores := map[];
      var pending := foundNumbers.Keys;
      ghost var done: set<int> := {};
      while pending != {}
        invariant done + pending == foundNumbers.Keys && done !! pending
        invariant playerScores == Tally(Restrict(foundNumbers, done))
        decreases pending
      {
        ghost var next := Element(pending);
        var n :| n in pending;
        var id := foundNumbers[n];
        TallyAdd(Restrict(foundNumbers, done), n, id);
        assert Restrict(foundNumbers, done + {n}) == Restrict(foundNumbers, done)[n := id];
        playerScores := playerScores[id := GetOrDefault(playerScores, id, 0) + 1];
        pending := pending - {n};
        done := done + {n};
      }
      assert Restrict(foundNumbers, done) == foundNumbers;
    }

    /** endGame's winner scan: an entry with the highest count, the first
        such in the table's order; NO_WINNER when no count beats -1. */
    static method PickWinner(playerScores: map<int, int>) returns (winnerId: int)
      ensures HighestEntry(playerScores, winnerId)
    {
      winnerId := NO_WINNER;
      var highestScore := -1;
      var pending := playerScores.Keys;
      while pending != {}
        invariant pending <= playerScores.Keys
        invariant (winnerId == NO_WINNER && highestScore == -1)
                  || (winnerId in playerScores && highestScore == playerScores[winnerId] > -1)
        invariant forall id :: id in playerScores && id !in pending ==> playerScores[id] <= highestScore
        decreases pending
      {
        ghost var next := Element(pending);
        var id :| id in pending;
        if playerScores[id] > highestScore {
          highestScore := playerScores[id];
          winnerId := id;
        }
        pending := pending - {id};
      }
    }

    /** endGame's loop over the roster. */
    method SettlePlayers(winnerId: int, playerScores: map<int, int>)
      requires Consistent()
      modifies players.Values`gamesWon, players.Values`gamesLost, players.Values`totalScore
      ensures forall id :: id in players ==>
                players[id].Counts() == Settlement(old(players[id].Counts()), id == winnerId, GetOrDefault(playerScores, id, 0))
    {
      var roster := players;
      var pending := roster.Keys;
      ghost var done: set<int> := {};
      while pending != {}
        invariant done + pending == roster.Keys && done !! pending
        invariant forall id :: id in done ==>
                    roster[id].Counts() == Settlement(old(roster[id].Counts()), id == winnerId, GetOrDefault(playerScores, id, 0))
        invariant forall id :: id in pending ==> roster[id].Counts() == old(roster[id].Counts())
        decreases pending
      {
        ghost var next := Element(pending);
        var playerId :| playerId in pending;
        SettleOne(roster[playerId], playerId == winnerId, GetOrDefault(playerScores, playerId, 0));
        pending := pending - {playerId};
        done := done + {playerId};
      }
    }

    /** One step of the settlement loop: a win or a loss, and the points. */
    static method SettleOne(user: User, won: bool, points: int)
      modifies user`gamesWon, user`gamesLost, user`totalScore
      ensures user.Counts() == Settlement(old(user.Counts()), won, points)
    {
      if won {
        user.IncrementGamesWon();
      } else {
        user.IncrementGamesLost();
      }
      user.AddScore(points);
    }

    /** The settlement half of `endGame`: a player with the most finds
        wins (NO_WINNER when nothing was found) and every roster member is
        settled with the count of the numbers they found. */
    method Settle() returns (winnerId: int)
      requires Consistent()
      modifies players.Values`gamesWon, players.Values`gamesLost, players.Values`totalScore
      ensures FoundMost(foundNumbers, winnerId) && SettledFrom(winnerId, None)
    {
      var playerScores := CountFinds();
      winnerId := PickWinner(playerScores);
      WinnerFoundMost(foundNumbers, winnerId);
      TallyLookup(foundNumbers);
      SettlePlayers(winnerId, playerScores);
      forall id | id in players
        ensures players[id].Counts() == Settlement(old(players[id].Counts()), id == winnerId, |FoundBy(foundNumbers, id)|)
      {
        assert GetOrDefault(playerScores, id, 0) == |FoundBy(foundNumbers, id)|;
      }
    }

    /** `endGame`: nothing unless the match is running; otherwise it stops,
        a player with the most finds wins (NO_WINNER when nothing was
        found), and every roster member is settled. Returns the winner it
        announced. */
    method EndGame() returns (settled: Option<int>)
      requires Consistent()
      modifies this`isActive, players.Values`gamesWon, players.Values`gamesLost, players.Values`totalScore
      ensures Valid() && !isActive
      ensures settled.None? <==> !old(isActive)
      ensures settled.None? ==> CountersUnchanged()
      ensures settled.Some? ==> FoundMost(foundNumbers, settled.value) && SettledFrom(settled.value, None)
    {
      if !isActive {
        return None;
      }
      isActive := false;
      var winnerId := Settle();
      return Some(winnerId);
    }
  }
}
