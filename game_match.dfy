/** One match of the second server (doanltudm/server/GameMatch.java): the
    roster, a power-up cooldown per player shared by all power-up types, the
    block effect applied to everyone but the activator, and the end-of-match
    achievement notices.

    Messages to clients are not modelled, but one broadcast changes the
    outcome. `broadcastGameState` evaluates `gameState.getBlockedNumbers(null)`,
    and the ConcurrentHashMap lookup with a null key throws
    NullPointerException. Every operation that reaches that broadcast
    therefore ends in that exception, after its state changes, and nothing
    after the broadcast runs (notably the scheduling of the match timer). */
module Match {
  import opened JavaLang
  import opened GameFeatures
  import opened SharedGameState

  /** The points `processNumber` passes to `updateScore` for an accepted
      number. */
  function PointsFor(number: int): (p: int)
    ensures p == BASE_POINTS || p == BASE_POINTS + LUCKY_NUMBER_BONUS
    ensures p == BASE_POINTS + LUCKY_NUMBER_BONUS <==> IsLuckyNumber(number)
  {
    if IsLuckyNumber(number) then BASE_POINTS + LUCKY_NUMBER_BONUS else BASE_POINTS
  }

  /** The numbers `handleBlockNumbers` blocks: five entries of the match's
      numbers at the slots `random.nextInt(length)` picks. */
  function BlockSet(numbers: seq<int>, draw: nat -> nat): (s: set<int>)
    requires |numbers| > 0
    ensures forall i :: 0 <= i < 5 ==> numbers[draw(i) % |numbers|] in s
    ensures forall n :: n in s ==> exists i :: 0 <= i < 5 && n == numbers[draw(i) % |numbers|]
    ensures forall n :: n in s ==> n in numbers
  {
    set i | 0 <= i < 5 :: numbers[draw(i) % |numbers|]
  }

  /** The blocked sets after `numbers` is added to every roster member other
      than the activator. */
  function BlockOthers(blocked: map<string, set<int>>, roster: set<string>, activator: string, numbers: set<int>)
    : (r: map<string, set<int>>)
    ensures r.Keys == blocked.Keys
    ensures activator in blocked ==> r[activator] == blocked[activator]
    ensures forall u :: u in blocked && u !in roster ==> r[u] == blocked[u]
    ensures forall u :: u in blocked && u in roster && u != activator ==> r[u] == blocked[u] + numbers
  {
    map u | u in blocked :: if u in roster && u != activator then blocked[u] + numbers else blocked[u]
  }

  /** The blocked sets after every roster member's set is emptied. */
  function UnblockAll(blocked: map<string, set<int>>, roster: set<string>): (r: map<string, set<int>>)
    ensures r.Keys == blocked.Keys
    ensures forall u :: u in blocked && u !in roster ==> r[u] == blocked[u]
    ensures forall u :: u in r && u in roster ==> r[u] == {}
  {
    map u | u in blocked :: if u in roster then {} else blocked[u]
  }

  /** The reversal of a block does not restore what players had blocked
      before: it empties every roster member's set, the activator's too. */
  lemma ReversalEmptiesEveryone(blocked: map<string, set<int>>, roster: set<string>, activator: string, numbers: set<int>)
    ensures UnblockAll(BlockOthers(blocked, roster, activator, numbers), roster) == UnblockAll(blocked, roster)
  {
    var lhs := UnblockAll(BlockOthers(blocked, roster, activator, numbers), roster);
    assert forall u :: u in lhs ==> lhs[u] == UnblockAll(blocked, roster)[u];
  }

  /** `checkAchievements`: the notices sent to the winner, in order. A missing
      winner (no scores) or a winner without a consecutive count unboxes a
      null Integer and throws; a winner no longer on the roster has no
      handler and gets no notice. */
  function CheckAchievements(finalScores: map<string, int>, winner: Option<string>,
                             consecutive: map<string, int>, roster: set<string>, gameDuration: int)
    : (r: Result<seq<string>>)
    ensures r.Ok? <==> winner.Some? && winner.value in finalScores && winner.value in consecutive
    ensures r.Ok? && winner.value !in roster ==> r.value == []
    ensures r.Ok? && winner.value in roster ==>
              ("PERFECT_GAME" in r.value <==> finalScores[winner.value] >= PERFECT_GAME_THRESHOLD)
              && ("SPEED_DEMON" in r.value <==> gameDuration <= SPEED_DEMON_TIME)
              && ("LUCKY_MASTER" in r.value <==> consecutive[winner.value] >= LUCKY_MASTER_THRESHOLD)
    ensures r.Ok? ==> |r.value| <= 3
  {
    if winner.None? || winner.value !in finalScores then Throws(NullPointerException)
    else
      var w := winner.value;
      var perfect := if finalScores[w] >= PERFECT_GAME_THRESHOLD then ["PERFECT_GAME"] else [];
      var speed := if gameDuration <= SPEED_DEMON_TIME then ["SPEED_DEMON"] else [];
      if w !in consecutive then Throws(NullPointerException)
      else
        var lucky := if consecutive[w] >= LUCKY_MASTER_THRESHOLD then ["LUCKY_MASTER"] else [];
        Ok(if w in roster then perfect + speed + lucky else [])
  }

  class GameMatch {
    const gameState: GameState
    /** The usernames of `players` (their connection handlers are not
        modelled). */
    var players: set<string>
    var powerUpCooldowns: map<string, int>
    /** Whether `gameTimer` has been set. */
    var timerScheduled: bool
    const startTime: int

    ghost predicate Valid()
      reads this, gameState
    {
      gameState.Valid()
    }

    constructor(now: int)
      ensures Valid() && fresh(gameState)
      ensures players == {} && powerUpCooldowns == map[] && !timerScheduled && startTime == now
      ensures gameState.scores == map[] && gameState.blockedNumbers == map[]
      ensures gameState.gameNumbers == null && !gameState.gameComplete
    {
      gameState := new GameState();
      players := {};
      powerUpCooldowns := map[];
      timerScheduled := false;
      startTime := now;
    }

    /** The match state `initializeGame(playerCount)` leaves behind. */
    ghost predicate FreshlyInitialized(playerCount: nat, draw: nat -> nat, refills: seq<Refill>)
      reads this, gameState, gameState.gameNumbers
    {
      gameState.gameNumbers != null
      && gameState.gameNumbers[..] == GeneratedNumbers(playerCount, draw, refills)
      && !gameState.gameComplete
      && gameState.scores == map[] && gameState.blockedNumbers == map[]
      && gameState.consecutiveMatches == map[] && gameState.lastMoveTime == map[]
    }

    /** `startGameIfReady`: initialises the match state when the match is not
        complete and no timer is set, then broadcasts the state, which
        throws before the timer is scheduled. */
    method StartGameIfReady(draw: nat -> nat, refills: seq<Refill>) returns (r: Result<()>)
      requires Valid()
      modifies gameState
      ensures Valid()
      ensures old(!gameState.gameComplete && !timerScheduled) ==>
                r == Throws(NullPointerException) && fresh(gameState.gameNumbers)
                && FreshlyInitialized(|players|, draw, refills)
      ensures old(gameState.gameComplete || timerScheduled) ==> r == Ok(()) && unchanged(gameState)
    {
      if !gameState.gameComplete && !timerScheduled {
        gameState.InitializeGame(|players|, draw, refills);
        // broadcastGameState(): getBlockedNumbers(null) throws
        return Throws(NullPointerException);
      }
      return Ok(());
    }

    /** `addPlayer`: refuses a fifth player; otherwise registers the player
        with a zero cooldown stamp and, from the second player on, tries to
        start the match. */
    method AddPlayer(username: string, now: int, draw: nat -> nat, refills: seq<Refill>) returns (r: Result<()>)
      requires Valid()
      modifies this, gameState
      ensures Valid()
      ensures timerScheduled == old(timerScheduled)
      ensures |old(players)| >= MAX_PLAYERS ==>
                r == Throws(IllegalStateException) && players == old(players)
                && powerUpCooldowns == old(powerUpCooldowns) && unchanged(gameState)
      ensures |old(players)| < MAX_PLAYERS ==>
                players == old(players) + {username} && powerUpCooldowns == old(powerUpCooldowns)[username := 0]
      ensures |old(players)| < MAX_PLAYERS && (|players| < MIN_PLAYERS || old(gameState.gameComplete || timerScheduled)) ==>
                r == Ok(()) && gameState.gameNumbers == old(gameState.gameNumbers)
                && gameState.scores == old(gameState.scores)[username := 0]
                && gameState.blockedNumbers == old(gameState.blockedNumbers)[username := {}]
      ensures |old(players)| < MAX_PLAYERS && |players| >= MIN_PLAYERS && old(!gameState.gameComplete && !timerScheduled) ==>
                r == Throws(NullPointerException) && fresh(gameState.gameNumbers)
                && FreshlyInitialized(|players|, draw, refills)
    {
      if |players| >= MAX_PLAYERS {
        return Throws(IllegalStateException);
      }
      players := players + {username};
      gameState.AddPlayer(username, now);
      powerUpCooldowns := powerUpCooldowns[username := 0];
      if |players| >= MIN_PLAYERS {
        r := StartGameIfReady(draw, refills);
      } else {
        r := Ok(());
      }
    }

    /** `processNumber` turns the number down unless the match is running,
        the number is one of the match's numbers and it is not blocked for the
        player. */
    ghost predicate Rejects(username: string, number: int)
      reads this, gameState, gameState.gameNumbers
    {
      gameState.gameComplete
      || !(MIN_NUMBER <= number <= MAX_NUMBER)
      || (gameState.gameNumbers != null && number !in gameState.gameNumbers[..])
      || (gameState.gameNumbers != null && username in gameState.blockedNumbers
          && number in gameState.blockedNumbers[username])
    }

    /** `processNumber` scores the number. */
    ghost predicate Accepts(username: string, number: int)
      reads this, gameState, gameState.gameNumbers
    {
      !gameState.gameComplete && MIN_NUMBER <= number <= MAX_NUMBER
      && gameState.gameNumbers != null && number in gameState.gameNumbers[..]
      && username in gameState.blockedNumbers && number !in gameState.blockedNumbers[username]
    }

    /** `processNumber`: a rejected number is false with nothing changed; a
        lookup of a missing table entry throws; an accepted number is scored
        with PointsFor(number), after which the broadcast throws. */
    method ProcessNumber(username: string, number: int, now: int) returns (r: Result<bool>)
      requires Valid()
      modifies gameState
      ensures Valid()
      ensures r == Ok(false) <==> old(Rejects(username, number))
      ensures r != Ok(true)
      ensures !old(Accepts(username, number)) ==> unchanged(gameState)
      ensures old(Accepts(username, number)) ==>
                r == Throws(NullPointerException)
                && gameState.scores == old(gameState.ScoresAfterMove(username, PointsFor(number), now))
                && gameState.consecutiveMatches == old(gameState.consecutiveMatches)[username := old(gameState.Consecutive(username)) + 1]
                && gameState.blockedNumbers == old(gameState.blockedNumbers)
    {
      if gameState.gameComplete {
        return Ok(false);
      }
      var valid := gameState.IsValidNumber(number);
      if valid.Throws? {
        return Throws(valid.exception);
      }
      if !valid.value {
        return Ok(false);
      }
      var blocked := gameState.IsNumberBlocked(number, username);
      if blocked.Throws? {
        return Throws(blocked.exception);
      }
      if blocked.value {
        return Ok(false);
      }
      var points := BASE_POINTS;
      if IsLuckyNumber(number) {
        points := points + LUCKY_NUMBER_BONUS;
      }
      var _ := gameState.UpdateScore(username, points, now);
      // broadcastGameState(): getBlockedNumbers(null) throws
      return Throws(NullPointerException);
    }

    function LastUse(username: string): int
      reads this
    {
      if username in powerUpCooldowns then powerUpCooldowns[username] else 0
    }

    /** `handleBlockNumbers` gets through: the match has numbers and every
        other roster member has a blocked set. */
    ghost predicate CanBlock(activator: string)
      reads this, gameState, gameState.gameNumbers
    {
      gameState.gameNumbers != null && gameState.gameNumbers.Length > 0
      && players - {activator} <= gameState.blockedNumbers.Keys
    }

    /** `handleBlockNumbers`: picks five of the match's numbers and adds them
        to every other roster member's blocked set, in the roster's order; a
        member without a set throws and stops the loop. */
    method HandleBlockNumbers(username: string, draw: nat -> nat) returns (r: Result<()>)
      requires Valid()
      modifies gameState`blockedNumbers
      ensures Valid()
      ensures gameState.blockedNumbers.Keys == old(gameState.blockedNumbers.Keys)
      ensures old(gameState.gameNumbers) == null ==> r == Throws(NullPointerException) && unchanged(gameState)
      ensures old(gameState.gameNumbers) != null && old(gameState.gameNumbers.Length) == 0 ==>
                r == Throws(IllegalArgumentException) && unchanged(gameState)
      ensures old(CanBlock(username)) ==>
                r == Ok(()) && gameState.blockedNumbers ==
                  BlockOthers(old(gameState.blockedNumbers), players, username, BlockSet(old(gameState.gameNumbers[..]), draw))
      ensures old(gameState.gameNumbers) != null && old(gameState.gameNumbers.Length) > 0 && !old(CanBlock(username)) ==>
                r == Throws(NullPointerException)
                && forall u :: u in gameState.blockedNumbers ==>
                     gameState.blockedNumbers[u] == old(gameState.blockedNumbers)[u]
                     || gameState.blockedNumbers[u] ==
                          BlockOthers(old(gameState.blockedNumbers), players, username, BlockSet(old(gameState.gameNumbers[..]), draw))[u]
    {
      if gameState.gameNumbers == null {
        return Throws(NullPointerException);
      }
      var gameNumbers := gameState.gameNumbers;
      if gameNumbers.Length == 0 {
        return Throws(IllegalArgumentException);
      }
      var numbersToBlock := PickBlockSet(gameNumbers, draw);
      ghost var before := gameState.blockedNumbers;
      var others := players - {username};
      ghost var blocked := BlockOthers(before, players, username, numbersToBlock);
      r := BlockEach(others, numbersToBlock);
      if r.Throws? {
        assert !(others <= before.Keys);
        forall u | u in gameState.blockedNumbers
          ensures gameState.blockedNumbers[u] == before[u] || gameState.blockedNumbers[u] == blocked[u]
        {
        }
        return r;
      }
      assert others <= before.Keys;
      assert gameState.blockedNumbers == blocked;
      return Ok(());
    }

    /** The pick loop of `handleBlockNumbers`: five draws over the slots. */
    static method PickBlockSet(gameNumbers: array<int>, draw: nat -> nat) returns (numbersToBlock: set<int>)
      requires gameNumbers.Length > 0
      ensures numbersToBlock == BlockSet(gameNumbers[..], draw)
    {
      numbersToBlock := {};
      for i := 0 to 5
        invariant numbersToBlock == set j | 0 <= j < i :: gameNumbers[draw(j) % gameNumbers.Length]
      {
        numbersToBlock := numbersToBlock + {gameNumbers[draw(i) % gameNumbers.Length]};
      }
    }

    /** The blocking loop of `handleBlockNumbers` over `others`, in the
        set's order: each member's set grows by `numbers`; a member without
        a set throws and stops the loop. */
    method BlockEach(others: set<string>, numbers: set<int>) returns (r: Result<()>)
      requires Valid()
      modifies gameState`blockedNumbers
      ensures Valid()
      ensures gameState.blockedNumbers.Keys == old(gameState.blockedNumbers.Keys)
      ensures others <= old(gameState.blockedNumbers.Keys) ==>
                r == Ok(())
                && forall u :: u in gameState.blockedNumbers ==>
                     gameState.blockedNumbers[u] == if u in others then old(gameState.blockedNumbers)[u] + numbers
                                                    else old(gameState.blockedNumbers)[u]
      ensures !(others <= old(gameState.blockedNumbers.Keys)) ==>
                r == Throws(NullPointerException)
                && forall u :: u in gameState.blockedNumbers ==>
                     gameState.blockedNumbers[u] == old(gameState.blockedNumbers)[u]
                     || (u in others && gameState.blockedNumbers[u] == old(gameState.blockedNumbers)[u] + numbers)
    {
      ghost var before := gameState.blockedNumbers;
      var pending := others;
      while pending != {}
        invariant pending <= others
        invariant others - pending <= before.Keys
        invariant gameState.Valid()
        invariant gameState.blockedNumbers.Keys == before.Keys
        invariant forall u :: u in before ==>
                    gameState.blockedNumbers[u] == if u in others - pending then before[u] + numbers else before[u]
        decreases pending
      {
        ghost var next := Element(pending);
        var player :| player in pending;
        var res := gameState.BlockNumbers(player, numbers);
        if res.Throws? {
          return res;
        }
        pending := pending - {player};
      }
      return Ok(());
    }

    /** `activatePowerUp`: ignored within POWER_UP_COOLDOWN of the player's
        last use of any power-up; otherwise the use is stamped (whatever the
        type), "BLOCK" blocks numbers for the others, "PRIORITY" only sends
        messages, and the final broadcast throws. */
    method ActivatePowerUp(username: string, powerUpType: string, now: int, draw: nat -> nat) returns (r: Result<()>)
      requires Valid()
      modifies this, gameState`blockedNumbers
      ensures Valid()
      ensures players == old(players) && timerScheduled == old(timerScheduled)
      ensures now - old(LastUse(username)) < POWER_UP_COOLDOWN ==>
                r == Ok(()) && powerUpCooldowns == old(powerUpCooldowns) && unchanged(gameState)
      ensures now - old(LastUse(username)) >= POWER_UP_COOLDOWN ==>
                r.Throws? && powerUpCooldowns == old(powerUpCooldowns)[username := now]
      ensures now - old(LastUse(username)) >= POWER_UP_COOLDOWN && powerUpType != "BLOCK" ==>
                r == Throws(NullPointerException) && unchanged(gameState)
      ensures now - old(LastUse(username)) >= POWER_UP_COOLDOWN && powerUpType == "BLOCK" && old(CanBlock(username)) ==>
                r == Throws(NullPointerException)
                && gameState.blockedNumbers ==
                     BlockOthers(old(gameState.blockedNumbers), players, username, BlockSet(old(gameState.gameNumbers[..]), draw))
    {
      var currentTime := now;
      var lastUsed := LastUse(username);
      if currentTime - lastUsed < POWER_UP_COOLDOWN {
        return Ok(());
      }
      powerUpCooldowns := powerUpCooldowns[username := currentTime];
      if powerUpType == "BLOCK" {
        r := HandleBlockNumbers(username, draw);
        if r.Throws? {
          return r;
        }
      }
      // "PRIORITY" only schedules and sends messages.
      // broadcastGameState(): getBlockedNumbers(null) throws
      return Throws(NullPointerException);
    }

    /** The callback scheduled by `handleBlockNumbers`: empties every roster
        member's blocked set (a member without one throws), then broadcasts,
        which throws. */
    method ExpireBlock() returns (r: Result<()>)
      requires Valid()
      modifies gameState`blockedNumbers
      ensures Valid()
      ensures r == Throws(NullPointerException)
      ensures gameState.blockedNumbers.Keys == old(gameState.blockedNumbers.Keys)
      ensures players <= old(gameState.blockedNumbers.Keys) ==>
                gameState.blockedNumbers == UnblockAll(old(gameState.blockedNumbers), players)
    {
      ghost var before := gameState.blockedNumbers;
      var pending := players;
      while pending != {}
        invariant pending <= players
        invariant players - pending <= before.Keys
        invariant gameState.Valid()
        invariant gameState.blockedNumbers == UnblockAll(before, players - pending)
        decreases pending
      {
        var player :| player in pending;
        var done := players - pending;
        var res := gameState.UnblockNumbers(player);
        if res.Throws? {
          return res;
        }
        pending := pending - {player};
        assert players - pending == done + {player};
      }
      // broadcastGameState(): getBlockedNumbers(null) throws
      return Throws(NullPointerException);
    }

    /** `endGame`: picks the winner, sends the achievement notices and cleans
        up; when the notices throw, the clean-up does not run. `winner` is
        the winner announced in the GAME_OVER message. */
    method EndGame(now: int) returns (winner: Option<string>, r: Result<seq<string>>)
      requires Valid()
      modifies this
      ensures Valid()
      ensures winner.None? <==> gameState.scores == map[]
      ensures winner.Some? ==> winner.value in gameState.scores
      ensures winner.Some? ==> forall u :: u in gameState.scores ==> gameState.scores[u] <= gameState.scores[winner.value]
      ensures r == CheckAchievements(gameState.scores, winner, gameState.consecutiveMatches, old(players), now - startTime)
      ensures r.Ok? <==> gameState.scores != map[]
      ensures r.Ok? ==> players == {} && powerUpCooldowns == map[]
      ensures r.Throws? ==> players == old(players) && powerUpCooldowns == old(powerUpCooldowns)
      ensures timerScheduled == old(timerScheduled)
    {
      winner := gameState.GetWinner();
      var finalScores := gameState.scores;
      r := CheckAchievements(finalScores, winner, gameState.consecutiveMatches, players, now - startTime);
      if r.Throws? {
        return;
      }
      Cleanup();
    }

    /** `cleanup`: empties the roster and the cooldown table. */
    method Cleanup()
      modifies this
      ensures players == {} && powerUpCooldowns == map[]
      ensures timerScheduled == old(timerScheduled)
    {
      players := {};
      powerUpCooldowns := map[];
    }
  }
}
