/** The match-making and request routing of the second server
    (doanltudm/server/GameServer.java). The match API this server calls
    (`hasPlayer`, `isStarted`, `addPlayer` returning a flag, `startGame`,
    `processNumberFound`, `handlePowerUp`, `handlePlayerDisconnect`) is not
    declared by doanltudm/server/GameMatch.java, so a match is seen here only
    through the three queries the server makes (MatchView), the outcome of a
    call is a parameter, and each call the server makes to a match, to a
    client or to the database is appended to the `calls` log. */
module MatchServer {
  import opened JavaLang
  import opened Account
  import GameFeatures

  /** A connected client; `user` is set once the client has logged in. */
  class ClientHandler {
    var user: Option<User>

    constructor (user: Option<User>)
      ensures this.user == user
    {
      this.user := user;
    }
  }

  /** What the server can ask a match: `hasPlayer` (membership),
      `isStarted` and `getPlayerCount`. */
  datatype MatchView = MatchView(members: set<ClientHandler>, started: bool, playerCount: int)

  /** A match just created by `new GameMatch()`. */
  const NEW_MATCH := MatchView({}, false, 0)

  /** The `findGame` filter: not started and below MAX_PLAYERS. */
  predicate Joinable(m: MatchView)
  {
    !m.started && m.playerCount < GameFeatures.MAX_PLAYERS
  }

  /** The outward calls the server makes. */
  datatype Call =
    | AddPlayer(key: string, client: ClientHandler)
    | StartGame(key: string)
    | ProcessNumberFound(key: string, number: int, client: ClientHandler)
    | HandlePowerUp(key: string, powerUp: PowerUpType, client: ClientHandler)
    | HandlePlayerDisconnect(key: string, client: ClientHandler)
    | SendError(client: ClientHandler, message: string)
    | UpdateUserPowerUps(userId: int, counts: map<PowerUpType, int>)
    | UpdatePowerUpUseTime(userId: int, powerUp: PowerUpType, time: int)

  const POWER_UP_NOT_AVAILABLE := "Power-up not available"

  /** The account of a client, as a set for frames: empty before login. */
  function UserOf(client: ClientHandler): set<User>
    reads client
  {
    if client.user.Some? then {client.user.value} else {}
  }

  class GameServer {
    var clients: seq<ClientHandler>
    var matches: map<string, MatchView>
    /** Every call made so far, oldest first. */
    var calls: seq<Call>

    /** `hasPlayer` holds for some registered match. */
    predicate InMatch(client: ClientHandler)
      reads this`matches
    {
      exists key :: key in matches && client in matches[key].members
    }

    /** Some registered match passes the `findGame` filter. */
    predicate HasJoinable()
      reads this`matches
    {
      exists key :: key in matches && Joinable(matches[key])
    }

    /** `GameServer()`: no clients, no matches, nothing sent. */
    constructor ()
      ensures clients == [] && matches == map[] && calls == []
    {
      clients := [];
      matches := map[];
      calls := [];
    }

    /** `findPlayerMatch`: a match that has the client, in the hash table's
        order, or none. */
    method FindPlayerMatch(client: ClientHandler) returns (found: Option<string>)
      ensures found.None? <==> !InMatch(client)
      ensures found.Some? ==> found.value in matches && client in matches[found.value].members
    {
      var pending := matches.Keys;
      while pending != {}
        invariant pending <= matches.Keys
        invariant forall key :: key in matches && key !in pending ==> client !in matches[key].members
        decreases pending
      {
        ghost var next := Element(pending);
        var key :| key in pending;
        if client in matches[key].members {
          return Some(key);
        }
        pending := pending - {key};
      }
      return None;
    }

    /** The match `findGame` joins: a registered joinable match when there
        is one, otherwise a new match put under `newKey`. */
    method ChooseMatch(newKey: string) returns (key: string)
      modifies this`matches
      ensures old(HasJoinable()) ==> key in matches && Joinable(matches[key]) && matches == old(matches)
      ensures !old(HasJoinable()) ==> key == newKey && matches == old(matches)[newKey := NEW_MATCH]
    {
      var pending := matches.Keys;
      while pending != {}
        invariant matches == old(matches)
        invariant pending <= matches.Keys
        invariant forall k :: k in matches && k !in pending ==> !Joinable(matches[k])
        decreases pending
      {
        ghost var next := Element(pending);
        var k :| k in pending;
        if !matches[k].started && matches[k].playerCount < GameFeatures.MAX_PLAYERS {
          return k;
        }
        pending := pending - {k};
      }
      matches := matches[newKey := NEW_MATCH];
      return newKey;
    }

    /** `findGame`: nothing for a client already in a match; otherwise the
        client is offered to the chosen match, which is started when the
        add succeeded and the match then counts MIN_PLAYERS or more.
        `added` and `afterAdd` are the outcome of the match's `addPlayer`
        and its view afterwards. */
    method FindGame(client: ClientHandler, newKey: string, added: bool, afterAdd: MatchView)
      returns (joined: Option<string>)
      modifies this`matches, this`calls
      ensures old(InMatch(client)) ==> joined == None && matches == old(matches) && calls == old(calls)
      ensures !old(InMatch(client)) ==>
                joined.Some?
                && (old(HasJoinable()) ==> joined.value in old(matches) && Joinable(old(matches)[joined.value]))
                && (!old(HasJoinable()) ==> joined.value == newKey)
                && matches == old(matches)[joined.value := afterAdd]
                && calls == old(calls) + [AddPlayer(joined.value, client)]
                              + (if added && afterAdd.playerCount >= GameFeatures.MIN_PLAYERS
                                 then [StartGame(joined.value)] else [])
    {
      var current := FindPlayerMatch(client);
      if current.Some? {
        return None;
      }
      var key := ChooseMatch(newKey);
      calls := calls + [AddPlayer(key, client)];
      matches := matches[key := afterAdd];
      if added {
        if matches[key].playerCount >= GameFeatures.MIN_PLAYERS {
          calls := calls + [StartGame(key)];
        }
      }
      return Some(key);
    }

    /** `handleNumberClick`: the click goes to the client's match; when the
        match accepts it (`accepted`) and the number is lucky, the client's
        account counts a lucky number and its power-ups are saved. An
        accepted lucky click from a client without an account throws. */
    method HandleNumberClick(number: int, client: ClientHandler, accepted: bool)
      returns (r: Result<()>, matched: Option<string>)
      requires client.user.Some? ==> client.user.value.Valid()
      modifies this`calls, UserOf(client)`luckyNumbersFound, UserOf(client)`powerUps
      ensures matches == old(matches)
      ensures client.user.Some? ==> client.user.value.Valid()
      ensures matched.None? <==> !InMatch(client)
      ensures matched.Some? ==> matched.value in matches && client in matches[matched.value].members
      ensures var credited := matched.Some? && accepted && GameFeatures.IsLuckyNumber(number);
              && (r.Throws? <==> credited && client.user.None?)
              && (r.Throws? ==> r.exception == NullPointerException)
              && (credited && client.user.Some? ==>
                    client.user.value.luckyNumbersFound == old(client.user.value.luckyNumbersFound) + 1
                    && client.user.value.powerUps
                       == old(client.user.value.powerUps)[BLOCK_NUMBERS := old(client.user.value.powerUps[BLOCK_NUMBERS])
                            + (if Rem(client.user.value.luckyNumbersFound, LUCKY_NUMBERS_PER_REWARD) == 0 then 1 else 0)]
                    && calls == old(calls) + [ProcessNumberFound(matched.value, number, client),
                                              UpdateUserPowerUps(client.user.value.id, client.user.value.powerUps)])
              && (!credited && client.user.Some? ==>
                    client.user.value.luckyNumbersFound == old(client.user.value.luckyNumbersFound)
                    && client.user.value.powerUps == old(client.user.value.powerUps))
              && (!credited || client.user.None? ==>
                    calls == old(calls) + (if matched.Some? then [ProcessNumberFound(matched.value, number, client)] else []))
    {
      matched := FindPlayerMatch(client);
      if matched.None? {
        return Ok(()), matched;
      }
      calls := calls + [ProcessNumberFound(matched.value, number, client)];
      if accepted && GameFeatures.IsLuckyNumber(number) {
        if client.user.None? {
          return Throws(NullPointerException), matched;
        }
        var user := client.user.value;
        user.AddLuckyNumber();
        calls := calls + [UpdateUserPowerUps(user.id, user.powerUps)];
      }
      return Ok(()), matched;
    }

    /** `handlePowerUpUse`: a power-up the account cannot spend gets an
        error reply and nothing else; a spent one is handed to the client's
        match, if any, and its count and use time are saved. A client
        without an account throws. */
    method HandlePowerUpUse(client: ClientHandler, powerUp: PowerUpType, now: int)
      returns (r: Result<()>, matched: Option<string>)
      requires client.user.Some? ==> client.user.value.Valid()
      modifies this`calls
      modifies UserOf(client)`powerUps, UserOf(client)`lastPriorityModeUse, UserOf(client)`lastBlockNumbersUse
      ensures matches == old(matches)
      ensures r.Throws? <==> client.user.None?
      ensures r.Throws? ==> r.exception == NullPointerException && calls == old(calls) && matched == None
      ensures client.user.Some? && !old(client.user.value.IsPowerUpAvailable(powerUp, now)) ==>
                calls == old(calls) + [SendError(client, POWER_UP_NOT_AVAILABLE)] && matched == None
                && client.user.value.powerUps == old(client.user.value.powerUps)
                && client.user.value.lastPriorityModeUse == old(client.user.value.lastPriorityModeUse)
                && client.user.value.lastBlockNumbersUse == old(client.user.value.lastBlockNumbersUse)
      ensures client.user.Some? && old(client.user.value.IsPowerUpAvailable(powerUp, now)) ==>
                client.user.value.powerUps == old(client.user.value.powerUps)[powerUp := old(client.user.value.powerUps[powerUp]) - 1]
                && client.user.value.lastPriorityModeUse
                   == (if powerUp == PRIORITY_MODE then now else old(client.user.value.lastPriorityModeUse))
                && client.user.value.lastBlockNumbersUse
                   == (if powerUp == BLOCK_NUMBERS then now else old(client.user.value.lastBlockNumbersUse))
                && (matched.None? <==> !InMatch(client))
                && (matched.Some? ==> matched.value in matches && client in matches[matched.value].members)
                && calls == old(calls) + (if matched.None? then [] else
                                            [HandlePowerUp(matched.value, powerUp, client),
                                             UpdateUserPowerUps(client.user.value.id, client.user.value.powerUps),
                                             UpdatePowerUpUseTime(client.user.value.id, powerUp, now)])
    {
      if client.user.None? {
        return Throws(NullPointerException), None;
      }
      var user := client.user.value;
      var used := user.UsePowerUp(powerUp, now);
      if !used {
        calls := calls + [SendError(client, POWER_UP_NOT_AVAILABLE)];
        return Ok(()), None;
      }
      matched := FindPlayerMatch(client);
      if matched.Some? {
        calls := calls + [HandlePowerUp(matched.value, powerUp, client),
                          UpdateUserPowerUps(user.id, user.powerUps),
                          UpdatePowerUpUseTime(user.id, powerUp, now)];
      }
      return Ok(()), matched;
    }

    /** `removeClient`: the client leaves the list and its match, if any,
        hears of the disconnect. */
    method RemoveClient(client: ClientHandler) returns (matched: Option<string>)
      modifies this`clients, this`calls
      ensures clients == RemoveFirst(old(clients), client)
      ensures matched.None? <==> !InMatch(client)
      ensures matched.Some? ==> matched.value in matches && client in matches[matched.value].members
      ensures calls == old(calls) + if matched.Some? then [HandlePlayerDisconnect(matched.value, client)] else []
    {
      clients := RemoveFirst(clients, client);
      matched := FindPlayerMatch(client);
      if matched.Some? {
        calls := calls + [HandlePlayerDisconnect(matched.value, client)];
      }
    }
  }
}
