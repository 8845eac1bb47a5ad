/** The lobby of the first server (src/server/GameServer.java): the
    connected clients, the games it has opened, and the matchmaker that
    hands a client a game to join. Sockets, the thread pool and shutdown are
    not part of this model. */
module Lobby {
  import opened JavaLang
  import opened CommonUser
  import opened MatchEngine

  /** A game accepts a newcomer while it has not started and holds fewer
      than three players. */
  const OPEN_GAME_CAPACITY := 3

  /** A connected client; `user` is set once the client has logged in. */
  class ClientHandler {
    var user: Option<User>

    constructor (user: Option<User>)
      ensures this.user == user
    {
      this.user := user;
    }
  }

  /** What the login scan sees of each client: None without a logged-in
      user, otherwise that user's username (itself possibly null). */
  function NamesOf(cs: seq<ClientHandler>): (names: seq<Option<Option<string>>>)
    reads set c | c in cs, set c | c in cs && c.user.Some? :: c.user.value
    ensures |names| == |cs|
    ensures forall i :: 0 <= i < |cs| ==>
              names[i] == if cs[i].user.Some? then Some(cs[i].user.value.username) else None
  {
    if cs == [] then []
    else [if cs[0].user.Some? then Some(cs[0].user.value.username) else None] + NamesOf(cs[1..])
  }

  /** `isUserLoggedIn` over the clients in list order: true at the first
      logged-in user whose username equals `username`; a logged-in user
      without a username met before that makes `getUsername().equals`
      throw. */
  function LoginScan(names: seq<Option<Option<string>>>, username: Option<string>): Result<bool>
  {
    if names == [] then Ok(false)
    else match names[0]
      case None => LoginScan(names[1..], username)
      case Some(None) => Throws(NullPointerException)
      case Some(Some(name)) => if username == Some(name) then Ok(true) else LoginScan(names[1..], username)
  }

  /** With every logged-in user named, the scan answers exactly whether
      some client is logged in under `username`; a null `username` is never
      logged in. */
  lemma {:induction false} LoginScanMeaning(names: seq<Option<Option<string>>>, username: Option<string>)
    requires forall i :: 0 <= i < |names| ==> names[i] != Some(None)
    ensures LoginScan(names, username) == Ok(username.Some? && Some(username) in names)
  {
    if names != [] {
      LoginScanMeaning(names[1..], username);
      assert names == [names[0]] + names[1..];
    }
  }

  /** Whatever else is connected, the scan answers true only for a
      username some client is logged in under, and throws only when a
      logged-in user has no username. */
  lemma {:induction false} LoginScanSound(names: seq<Option<Option<string>>>, username: Option<string>)
    ensures LoginScan(names, username) == Ok(true) ==> username.Some? && Some(username) in names
    ensures LoginScan(names, username).Throws? ==> Some(None) in names
  {
    if names != [] {
      LoginScanSound(names[1..], username);
      assert names == [names[0]] + names[1..];
    }
  }

  class GameServer {
    var clients: seq<ClientHandler>
    var activeGames: map<int, Game>
    var nextGameId: int

    /** Every game is registered under its own id, and every id handed
        out so far lies below the next one. */
    ghost predicate Valid()
      reads this
    {
      nextGameId >= 1
      && forall id :: id in activeGames ==> activeGames[id].gameId == id && id < nextGameId
    }

    /** A game the matchmaker may hand out. */
    predicate Open(game: Game)
      reads game`isActive, game`players
    {
      !game.isActive && |game.players| < OPEN_GAME_CAPACITY
    }

    /** Some registered game is open. */
    predicate HasOpenGame()
      reads this, activeGames.Values`isActive, activeGames.Values`players
    {
      exists id :: id in activeGames && Open(activeGames[id])
    }

    /** `GameServer(port)`: no clients, no games, ids from 1. */
    constructor ()
      ensures Valid()
      ensures clients == [] && activeGames == map[] && nextGameId == 1
    {
      clients := [];
      activeGames := map[];
      nextGameId := 1;
    }

    /** `findOrCreateGame`: an open registered game when there is one
        (which one depends on the hash table's order); otherwise a new game
        under the next id, registered and returned. */
    method FindOrCreateGame() returns (game: Game)
      requires Valid()
      modifies this`activeGames, this`nextGameId
      ensures Valid()
      ensures old(HasOpenGame()) ==>
                game in activeGames.Values && Open(game)
                && activeGames == old(activeGames) && nextGameId == old(nextGameId)
      ensures !old(HasOpenGame()) ==>
                fresh(game) && game.gameId == old(nextGameId) && nextGameId == old(nextGameId) + 1
                && old(nextGameId) !in old(activeGames)
                && activeGames == old(activeGames)[old(nextGameId) := game]
                && game.Valid() && !game.isActive && game.players == map[]
    {
      var pending := activeGames.Keys;
      while pending != {}
        invariant activeGames == old(activeGames) && nextGameId == old(nextGameId)
        invariant pending <= activeGames.Keys
        invariant forall id :: id in activeGames && id !in pending ==> !Open(activeGames[id])
        decreases pending
      {
        ghost var next := Element(pending);
        var id :| id in pending;
        if !activeGames[id].isActive && |activeGames[id].players| < OPEN_GAME_CAPACITY {
          assert Open(activeGames[id]);
          return activeGames[id];
        }
        pending := pending - {id};
      }
      assert !HasOpenGame();
      var gameId := nextGameId;
      nextGameId := nextGameId + 1;
      game := new Game(gameId);
      activeGames := activeGames[gameId := game];
    }

    /** `removeClient`: the first entry that is this client leaves the list. */
    method RemoveClient(client: ClientHandler)
      modifies this`clients
      ensures clients == RemoveFirst(old(clients), client)
      ensures client !in old(clients) ==> clients == old(clients)
      ensures multiset(clients) == multiset(old(clients)) - multiset{client}
    {
      clients := RemoveFirst(clients, client);
    }

    /** `isUserLoggedIn`: the login scan over the connected clients. */
    method IsUserLoggedIn(username: Option<string>) returns (r: Result<bool>)
      ensures r == LoginScan(NamesOf(clients), username)
    {
      ghost var names := NamesOf(clients);
      var i := 0;
      while i < |clients|
        invariant 0 <= i <= |clients|
        invariant LoginScan(names, username) == LoginScan(names[i..], username)
      {
        assert names[i..][1..] == names[i + 1..];
        var user := clients[i].user;
        if user.Some? {
          if user.value.username.None? {
            return Throws(NullPointerException);
          }
          if username == user.value.username {
            return Ok(true);
          }
        }
        i := i + 1;
      }
      return Ok(false);
    }
  }
}
