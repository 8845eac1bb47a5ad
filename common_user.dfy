/** The account record of the first server (src/common/User.java): who the
    user is and the win, loss and score counters the match engine updates. */
module CommonUser {
  import opened JavaLang

  /** The counters the match engine changes. */
  datatype Counters = Counters(gamesWon: int, gamesLost: int, totalScore: int)

  class User {
    var id: int
    var username: Option<string>
    var password: Option<string>
    var email: Option<string>
    /** "M", "F" or "O". */
    var sex: Option<string>
    /** The birth date as a `Date`'s millisecond value. */
    var dateOfBirth: Option<int>
    var gamesWon: int
    var gamesLost: int
    var totalScore: int
    var playerColor: int

    function Counts(): Counters
      reads this
    {
      Counters(gamesWon, gamesLost, totalScore)
    }

    /** Games recorded either way. */
    function GamesPlayed(): int
      reads this
    {
      gamesWon + gamesLost
    }

    /** `User(username, password)`: no games and no score yet; the profile
        fields stay unset. */
    constructor (username: string, password: string)
      ensures this.username == Some(username) && this.password == Some(password)
      ensures email == None && sex == None && dateOfBirth == None
      ensures gamesWon == 0 && gamesLost == 0 && totalScore == 0
      ensures id == 0 && playerColor == 0
    {
      id := 0;
      this.username := Some(username);
      this.password := Some(password);
      email, sex, dateOfBirth := None, None, None;
      gamesWon, gamesLost, totalScore := 0, 0, 0;
      playerColor := 0;
    }

    /** `User(username, password, email, sex, dateOfBirth)`: as the
        two-argument constructor, plus the profile fields. */
    constructor WithProfile(username: string, password: string, email: Option<string>, sex: Option<string>,
                            dateOfBirth: Option<int>)
      ensures this.username == Some(username) && this.password == Some(password)
      ensures this.email == email && this.sex == sex && this.dateOfBirth == dateOfBirth
      ensures gamesWon == 0 && gamesLost == 0 && totalScore == 0
      ensures id == 0 && playerColor == 0
    {
      id := 0;
      this.username := Some(username);
      this.password := Some(password);
      this.email, this.sex, this.dateOfBirth := email, sex, dateOfBirth;
      gamesWon, gamesLost, totalScore := 0, 0, 0;
      playerColor := 0;
    }

    method IncrementGamesWon()
      modifies this`gamesWon
      ensures gamesWon == old(gamesWon) + 1
      ensures Counts() == old(Counts()).(gamesWon := old(gamesWon) + 1)
      ensures GamesPlayed() == old(GamesPlayed()) + 1
    {
      gamesWon := gamesWon + 1;
    }

    method IncrementGamesLost()
      modifies this`gamesLost
      ensures gamesLost == old(gamesLost) + 1
      ensures Counts() == old(Counts()).(gamesLost := old(gamesLost) + 1)
      ensures GamesPlayed() == old(GamesPlayed()) + 1
    {
      gamesLost := gamesLost + 1;
    }

    method AddScore(points: int)
      modifies this`totalScore
      ensures totalScore == old(totalScore) + points
      ensures Counts() == old(Counts()).(totalScore := old(totalScore) + points)
    {
      totalScore := totalScore + points;
    }

    method SetPlayerColor(color: int)
      modifies this`playerColor
      ensures playerColor == color
    {
      playerColor := color;
    }
  }
}
