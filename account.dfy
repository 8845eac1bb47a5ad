/** A player account of the second server (doanltudm/model/User.java): the
    power-up inventory with its per-type cooldowns, the win/loss and streak
    counters, lucky-number rewards and achievement rewards. The wall clock is
    the `now` parameter. */
module Account {
  import opened JavaLang

  datatype PowerUpType = PRIORITY_MODE | BLOCK_NUMBERS | SPEED_BOOST | SHIELD

  /** `PowerUpType.values()`, in declaration order. */
  const ALL_POWER_UPS: seq<PowerUpType> := [PRIORITY_MODE, BLOCK_NUMBERS, SPEED_BOOST, SHIELD]

  const INITIAL_POWER_UPS: int := 3
  const PRIORITY_MODE_COOLDOWN: int := 30000
  const BLOCK_NUMBERS_COOLDOWN: int := 45000
  /** Every this many lucky numbers earn a BLOCK_NUMBERS power-up. */
  const LUCKY_NUMBERS_PER_REWARD: int := 5

  lemma AllPowerUpsListed(t: PowerUpType)
    ensures t in ALL_POWER_UPS
  {
    assert ALL_POWER_UPS[0] == PRIORITY_MODE && ALL_POWER_UPS[1] == BLOCK_NUMBERS;
    assert ALL_POWER_UPS[2] == SPEED_BOOST && ALL_POWER_UPS[3] == SHIELD;
  }

  /** How many power-ups of type `t` an achievement earns the first time it
      is added: Perfect Game earns one of each, Speed Demon and Lucky Master
      a PRIORITY_MODE, Champion and Winning Streak a BLOCK_NUMBERS, and any
      other name nothing. */
  function Reward(achievement: string, t: PowerUpType): (n: int)
    ensures n == 0 || n == 1
    ensures t == PRIORITY_MODE ==>
              (n == 1 <==> achievement == "Perfect Game" || achievement == "Speed Demon" || achievement == "Lucky Master")
    ensures t == BLOCK_NUMBERS ==>
              (n == 1 <==> achievement == "Perfect Game" || achievement == "Champion" || achievement == "Winning Streak")
    ensures t != PRIORITY_MODE && t != BLOCK_NUMBERS ==> n == 0
  {
    match t
    case PRIORITY_MODE => if achievement in ["Perfect Game", "Speed Demon", "Lucky Master"] then 1 else 0
    case BLOCK_NUMBERS => if achievement in ["Perfect Game", "Champion", "Winning Streak"] then 1 else 0
    case _ => 0
  }

  /** How many of the counts 1..n earn a lucky-number reward. */
  function LuckyRewardsUpTo(n: nat): nat
  {
    if n == 0 then 0 else LuckyRewardsUpTo(n - 1) + (if n % LUCKY_NUMBERS_PER_REWARD == 0 then 1 else 0)
  }

  /** After n lucky numbers a player has earned n / 5 rewards. */
  lemma {:induction false} LuckyRewardsCount(n: nat)
    ensures LuckyRewardsUpTo(n) == n / LUCKY_NUMBERS_PER_REWARD
  {
    if n > 0 {
      LuckyRewardsCount(n - 1);
      assert n / 5 == (n - 1) / 5 + (if n % 5 == 0 then 1 else 0);
    }
  }

  class User {
    /** The database id (`getId`); 0 until the database assigns one. */
    var id: int
    var email: Option<string>
    var password: Option<string>
    var username: Option<string>
    var sex: Option<string>
    var gamesWon: int
    var gamesLost: int
    var totalScore: int
    var powerUps: map<PowerUpType, int>
    var lastPriorityModeUse: int
    var lastBlockNumbersUse: int
    var achievements: set<string>
    var consecutiveWins: int
    var luckyNumbersFound: int
    var bestGameTime: int
    var lastPowerUpUse: map<PowerUpType, int>

    /** The inventory has an entry for every type. */
    ghost predicate Valid()
      reads this
    {
      forall t: PowerUpType :: t in powerUps
    }

    /** The no-argument constructor: no games, no score, three of each
        power-up, no achievements and no best time yet. */
    constructor()
      ensures Valid()
      ensures id == 0 && email == None && password == None && username == None && sex == None
      ensures gamesWon == 0 && gamesLost == 0 && totalScore == 0
      ensures forall t: PowerUpType :: powerUps[t] == INITIAL_POWER_UPS
      ensures forall t: PowerUpType :: t in lastPowerUpUse && lastPowerUpUse[t] == 0
      ensures lastPriorityModeUse == 0 && lastBlockNumbersUse == 0
      ensures achievements == {} && consecutiveWins == 0 && luckyNumbersFound == 0
      ensures bestGameTime == LONG_MAX
    {
      id := 0;
      email, password, username, sex := None, None, None, None;
      gamesWon, gamesLost, totalScore := 0, 0, 0;
      powerUps := map[];
      lastPriorityModeUse, lastBlockNumbersUse := 0, 0;
      achievements := {};
      consecutiveWins, luckyNumbersFound := 0, 0;
      bestGameTime := LONG_MAX;
      lastPowerUpUse := map[];
      new;
      InitializePowerUps();
    }

    /** The registration constructor: the no-argument one plus the account
        details (the date of birth is not modelled). */
    constructor WithDetails(email: string, password: string, username: string, sex: string)
      ensures Valid()
      ensures id == 0 && this.email == Some(email) && this.password == Some(password)
      ensures this.username == Some(username) && this.sex == Some(sex)
      ensures gamesWon == 0 && gamesLost == 0 && totalScore == 0
      ensures forall t: PowerUpType :: powerUps[t] == INITIAL_POWER_UPS
      ensures lastPriorityModeUse == 0 && lastBlockNumbersUse == 0
      ensures achievements == {} && consecutiveWins == 0 && luckyNumbersFound == 0
      ensures bestGameTime == LONG_MAX
    {
      id := 0;
      this.email, this.password := Some(email), Some(password);
      this.username, this.sex := Some(username), Some(sex);
      gamesWon, gamesLost, totalScore := 0, 0, 0;
      powerUps := map[];
      lastPriorityModeUse, lastBlockNumbersUse := 0, 0;
      achievements := {};
      consecutiveWins, luckyNumbersFound := 0, 0;
      bestGameTime := LONG_MAX;
      lastPowerUpUse := map[];
      new;
      InitializePowerUps();
    }

    /** `initializePowerUps`: three of every type, each last used at 0. */
    method InitializePowerUps()
      modifies this`powerUps, this`lastPowerUpUse
      ensures Valid()
      ensures forall t: PowerUpType :: powerUps[t] == INITIAL_POWER_UPS
      ensures forall t: PowerUpType :: t in lastPowerUpUse && lastPowerUpUse[t] == 0
    {
      for i := 0 to |ALL_POWER_UPS|
        invariant forall j :: 0 <= j < i ==> ALL_POWER_UPS[j] in powerUps && powerUps[ALL_POWER_UPS[j]] == INITIAL_POWER_UPS
        invariant forall j :: 0 <= j < i ==> ALL_POWER_UPS[j] in lastPowerUpUse && lastPowerUpUse[ALL_POWER_UPS[j]] == 0
      {
        powerUps := powerUps[ALL_POWER_UPS[i] := INITIAL_POWER_UPS];
        lastPowerUpUse := lastPowerUpUse[ALL_POWER_UPS[i] := 0];
      }
      forall t: PowerUpType
        ensures t in powerUps && powerUps[t] == INITIAL_POWER_UPS
        ensures t in lastPowerUpUse && lastPowerUpUse[t] == 0
      {
        AllPowerUpsListed(t);
      }
    }

    function Count(t: PowerUpType): int
      reads this
    {
      if t in powerUps then powerUps[t] else 0
    }

    /** `isPowerUpAvailable`: at least one left and, for the two types with
        a cooldown, enough time since that type's last use. */
    function IsPowerUpAvailable(t: PowerUpType, now: int): (b: bool)
      reads this
      ensures b ==> Count(t) > 0
      ensures t == PRIORITY_MODE ==> (b <==> Count(t) > 0 && now - lastPriorityModeUse >= PRIORITY_MODE_COOLDOWN)
      ensures t == BLOCK_NUMBERS ==> (b <==> Count(t) > 0 && now - lastBlockNumbersUse >= BLOCK_NUMBERS_COOLDOWN)
      ensures t == SPEED_BOOST || t == SHIELD ==> (b <==> Count(t) > 0)
    {
      var count := Count(t);
      if count <= 0 then false
      else match t
        case PRIORITY_MODE => now - lastPriorityModeUse >= PRIORITY_MODE_COOLDOWN
        case BLOCK_NUMBERS => now - lastBlockNumbersUse >= BLOCK_NUMBERS_COOLDOWN
        case _ => true
    }

    /** `usePowerUp`: refuses when unavailable; otherwise spends one of that
        type and stamps that type's cooldown only. */
    method UsePowerUp(t: PowerUpType, now: int) returns (used: bool)
      requires Valid()
      modifies this`powerUps, this`lastPriorityModeUse, this`lastBlockNumbersUse
      ensures Valid()
      ensures used == old(IsPowerUpAvailable(t, now))
      ensures !used ==>
                powerUps == old(powerUps)
                && lastPriorityModeUse == old(lastPriorityModeUse) && lastBlockNumbersUse == old(lastBlockNumbersUse)
      ensures used ==> powerUps == old(powerUps)[t := old(powerUps[t]) - 1] && powerUps[t] >= 0
      ensures used ==> lastPriorityModeUse == (if t == PRIORITY_MODE then now else old(lastPriorityModeUse))
      ensures used ==> lastBlockNumbersUse == (if t == BLOCK_NUMBERS then now else old(lastBlockNumbersUse))
      ensures forall u: PowerUpType, later: int :: u != t ==> IsPowerUpAvailable(u, later) == old(IsPowerUpAvailable(u, later))
    {
      if !IsPowerUpAvailable(t, now) {
        return false;
      }
      powerUps := powerUps[t := powerUps[t] - 1];
      var currentTime := now;
      match t {
        case PRIORITY_MODE => lastPriorityModeUse := currentTime;
        case BLOCK_NUMBERS => lastBlockNumbersUse := currentTime;
        case _ =>
      }
      return true;
    }

    /** `addPowerUp`: raises the type's count by exactly `count`. */
    method AddPowerUp(t: PowerUpType, count: int)
      requires Valid()
      modifies this`powerUps
      ensures Valid()
      ensures powerUps == old(powerUps)[t := old(powerUps[t]) + count]
    {
      powerUps := powerUps[t := powerUps[t] + count];
    }

    /** `recordGameResult`: a win bumps the win and streak counters, keeps the
        shorter game time and earns a PRIORITY_MODE power-up; a loss bumps the
        loss counter and ends the streak. The score is added either way. */
    method RecordGameResult(won: bool, score: int, gameTime: int)
      requires Valid()
      modifies this`gamesWon, this`gamesLost, this`consecutiveWins, this`bestGameTime, this`powerUps, this`totalScore
      ensures Valid()
      ensures totalScore == old(totalScore) + score
      ensures won ==>
                gamesWon == old(gamesWon) + 1 && gamesLost == old(gamesLost)
                && consecutiveWins == old(consecutiveWins) + 1
                && bestGameTime == Min(old(bestGameTime), gameTime)
                && powerUps == old(powerUps)[PRIORITY_MODE := old(powerUps[PRIORITY_MODE]) + 1]
      ensures !won ==>
                gamesLost == old(gamesLost) + 1 && gamesWon == old(gamesWon)
                && consecutiveWins == 0 && bestGameTime == old(bestGameTime) && powerUps == old(powerUps)
    {
      if won {
        gamesWon := gamesWon + 1;
        consecutiveWins := consecutiveWins + 1;
        if gameTime < bestGameTime {
          bestGameTime := gameTime;
        }
        AddPowerUp(PRIORITY_MODE, 1);
      } else {
        gamesLost := gamesLost + 1;
        consecutiveWins := 0;
      }
      totalScore := totalScore + score;
    }

    /** `addLuckyNumber`: one more lucky number, and a BLOCK_NUMBERS power-up
        each time the count reaches a multiple of five. */
    method AddLuckyNumber()
      requires Valid()
      modifies this`luckyNumbersFound, this`powerUps
      ensures Valid()
      ensures luckyNumbersFound == old(luckyNumbersFound) + 1
      ensures powerUps == old(powerUps)[BLOCK_NUMBERS := old(powerUps[BLOCK_NUMBERS])
                + (if Rem(luckyNumbersFound, LUCKY_NUMBERS_PER_REWARD) == 0 then 1 else 0)]
      ensures old(luckyNumbersFound) >= 0 ==>
                powerUps[BLOCK_NUMBERS] - old(powerUps[BLOCK_NUMBERS])
                == LuckyRewardsUpTo(luckyNumbersFound) - LuckyRewardsUpTo(old(luckyNumbersFound))
    {
      luckyNumbersFound := luckyNumbersFound + 1;
      if Rem(luckyNumbersFound, LUCKY_NUMBERS_PER_REWARD) == 0 {
        AddPowerUp(BLOCK_NUMBERS, 1);
      }
    }

    /** `addAchievement` (the rewarding declaration): a new achievement is
        recorded and earns its power-ups; one already held changes nothing. */
    method AddAchievement(achievement: string)
      requires Valid()
      modifies this`achievements, this`powerUps
      ensures Valid()
      ensures achievements == old(achievements) + {achievement}
      ensures achievement in old(achievements) ==> powerUps == old(powerUps)
      ensures achievement !in old(achievements) ==>
                powerUps == old(powerUps)
                  [PRIORITY_MODE := old(powerUps[PRIORITY_MODE]) + Reward(achievement, PRIORITY_MODE)]
                  [BLOCK_NUMBERS := old(powerUps[BLOCK_NUMBERS]) + Reward(achievement, BLOCK_NUMBERS)]
    {
      if achievement !in achievements {
        achievements := achievements + {achievement};
        if achievement == "Perfect Game" {
          AddPowerUp(PRIORITY_MODE, 1);
          AddPowerUp(BLOCK_NUMBERS, 1);
        } else if achievement == "Speed Demon" || achievement == "Lucky Master" {
          AddPowerUp(PRIORITY_MODE, 1);
        } else if achievement == "Champion" || achievement == "Winning Streak" {
          AddPowerUp(BLOCK_NUMBERS, 1);
        }
      }
    }
  }
}
