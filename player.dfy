/** The client-side view of one player in the second tree
    (doanltudm/client/game/Player.java): score, lucky numbers, the block a
    rival's power-up imposes, and priority mode. The wall clock is the
    `now` parameter; the colour is kept as its packed RGB value. */
module ClientPlayer {
  import opened JavaLang
  import GameFeatures

  class Player {
    var username: Option<string>
    var color: int
    /** Java `int` counters: they wrap at 2^31. */
    var score: int
    var luckyNumbersFound: int
    var lastClickTime: int
    var priorityMode: bool
    /** The `isBlocked` flag; the query of the same name is IsBlocked. */
    var blocked: bool
    var blockEndTime: int

    /** `isBlocked()`: the flag is set and the block has not run out. */
    predicate IsBlocked(now: int)
      reads this`blocked, this`blockEndTime
    {
      blocked && now < blockEndTime
    }

    /** `Player(username, color)`: no score, no lucky numbers, neither
        blocked nor in priority mode. */
    constructor (username: Option<string>, color: int)
      ensures this.username == username && this.color == color
      ensures score == 0 && luckyNumbersFound == 0 && lastClickTime == 0
      ensures !priorityMode && !blocked && blockEndTime == 0
      ensures forall now :: !IsBlocked(now)
    {
      this.username := username;
      this.color := color;
      score, luckyNumbersFound, lastClickTime := 0, 0, 0;
      priorityMode, blocked := false, false;
      blockEndTime := 0;
    }

    /** `incrementScore`: one point more (in `int`). */
    method IncrementScore()
      modifies this`score
      ensures score == Int32(old(score) + 1)
      ensures INT_MIN <= old(score) < INT_MAX ==> score == old(score) + 1
    {
      score := Int32(score + 1);
    }

    /** `addLuckyNumber`: one lucky number more and the lucky bonus on the
        score. */
    method AddLuckyNumber()
      modifies this`luckyNumbersFound, this`score
      ensures luckyNumbersFound == Int32(old(luckyNumbersFound) + 1)
      ensures score == Int32(old(score) + GameFeatures.LUCKY_NUMBER_BONUS)
      ensures INT_MIN <= old(score) <= INT_MAX - GameFeatures.LUCKY_NUMBER_BONUS ==>
                score == old(score) + GameFeatures.LUCKY_NUMBER_BONUS
    {
      luckyNumbersFound := Int32(luckyNumbersFound + 1);
      score := Int32(score + GameFeatures.LUCKY_NUMBER_BONUS);
    }

    /** `canClick`: refused while a block runs; otherwise the flag is
        cleared and the click allowed. */
    method CanClick(now: int) returns (ok: bool)
      modifies this`blocked
      ensures ok <==> !old(IsBlocked(now))
      ensures !ok ==> blocked == old(blocked)
      ensures ok ==> !blocked && forall later :: !IsBlocked(later)
    {
      if blocked && now < blockEndTime {
        return false;
      }
      blocked := false;
      return true;
    }

    /** `activatePriorityMode`: priority mode on. */
    method ActivatePriorityMode()
      modifies this`priorityMode
      ensures priorityMode
    {
      priorityMode := true;
    }

    /** What the thread `activatePriorityMode` starts does once
        PRIORITY_MODE_DURATION has passed: priority mode off. */
    method EndPriorityMode()
      modifies this`priorityMode
      ensures !priorityMode
    {
      priorityMode := false;
    }

    /** `block(duration)`: blocked from `now` for `duration` milliseconds. */
    method Block(duration: int, now: int)
      modifies this`blocked, this`blockEndTime
      ensures blocked && blockEndTime == now + duration
      ensures forall t :: now <= t < now + duration ==> IsBlocked(t)
      ensures forall t :: t >= now + duration ==> !IsBlocked(t)
    {
      blocked := true;
      blockEndTime := now + duration;
    }

    /** `unblock`: the flag is cleared, so no time is blocked. */
    method Unblock()
      modifies this`blocked
      ensures !blocked && forall t :: !IsBlocked(t)
    {
      blocked := false;
    }

    /** `updateClickTime`. */
    method UpdateClickTime(now: int)
      modifies this`lastClickTime
      ensures lastClickTime == now
    {
      lastClickTime := now;
    }

    /** `equals`: the same object, or another player with an equal
        username; null is never equal, and a player without a username
        throws when compared with another one. */
    function Equals(o: Player?): Result<bool>
      reads this, o
    {
      if this == o then Ok(true)
      else if o == null then Ok(false)
      else if username.None? then Throws(NullPointerException)
      else Ok(o.username == username)
    }

    /** `hashCode`: the username's hash. */
    function HashCode(): Result<int>
      reads this
    {
      if username.None? then Throws(NullPointerException) else Ok(StringHashCode(username.value))
    }
  }

  /** For named players, equality is equality of usernames, whatever the
      rest of their state. */
  lemma EqualsIffSameUsername(p: Player, q: Player)
    requires p.username.Some?
    ensures p.Equals(q) == Ok(p.username == q.username)
  {
  }

  /** Equal players hash alike, as a hash table requires. */
  lemma EqualPlayersHashAlike(p: Player, q: Player)
    requires p.Equals(q) == Ok(true)
    ensures p.HashCode() == q.HashCode()
  {
  }

  /** Equality between named players is symmetric. */
  lemma EqualsSymmetric(p: Player, q: Player)
    requires p.username.Some? && q.username.Some?
    ensures p.Equals(q) == q.Equals(p)
  {
  }
}
