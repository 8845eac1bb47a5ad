/** The constants and integer rules of the second server's match engine
    (doanltudm/shared/GameFeatures.java): which numbers are lucky, how a
    match's numbers are drawn, how a duration is printed and which colour a
    player gets. The random source is a parameter. */
module GameFeatures {
  import opened JavaLang

  // Game configuration
  const MIN_PLAYERS: int := 2
  const MAX_PLAYERS: int := 4
  const MIN_NUMBER: int := 1
  const MAX_NUMBER: int := 100
  const NUMBERS_PER_PLAYER: int := 25
  const GAME_DURATION_SECONDS: int := 300

  // Scoring system
  const BASE_POINTS: int := 1
  const LUCKY_NUMBER_BONUS: int := 5
  const CONSECUTIVE_MATCH_BONUS: int := 2
  const SPEED_BONUS_THRESHOLD_MS: int := 1000
  const SPEED_BONUS_POINTS: int := 2

  // Power-up configuration
  const PRIORITY_MODE_DURATION: int := 30000
  const BLOCK_NUMBERS_DURATION: int := 15000
  const POWER_UP_COOLDOWN: int := 60000

  // Achievement thresholds
  const PERFECT_GAME_THRESHOLD: int := NUMBERS_PER_PLAYER
  const SPEED_DEMON_TIME: int := 180000
  const LUCKY_MASTER_THRESHOLD: int := 10
  const WINNING_STREAK_THRESHOLD: int := 5

  datatype Rgb = Rgb(red: int, green: int, blue: int)

  /** Green, blue, purple and red, in this order. */
  const PLAYER_COLORS: seq<Rgb> :=
    [Rgb(46, 204, 113), Rgb(52, 152, 219), Rgb(155, 89, 182), Rgb(231, 76, 60)]

  // ---------------------------------------------------------------------
  // Primes and squares
  // ---------------------------------------------------------------------

  predicate Divides(d: int, n: int)
    requires d != 0
  {
    n % d == 0
  }

  /** The textbook meaning of "n is prime". */
  ghost predicate Prime(n: int)
  {
    n > 1 && forall d :: 1 < d < n ==> !Divides(d, n)
  }

  /** What `isPrime`'s loop establishes: n > 1 and no i with 2 <= i and
      i * i <= n divides n (the loop's bound `i <= Math.sqrt(n)` is exact for
      `int` operands). */
  predicate PrimeByTrialDivision(n: int)
  {
    n > 1 && forall i :: 2 <= i <= n && i * i <= n ==> !Divides(i, n)
  }

  /** Multiplying by a factor of at least one (or at most minus one) moves
      a positive number at least that far. */
  lemma MulBound(d: int, x: int)
    requires d > 0
    ensures x >= 1 ==> d * x >= d
    ensures x <= -1 ==> d * x <= -d
  {
    assert d * x == d * (x - 1) + d;
    assert d * x == d * (x + 1) - d;
  }

  lemma MultipleDivides(d: int, e: int)
    requires d > 0
    ensures Divides(d, d * e)
  {
    var n := d * e;
    assert n == d * (n / d) + n % d;
    MulBound(d, e - n / d);
    assert d * (e - n / d) == n % d;
  }

  lemma SquareMonotone(a: nat, b: nat)
    ensures a <= b ==> a * a <= b * b
  {
    if a <= b {
      assert a * a <= a * b by { assert a * (b - a) >= 0; }
      assert a * b <= b * b by { assert (b - a) * b >= 0; }
    }
  }

  /** A divisor above the square root has a partner divisor below it. */
  lemma CoDivisor(n: int, d: int)
    requires 1 < d < n && d * d > n
    ensures Divides(d, n) ==> var e := n / d; 2 <= e <= n && e * e <= n && Divides(e, n)
  {
    if Divides(d, n) {
      var e := n / d;
      assert n == d * e by { assert n == d * (n / d) + n % d; }
      assert d * (e - 1) == n - d;
      MulBound(d, e - 1);
      assert d * (d - e) == d * d - n;
      MulBound(d, d - e);
      assert e * (d - e) == n - e * e;
      MulBound(e, d - e);
      MultipleDivides(e, d);
    }
  }

  /** Trial division up to the square root decides primality. */
  lemma TrialDivisionDecidesPrimality(n: int)
    ensures PrimeByTrialDivision(n) <==> Prime(n)
  {
    if PrimeByTrialDivision(n) {
      forall d | 1 < d < n ensures !Divides(d, n) {
        if d * d > n {
          CoDivisor(n, d);
        }
      }
    }
    if Prime(n) {
      forall i | 2 <= i <= n && i * i <= n ensures !Divides(i, n) {
        MulBound(i, i - 1);
      }
    }
  }

  /** `isPrime`: false for n <= 1, otherwise trial division by every i with
      i * i <= n. */
  method IsPrime(number: int) returns (b: bool)
    ensures b == PrimeByTrialDivision(number)
    ensures b <==> Prime(number)
  {
    TrialDivisionDecidesPrimality(number);
    if number <= 1 {
      return false;
    }
    var i := 2;
    while i * i <= number
      invariant 2 <= i <= number + 1
      invariant forall j :: 2 <= j < i ==> !Divides(j, number)
      decreases number + 1 - i
    {
      MulBound(i, i - 1);
      if number % i == 0 {
        assert 2 <= i <= number && i * i <= number && Divides(i, number);
        return false;
      }
      i := i + 1;
    }
    forall j | 2 <= j <= number && j * j <= number ensures !Divides(j, number) {
      SquareMonotone(i, j);
    }
    return true;
  }

  function Square(k: nat): nat { k * k }

  function SqrtFrom(n: nat, k: nat): (r: nat)
    requires k * k <= n
    ensures r * r <= n < (r + 1) * (r + 1)
    decreases n - k * k
  {
    assert (k + 1) * (k + 1) == k * k + 2 * k + 1;
    if (k + 1) * (k + 1) > n then k else SqrtFrom(n, k + 1)
  }

  /** The integer square root: `(int) Math.sqrt(n)` for an `int` n >= 0. */
  function ISqrt(n: nat): (r: nat)
    ensures r * r <= n < (r + 1) * (r + 1)
  {
    SqrtFrom(n, 0)
  }

  /** `isPerfectSquare`: the truncated square root squared gives n back. For a
      negative n, `Math.sqrt` is NaN, which the cast turns into 0. */
  predicate IsPerfectSquare(number: int)
  {
    number >= 0 && ISqrt(number) * ISqrt(number) == number
  }

  lemma PerfectSquareIsSquare(n: int)
    ensures IsPerfectSquare(n) <==> exists k: nat :: Square(k) == n
  {
    if IsPerfectSquare(n) {
      assert Square(ISqrt(n)) == n;
    }
    if exists k: nat :: Square(k) == n {
      var k: nat :| Square(k) == n;
      assert (k + 1) * (k + 1) == k * k + 2 * k + 1;
      SqrtUnique(n, ISqrt(n), k);
    }
  }

  /** `isLuckyNumber`: inside [MIN_NUMBER, MAX_NUMBER] and prime or a perfect
      square. */
  predicate IsLuckyNumber(number: int)
  {
    MIN_NUMBER <= number <= MAX_NUMBER && (PrimeByTrialDivision(number) || IsPerfectSquare(number))
  }

  lemma LuckyMeansPrimeOrSquare(n: int)
    ensures IsLuckyNumber(n) <==> 1 <= n <= 100 && (Prime(n) || exists k: nat :: Square(k) == n)
  {
    TrialDivisionDecidesPrimality(n);
    PerfectSquareIsSquare(n);
  }

  // ---------------------------------------------------------------------
  // Drawing a match's numbers
  // ---------------------------------------------------------------------

  /** `random.nextInt(MAX_NUMBER - MIN_NUMBER + 1) + MIN_NUMBER` for a raw draw. */
  function DrawNumber(raw: nat): (n: int)
    ensures MIN_NUMBER <= n <= MAX_NUMBER
  {
    raw % (MAX_NUMBER - MIN_NUMBER + 1) + MIN_NUMBER
  }

  /** The numbers the first fill loop writes: the k-th comes from draw(k). */
  function Drawn(draw: nat -> nat, total: nat): (s: seq<int>)
    ensures |s| == total
    ensures forall i :: 0 <= i < total ==> s[i] == DrawNumber(draw(i))
  {
    if total == 0 then [] else Drawn(draw, total - 1) + [DrawNumber(draw(total - 1))]
  }

  predicate AllInRange(s: seq<int>)
  {
    forall i :: 0 <= i < |s| ==> MIN_NUMBER <= s[i] <= MAX_NUMBER
  }

  /** How many entries of `s` are lucky. */
  function CountLucky(s: seq<int>): (c: nat)
    ensures c <= |s|
  {
    if s == [] then 0 else CountLucky(s[..|s| - 1]) + (if IsLuckyNumber(s[|s| - 1]) then 1 else 0)
  }

  /** Writing a lucky number into a slot raises the lucky count by one unless
      the slot was already lucky. */
  lemma {:induction false} CountLuckyAfterWrite(s: seq<int>, i: nat, v: int)
    requires i < |s| && IsLuckyNumber(v)
    ensures CountLucky(s[i := v]) == CountLucky(s) + (if IsLuckyNumber(s[i]) then 0 else 1)
    decreases |s|
  {
    var t := s[i := v];
    if i < |s| - 1 {
      assert t[..|t| - 1] == s[..|s| - 1][i := v];
      CountLuckyAfterWrite(s[..|s| - 1], i, v);
    } else {
      assert t[..|t| - 1] == s[..|s| - 1];
    }
  }

  /** Raw draws for one pass of the top-up loop: `random.nextInt(totalNumbers)`
      for the slot and `random.nextInt(100)` for the candidate. */
  datatype Refill = Refill(index: nat, candidate: nat)

  /** The numbers and the loop's `luckyCount` counter. */
  datatype FillState = FillState(numbers: seq<int>, luckyCount: nat)

  /** One pass of the top-up loop: a lucky candidate overwrites the drawn
      slot and bumps the counter, whatever the slot held before. */
  function RefillStep(st: FillState, r: Refill): (st': FillState)
    requires |st.numbers| > 0
    ensures |st'.numbers| == |st.numbers|
  {
    var index := r.index % |st.numbers|;
    var candidate := DrawNumber(r.candidate);
    if IsLuckyNumber(candidate) then FillState(st.numbers[index := candidate], st.luckyCount + 1)
    else st
  }

  /** The top-up loop `while (luckyCount < totalNumbers / 5)`, run over the
      given draws. The Java loop draws until it stops; here the draws are a
      finite sequence and the loop also stops when they run out. */
  function TopUp(st: FillState, refills: seq<Refill>): (r: FillState)
    ensures |r.numbers| == |st.numbers|
    ensures AllInRange(st.numbers) ==> AllInRange(r.numbers)
    ensures r.luckyCount >= st.luckyCount
    ensures r.luckyCount < |st.numbers| / 5 ==> r.luckyCount - st.luckyCount <= |refills|
    decreases |refills|
  {
    if refills == [] || st.luckyCount >= |st.numbers| / 5 then st
    else TopUp(RefillStep(st, refills[0]), refills[1..])
  }

  lemma TopUpUnfold(st: FillState, refills: seq<Refill>, k: nat)
    requires k < |refills| && st.luckyCount < |st.numbers| / 5
    ensures TopUp(st, refills[k..]) == TopUp(RefillStep(st, refills[k]), refills[k + 1..])
  {
    assert refills[k..][0] == refills[k] && refills[k..][1..] == refills[k + 1..];
  }

  /** The array `generateGameNumbers(playerCount)` returns for the given
      random draws. */
  function GeneratedNumbers(playerCount: nat, draw: nat -> nat, refills: seq<Refill>): (r: seq<int>)
    ensures |r| == playerCount * NUMBERS_PER_PLAYER
    ensures AllInRange(r)
  {
    var drawn := Drawn(draw, playerCount * NUMBERS_PER_PLAYER);
    assert AllInRange(drawn);
    TopUp(FillState(drawn, CountLucky(drawn)), refills).numbers
  }

  /** The top-up never lowers the real number of lucky entries, and its
      counter is never below it. */
  lemma {:induction false} TopUpCounterBoundsLucky(st: FillState, refills: seq<Refill>)
    requires CountLucky(st.numbers) <= st.luckyCount
    ensures CountLucky(st.numbers) <= CountLucky(TopUp(st, refills).numbers)
    ensures CountLucky(TopUp(st, refills).numbers) <= TopUp(st, refills).luckyCount
    decreases |refills|
  {
    if refills != [] && st.luckyCount < |st.numbers| / 5 {
      var r := refills[0];
      var next := RefillStep(st, r);
      var candidate := DrawNumber(r.candidate);
      if IsLuckyNumber(candidate) {
        CountLuckyAfterWrite(st.numbers, r.index % |st.numbers|, candidate);
      }
      TopUpCounterBoundsLucky(next, refills[1..]);
    }
  }

  /** Four lucky 2s followed by twenty-one 6s. */
  function OvercountDraws(): (s: seq<int>)
    ensures |s| == 25
  {
    [2, 2, 2, 2] + seq(21, _ => 6)
  }

  lemma OvercountDrawsHaveFourLucky()
    ensures CountLucky(OvercountDraws()) == 4
  {
    var tail: seq<int> := seq(21, _ => 6);
    SmallLuckyNumbers();
    CountLuckyConstant(tail, 6);
    CountLuckyAppend([2, 2, 2, 2], tail);
    assert [2, 2, 2, 2][..3] == [2, 2, 2];
    assert [2, 2, 2][..2] == [2, 2];
    assert [2, 2][..1] == [2];
    assert [2][..0] == [];
  }

  /** The loop's counter can overstate. One player (25 numbers, so five
      lucky ones wanted) whose draws give four lucky 2s and then 6s; the one
      top-up pass writes a lucky 3 over the 2 in slot 0. The loop stops with
      its counter at 5 while only 4 numbers are lucky, short of the "at least
      20% lucky" the loop is there for. */
  lemma CounterCanOverstateLuckyNumbers(draw: nat -> nat)
    requires Drawn(draw, 25) == OvercountDraws()
    ensures var drawn := Drawn(draw, 25);
            var end := TopUp(FillState(drawn, CountLucky(drawn)), [Refill(0, 2)]);
            end.luckyCount == 5 && CountLucky(end.numbers) == 4 < 25 / 5
    ensures CountLucky(GeneratedNumbers(1, draw, [Refill(0, 2)])) == 4
  {
    var drawn := OvercountDraws();
    OvercountDrawsHaveFourLucky();
    SmallLuckyNumbers();
    assert TopUp(FillState(drawn, 4), [Refill(0, 2)]) == FillState(drawn[0 := 3], 5) by {
      assert DrawNumber(2) == 3;
      assert RefillStep(FillState(drawn, 4), Refill(0, 2)) == FillState(drawn[0 := 3], 5);
      assert [Refill(0, 2)][1..] == [];
    }
    CountLuckyAfterWrite(drawn, 0, 3);
    assert 1 * NUMBERS_PER_PLAYER == 25;
  }

  lemma SmallLuckyNumbers()
    ensures IsLuckyNumber(2) && IsLuckyNumber(3) && !IsLuckyNumber(6)
  {
    assert PrimeByTrialDivision(2);
    assert PrimeByTrialDivision(3);
    assert Divides(2, 6);
    SqrtUnique(6, ISqrt(6), 2);
  }

  lemma SqrtUnique(n: nat, r: nat, k: nat)
    requires r * r <= n < (r + 1) * (r + 1)
    requires k * k <= n < (k + 1) * (k + 1)
    ensures r == k
  {
    SquareMonotone(r + 1, k);
    SquareMonotone(k + 1, r);
  }

  lemma {:induction false} CountLuckyAppend(a: seq<int>, b: seq<int>)
    ensures CountLucky(a + b) == CountLucky(a) + CountLucky(b)
    decreases |b|
  {
    if b != [] {
      assert (a + b)[..|a + b| - 1] == a + b[..|b| - 1];
      CountLuckyAppend(a, b[..|b| - 1]);
    } else {
      assert a + b == a;
    }
  }

  lemma {:induction false} CountLuckyConstant(s: seq<int>, v: int)
    requires forall i :: 0 <= i < |s| ==> s[i] == v
    requires !IsLuckyNumber(v)
    ensures CountLucky(s) == 0
    decreases |s|
  {
    if s != [] {
      CountLuckyConstant(s[..|s| - 1], v);
    }
  }

  /** The counting loop of `generateGameNumbers`: how many entries of the
      array are lucky. */
  method CountLuckyIn(numbers: array<int>) returns (luckyCount: nat)
    ensures luckyCount == CountLucky(numbers[..])
  {
    luckyCount := 0;
    var i := 0;
    while i < numbers.Length
      invariant 0 <= i <= numbers.Length
      invariant luckyCount == CountLucky(numbers[..i])
    {
      assert numbers[..i + 1][..i] == numbers[..i];
      if IsLuckyNumber(numbers[i]) {
        luckyCount := luckyCount + 1;
      }
      i := i + 1;
    }
    assert numbers[..numbers.Length] == numbers[..];
  }

  /** One pass of the top-up loop of `generateGameNumbers`, in place. */
  method RefillPass(numbers: array<int>, luckyCount: nat, r: Refill) returns (luckyCount': nat)
    requires numbers.Length > 0
    modifies numbers
    ensures FillState(numbers[..], luckyCount') == RefillStep(FillState(old(numbers[..]), luckyCount), r)
  {
    var index := r.index % numbers.Length;
    var candidate := DrawNumber(r.candidate);
    luckyCount' := luckyCount;
    if IsLuckyNumber(candidate) {
      numbers[index] := candidate;
      luckyCount' := luckyCount + 1;
    }
  }

  /** `generateGameNumbers`: fills an array of playerCount * NUMBERS_PER_PLAYER
      random numbers in [MIN_NUMBER, MAX_NUMBER], counts the lucky ones, then
      overwrites random slots with lucky candidates until its counter reaches
      a fifth of the total. `draw(k)` is the k-th raw draw of the fill loop. */
  method GenerateGameNumbers(playerCount: nat, draw: nat -> nat, refills: seq<Refill>)
    returns (numbers: array<int>)
    ensures fresh(numbers)
    ensures numbers.Length == playerCount * NUMBERS_PER_PLAYER
    ensures numbers[..] == GeneratedNumbers(playerCount, draw, refills)
  {
    var totalNumbers := playerCount * NUMBERS_PER_PLAYER;
    numbers := new int[totalNumbers];
    DrawAll(numbers, draw);
    var luckyCount: nat := CountLuckyIn(numbers);
    TopUpAll(numbers, luckyCount, refills);
  }

  /** The first loop of `generateGameNumbers`: slot i takes draw i. */
  method DrawAll(numbers: array<int>, draw: nat -> nat)
    modifies numbers
    ensures numbers[..] == Drawn(draw, numbers.Length)
  {
    var i := 0;
    while i < numbers.Length
      invariant 0 <= i <= numbers.Length
      invariant forall j :: 0 <= j < i ==> numbers[j] == DrawNumber(draw(j))
    {
      numbers[i] := DrawNumber(draw(i));
      i := i + 1;
    }
    assert numbers[..] == Drawn(draw, numbers.Length) by { assert numbers[..] == numbers[..numbers.Length]; }
  }

  /** The top-up loop of `generateGameNumbers`, run from the counted lucky
      entries until the counter reaches a fifth of the slots or the refills
      run out. */
  method TopUpAll(numbers: array<int>, luckyCount: nat, refills: seq<Refill>)
    modifies numbers
    ensures numbers[..] == TopUp(FillState(old(numbers[..]), luckyCount), refills).numbers
  {
    var minLuckyNumbers := numbers.Length / 5;
    var count: nat := luckyCount;
    ghost var start := FillState(numbers[..], luckyCount);
    var k := 0;
    while count < minLuckyNumbers && k < |refills|
      invariant 0 <= k <= |refills|
      invariant TopUp(FillState(numbers[..], count), refills[k..]) == TopUp(start, refills)
      decreases |refills| - k
    {
      TopUpUnfold(FillState(numbers[..], count), refills, k);
      count := RefillPass(numbers, count, refills[k]);
      k := k + 1;
    }
    assert k == |refills| ==> refills[k..] == [];
  }

  // ---------------------------------------------------------------------
  // Presentation helpers
  // ---------------------------------------------------------------------

  /** `getDefaultPlayerColor`: the palette entry at `playerIndex %
      PLAYER_COLORS.length`; a negative index that is not a multiple of four
      makes Java's remainder negative and the array access throw. */
  function DefaultPlayerColor(playerIndex: int): (r: Result<Rgb>)
    ensures playerIndex >= 0 ==> r == Ok(PLAYER_COLORS[playerIndex % |PLAYER_COLORS|])
    ensures playerIndex < 0 && playerIndex % |PLAYER_COLORS| == 0 ==> r == Ok(PLAYER_COLORS[0])
    ensures r.Throws? <==> playerIndex < 0 && playerIndex % |PLAYER_COLORS| != 0
  {
    var i := Rem(playerIndex, |PLAYER_COLORS|);
    if i < 0 then Throws(ArrayIndexOutOfBoundsException) else Ok(PLAYER_COLORS[i])
  }

  /** Colours repeat every four players. */
  lemma DefaultPlayerColorCycles(playerIndex: nat)
    ensures DefaultPlayerColor(playerIndex + |PLAYER_COLORS|) == DefaultPlayerColor(playerIndex)
  {
  }

  /** `%02d`: at least two characters, zero-padded; a negative value is
      printed with its sign and needs no padding. */
  function TwoDigits(v: int): (s: string)
    ensures |s| >= 2
    ensures 0 <= v < 100 ==> |s| == 2
  {
    if v < 0 then "-" + Decimal(-v)
    else if v < 10 then "0" + Decimal(v)
    else Decimal(v)
  }

  /** `formatTime`: minutes and seconds as `%02d:%02d`, with Java's
      truncating `/` and `%`. */
  function FormatTime(seconds: int): string
  {
    TwoDigits(Quot(seconds, 60)) + ":" + TwoDigits(Rem(seconds, 60))
  }

  /** Reads "MM:SS" (any number of minute digits) back as seconds. */
  function ParseTime(t: string): int
    requires |t| >= 3
  {
    ParseDecimal(t[..|t| - 3]) * 60 + ParseDecimal(t[|t| - 2..])
  }

  lemma ParseTwoDigits(v: nat)
    ensures ParseDecimal(TwoDigits(v)) == v
  {
    ParseDecimalOfDecimal(v);
    if v < 10 {
      ParseDecimalLeadingZero(Decimal(v));
    }
  }

  /** For a non-negative duration the text is "MM:SS" with seconds in two
      digits, and reading it back gives the duration. */
  lemma FormatTimeRoundTrip(seconds: nat)
    ensures var t := FormatTime(seconds);
            |t| >= 5 && t[|t| - 3] == ':' && ParseTime(t) == seconds
            && (seconds < 6000 ==> |t| == 5)
  {
    var m, r := seconds / 60, seconds % 60;
    assert Quot(seconds, 60) == m && Rem(seconds, 60) == r;
    var t := FormatTime(seconds);
    assert t[..|t| - 3] == TwoDigits(m);
    assert t[|t| - 2..] == TwoDigits(r);
    ParseTwoDigits(m);
    ParseTwoDigits(r);
  }
}
