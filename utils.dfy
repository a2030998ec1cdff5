/**
 * The domain arithmetic of `fumobye/utils.ts`: clamping, JavaScript rounding,
 * the savings accrual checkpoint, the weekly consumption window and the
 * companion's evolution step.
 */
module Utils {
  import opened Wrappers
  import opened Types

  /** Milliseconds in a day. */
  const DAY_MS: int := 24 * 60 * 60 * 1000

  function Max(a: int, b: int): int {
    if a >= b then a else b
  }

  function Min(a: int, b: int): int {
    if a <= b then a else b
  }

  /** `clamp(n, min, max)`: `Math.max(min, Math.min(max, n))`. */
  function Clamp(n: int, lo: int, hi: int): (r: int)
    ensures r >= lo
    ensures lo <= hi ==> r <= hi
    ensures lo <= n <= hi ==> r == n
    ensures n < lo ==> r == lo
    ensures lo <= hi < n ==> r == hi
  {
    Max(lo, Min(hi, n))
  }

  /** JavaScript's `Math.round`: the nearest integer, a half rounded towards +infinity. */
  function Round(x: real): (r: int)
    ensures r as real - 0.5 <= x < r as real + 0.5
  {
    (x + 0.5).Floor
  }

  lemma RoundMonotone(x: real, y: real)
    requires x <= y
    ensures Round(x) <= Round(y)
  {
  }

  lemma RoundOfInt(n: int)
    ensures Round(n as real) == n
  {
  }

  /**
   * The calendar day of a timestamp (`toISODateLocal`), with the local zone
   * taken to be UTC: day `d` covers `[d * DAY_MS, (d + 1) * DAY_MS)`.
   */
  function DayOf(ts: int): (d: int)
    ensures d * DAY_MS <= ts < (d + 1) * DAY_MS
  {
    ts / DAY_MS
  }

  // ---------------------------------------------------------------------------
  // Savings accrual
  // ---------------------------------------------------------------------------

  /** Cents a day's smoking used to cost: packs per day times the pack price, rounded. */
  function DailySpendCents(settings: Settings): (r: nat)
    ensures settings.cigsPerPack <= 0 ==> r == 0
    ensures settings.cigsPerPack > 0 && settings.cigsPerDay * settings.packPriceCents < 0 ==> r == 0
    ensures settings.cigsPerPack > 0 && settings.cigsPerDay * settings.packPriceCents >= 0 ==>
              2 * r * settings.cigsPerPack - settings.cigsPerPack
              <= 2 * settings.cigsPerDay * settings.packPriceCents
              < 2 * r * settings.cigsPerPack + settings.cigsPerPack
  {
    var cigsPerDay, packPriceCents, cigsPerPack := settings.cigsPerDay, settings.packPriceCents, settings.cigsPerPack;
    if cigsPerPack > 0 then
      DailySpendBounds(cigsPerDay, packPriceCents, cigsPerPack);
      Max(0, Round(cigsPerDay as real / cigsPerPack as real * packPriceCents as real))
    else
      // no packs per day: the product is zero
      Max(0, Round(0.0 * packPriceCents as real))
  }

  lemma MulMonotone(a: real, b: real, p: real)
    requires a <= b && p > 0.0
    ensures a * p <= b * p
  {
    assert (b - a) * p >= 0.0;
  }

  lemma MulStrict(a: real, b: real, p: real)
    requires a < b && p > 0.0
    ensures a * p < b * p
  {
    assert (b - a) * p > 0.0;
  }

  lemma ProductAsReal(a: int, b: int)
    ensures (a * b) as real == a as real * b as real
  {
  }

  /** Multiplying `k - 1/2 <= q < k + 1/2` through by `p > 0`. */
  lemma ScaleRoundingBounds(q: real, p: real, k: real, x: real)
    requires p > 0.0 && q * p == x && k - 0.5 <= q < k + 0.5
    ensures 2.0 * (k * p) - p <= 2.0 * x < 2.0 * (k * p) + p
  {
    var kp := k * p;
    var lo := k - 0.5;
    var hi := k + 0.5;
    MulMonotone(lo, q, p);
    MulStrict(q, hi, p);
    assert lo * p <= x;
    assert x < hi * p;
    assert lo * p == kp - 0.5 * p;
    assert hi * p == kp + 0.5 * p;
  }

  lemma DivideThenMultiply(a: real, b: real, p: real)
    requires p != 0.0
    ensures a / p * b * p == a * b
  {
    var u := a / p;
    assert u * p == a;
    calc {
      u * b * p;
      (u * p) * b;
      a * b;
    }
  }

  /** Rounding a quotient `q = x / p` to `r` bounds `r * p` by half of `p`. */
  lemma RoundedQuotientBounds(x: int, p: int, q: real)
    requires p > 0 && q * p as real == x as real
    ensures var r := Max(0, Round(q));
            && (x < 0 ==> r == 0)
            && (x >= 0 ==> 2 * r * p - p <= 2 * x < 2 * r * p + p)
  {
    var k := Round(q);
    if x >= 0 {
      assert q >= 0.0 by {
        if q < 0.0 {
          MulStrict(q, 0.0, p as real);
        }
      }
      ScaleRoundingBounds(q, p as real, k as real, x as real);
      var m := k * p;
      ProductAsReal(k, p);
      assert 2 * m - p <= 2 * x < 2 * m + p;
    } else {
      assert q < 0.0 by {
        if q >= 0.0 {
          MulMonotone(0.0, q, p as real);
        }
      }
    }
  }

  /** Rounding `cigsPerDay / cigsPerPack * packPriceCents` to `r` bounds `r * cigsPerPack` by half a pack. */
  lemma DailySpendBounds(cigsPerDay: int, packPriceCents: int, cigsPerPack: int)
    requires cigsPerPack > 0
    ensures var r := Max(0, Round(cigsPerDay as real / cigsPerPack as real * packPriceCents as real));
            && (cigsPerDay * packPriceCents < 0 ==> r == 0)
            && (cigsPerDay * packPriceCents >= 0 ==>
                  2 * r * cigsPerPack - cigsPerPack <= 2 * cigsPerDay * packPriceCents < 2 * r * cigsPerPack + cigsPerPack)
  {
    var q := cigsPerDay as real / cigsPerPack as real * packPriceCents as real;
    ProductAsReal(cigsPerDay, packPriceCents);
    DivideThenMultiply(cigsPerDay as real, packPriceCents as real, cigsPerPack as real);
    RoundedQuotientBounds(cigsPerDay * packPriceCents, cigsPerPack, q);
  }

  /** `calcRateCentsPerSecond`: the daily spend spread evenly over the 86400 seconds of a day. */
  function RateCentsPerSecond(settings: Settings): (r: real)
    ensures r >= 0.0
    ensures r * 86400.0 == DailySpendCents(settings) as real
  {
    DailySpendCents(settings) as real / 86400.0
  }

  /** Seconds elapsed since the checkpoint; never negative. */
  function ElapsedSeconds(baseAtTs: int, nowTs: int): (s: real)
    ensures s >= 0.0
    ensures nowTs <= baseAtTs ==> s == 0.0
  {
    var d := (nowTs - baseAtTs) as real / 1000.0;
    if d >= 0.0 then d else 0.0
  }

  /**
   * `calcSavedCentsNow`: the checkpoint plus the elapsed time times the rate,
   * rounded, and never negative.
   */
  function SavedCentsNow(baseCents: int, baseAtTs: int, nowTs: int, rateCentsPerSecond: real): (r: nat)
    ensures nowTs <= baseAtTs ==> r == Max(0, baseCents)
    ensures rateCentsPerSecond >= 0.0 ==> r >= baseCents
    ensures baseCents as real + ElapsedSeconds(baseAtTs, nowTs) * rateCentsPerSecond < 0.0 ==> r == 0
    ensures baseCents as real + ElapsedSeconds(baseAtTs, nowTs) * rateCentsPerSecond >= 0.0 ==>
              r as real - 0.5 <= baseCents as real + ElapsedSeconds(baseAtTs, nowTs) * rateCentsPerSecond < r as real + 0.5
  {
    var deltaSeconds := ElapsedSeconds(baseAtTs, nowTs);
    AccrualAtLeastBase(baseCents, deltaSeconds, rateCentsPerSecond);
    Max(0, Round(baseCents as real + deltaSeconds * rateCentsPerSecond))
  }

  lemma AccrualAtLeastBase(baseCents: int, deltaSeconds: real, rate: real)
    requires deltaSeconds >= 0.0
    ensures rate >= 0.0 ==> Round(baseCents as real + deltaSeconds * rate) >= baseCents
  {
    RoundOfInt(baseCents);
    if rate >= 0.0 {
      assert deltaSeconds * rate >= 0.0;
      RoundMonotone(baseCents as real, baseCents as real + deltaSeconds * rate);
    }
  }

  /** With a non-negative rate, savings never go down as time passes. */
  lemma SavedCentsMonotone(baseCents: int, baseAtTs: int, t1: int, t2: int, rate: real)
    requires rate >= 0.0 && t1 <= t2
    ensures SavedCentsNow(baseCents, baseAtTs, t1, rate) <= SavedCentsNow(baseCents, baseAtTs, t2, rate)
  {
    var d1 := ElapsedSeconds(baseAtTs, t1);
    var d2 := ElapsedSeconds(baseAtTs, t2);
    assert d1 <= d2;
    assert d1 * rate <= d2 * rate by {
      assert (d2 - d1) * rate >= 0.0;
    }
    RoundMonotone(baseCents as real + d1 * rate, baseCents as real + d2 * rate);
  }

  /**
   * Re-anchoring the checkpoint at `t` (the new base is the savings at `t`,
   * taken at `t`) shows the same amount at `t`: no jump.
   */
  lemma ReanchorIsSeamless(baseCents: int, baseAtTs: int, t: int, rate: real)
    ensures var b := SavedCentsNow(baseCents, baseAtTs, t, rate);
            SavedCentsNow(b, t, t, rate) == b
  {
  }

  /** 20 a day at 20 a pack and 5.00 a pack: one day after the checkpoint, 500 cents are saved. */
  lemma OneDayAtDefaultSettings(t0: int)
    ensures var s := Settings(20, 500, 20, None, EUR, false, None, None);
            DailySpendCents(s) == 500 &&
            SavedCentsNow(0, t0, t0 + DAY_MS, RateCentsPerSecond(s)) == 500
  {
    var s := Settings(20, 500, 20, None, EUR, false, None, None);
    assert DailySpendCents(s) == 500;
    assert ElapsedSeconds(t0, t0 + DAY_MS) == 86400.0;
    assert 86400.0 * RateCentsPerSecond(s) == 500.0;
    RoundOfInt(500);
  }

  // ---------------------------------------------------------------------------
  // Weekly consumption
  // ---------------------------------------------------------------------------

  /** The count logged for a day; a day missing from the record counts 0. */
  function CountOn(cigarettesSmoked: map<int, int>, day: int): int {
    if day in cigarettesSmoked then cigarettesSmoked[day] else 0
  }

  datatype DayCount = DayCount(date: int, count: int)

  datatype WeeklyStats = WeeklyStats(today: int, weekTotal: int, weekAverage: real, weekDays: seq<DayCount>)

  function SumCounts(days: seq<DayCount>): int {
    if days == [] then 0 else days[0].count + SumCounts(days[1..])
  }

  /**
   * `getWeeklyStats`: the seven days ending today, oldest first, with their
   * counts, their total and average, and today's count.
   */
  method GetWeeklyStats(cigarettesSmoked: map<int, int>, today: int) returns (stats: WeeklyStats)
    ensures stats.today == CountOn(cigarettesSmoked, today)
    ensures |stats.weekDays| == 7
    ensures forall k :: 0 <= k < 7 ==>
              stats.weekDays[k] == DayCount(today - 6 + k, CountOn(cigarettesSmoked, today - 6 + k))
    ensures stats.weekTotal == SumCounts(stats.weekDays)
    ensures stats.weekAverage * 7.0 == stats.weekTotal as real
  {
    var weekTotal := 0;
    var weekDays: seq<DayCount> := [];
    for i := 0 to 7
      invariant |weekDays| == i
      invariant forall k :: 0 <= k < i ==>
                  weekDays[k] == DayCount(today - i + 1 + k, CountOn(cigarettesSmoked, today - i + 1 + k))
      invariant weekTotal == SumCounts(weekDays)
    {
      var date := today - i;
      var count := CountOn(cigarettesSmoked, date);
      weekTotal := weekTotal + count;
      assert ([DayCount(date, count)] + weekDays)[1..] == weekDays;
      weekDays := [DayCount(date, count)] + weekDays;
    }
    stats := WeeklyStats(CountOn(cigarettesSmoked, today), weekTotal, weekTotal as real / 7.0, weekDays);
  }

  // ---------------------------------------------------------------------------
  // Companion evolution
  // ---------------------------------------------------------------------------

  /** Position of a level in the order enfermo < bebeSano < deporte < rico < pulmonDiamante < dios. */
  function LevelIndex(l: Level): (i: nat)
    ensures i < 6
  {
    match l
    case Enfermo => 0
    case BebeSano => 1
    case Deporte => 2
    case Rico => 3
    case PulmonDiamante => 4
    case Dios => 5
  }

  function LevelAt(i: nat): (l: Level)
    requires i < 6
    ensures LevelIndex(l) == i
  {
    [Enfermo, BebeSano, Deporte, Rico, PulmonDiamante, Dios][i]
  }

  lemma LevelIndexInjective(a: Level, b: Level)
    ensures LevelIndex(a) == LevelIndex(b) ==> a == b
  {
  }

  /** Successful days a level asks for before the companion moves up. */
  function TargetDen(l: Level): (d: int)
    ensures d >= 3
    ensures LevelIndex(l) <= 2 <==> d == 3
  {
    match l
    case Enfermo => 3
    case BebeSano => 3
    case Deporte => 3
    case Rico => 5
    case PulmonDiamante => 10
    case Dios => 15
  }

  /** `c / baseline * 100 <= percent`, with a baseline of 0 or less counting as 100%. */
  predicate WithinPercent(c: int, baseline: int, percent: int) {
    if baseline > 0 then 100 * c <= percent * baseline else 100 <= percent
  }

  /** Whether yesterday's count meets the level's goal against the daily baseline. */
  predicate DailySuccess(level: Level, cigsYesterday: int, mediaCigs: int)
    ensures DailySuccess(level, cigsYesterday, mediaCigs) && mediaCigs > 0 ==> cigsYesterday < mediaCigs
  {
    match level
    case Enfermo => cigsYesterday < mediaCigs
    case BebeSano => cigsYesterday < mediaCigs
    case Deporte => WithinPercent(cigsYesterday, mediaCigs, 70)
    case Rico => WithinPercent(cigsYesterday, mediaCigs, 50)
    case PulmonDiamante => WithinPercent(cigsYesterday, mediaCigs, 25)
    case Dios => cigsYesterday == 0
  }

  datatype EvolutionResult = EvolutionResult(
    newLevel: Level,
    newProgressNumerator: int,
    newProgressDenominator: int,
    newStreakDays: int,
    newLastSuccessDate: Option<int>)

  /** The denominator in use: a stored 1 or less stands for the level's target. */
  function CurrentDen(e: Evolution): (d: int)
    ensures d >= 2
  {
    if e.progressDenominator <= 1 then TargetDen(e.currentLevel) else e.progressDenominator
  }

  /** Today's count has reached a positive baseline: the immediate demotion rule applies. */
  predicate OverBaselineToday(cigarettesSmoked: map<int, int>, cigsPerDay: int, today: int) {
    CountOn(cigarettesSmoked, today) >= cigsPerDay && cigsPerDay > 0
  }

  /**
   * `calculateFumiEvolution`. First the immediate rule: once today's count
   * reaches the baseline, the companion drops one level (nothing changes at
   * the lowest level but the denominator's coercion) and the call ends there.
   * Otherwise, on the first call of a new day, yesterday is judged against the
   * level's goal: a success adds one to the numerator and the streak and may
   * promote, a failure takes one off the numerator (not below 0) and clears
   * the streak. A result denominator of 1 is replaced by the target of the
   * level the call started from.
   */
  function CalculateFumiEvolution(e: Evolution, cigarettesSmoked: map<int, int>, cigsPerDay: int, today: int)
    : (r: EvolutionResult)
    ensures LevelIndex(e.currentLevel) - 1 <= LevelIndex(r.newLevel) <= LevelIndex(e.currentLevel) + 1
    ensures r.newStreakDays in {0, e.streakDays, e.streakDays + 1}
    ensures r.newProgressDenominator == 1 || r.newProgressDenominator >= 2
    ensures LevelIndex(r.newLevel) < LevelIndex(e.currentLevel) ==>
              OverBaselineToday(cigarettesSmoked, cigsPerDay, today)
    ensures LevelIndex(r.newLevel) > LevelIndex(e.currentLevel) ==>
              e.lastCheckedDate != today && DailySuccess(e.currentLevel, CountOn(cigarettesSmoked, today - 1), cigsPerDay)
  {
    var targetDen := TargetDen(e.currentLevel);
    var currentDen := CurrentDen(e);
    var isDailyCheck := e.lastCheckedDate != today;
    var cigsToday := CountOn(cigarettesSmoked, today);
    var mediaCigs := cigsPerDay;
    if cigsToday >= mediaCigs && mediaCigs > 0 then
      if e.currentLevel != Enfermo then
        EvolutionResult(LevelAt(LevelIndex(e.currentLevel) - 1), 0, 1, 0, None)
      else
        EvolutionResult(e.currentLevel, e.progressNumerator, currentDen, e.streakDays, e.lastSuccessDate)
    else
      var stepped :=
        if isDailyCheck then DailyStep(e, currentDen, cigarettesSmoked, mediaCigs, today)
        else EvolutionResult(e.currentLevel, e.progressNumerator, currentDen, e.streakDays, e.lastSuccessDate);
      stepped.(newProgressDenominator :=
                 if stepped.newProgressDenominator == 1 then targetDen else stepped.newProgressDenominator)
  }

  /**
   * The once-a-day part of the step: judge yesterday (`today - 1`). On a
   * promotion the denominator comes back as 1.
   */
  function DailyStep(e: Evolution, currentDen: int, cigarettesSmoked: map<int, int>, mediaCigs: int, today: int)
    : (r: EvolutionResult)
    requires currentDen >= 2
    ensures r.newProgressDenominator == 1 || r.newProgressDenominator == currentDen
  {
    var yesterday := today - 1;
    var cigsYesterday := CountOn(cigarettesSmoked, yesterday);
    if DailySuccess(e.currentLevel, cigsYesterday, mediaCigs) then
      var numerator := e.progressNumerator + 1;
      if numerator >= currentDen then
        var index := LevelIndex(e.currentLevel);
        var level := if index < 5 then LevelAt(index + 1) else e.currentLevel;
        EvolutionResult(level, 0, 1, e.streakDays + 1, Some(yesterday))
      else
        EvolutionResult(e.currentLevel, numerator, currentDen, e.streakDays + 1, Some(yesterday))
    else
      var numerator := if e.progressNumerator > 0 then e.progressNumerator - 1 else e.progressNumerator;
      EvolutionResult(e.currentLevel, numerator, currentDen, 0, e.lastSuccessDate)
  }
}
