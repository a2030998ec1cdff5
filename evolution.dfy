/**
 * Properties of the companion's evolution step (`calculateFumiEvolution` in
 * `fumobye/utils.ts`), one lemma per rule.
 */
module EvolutionLaws {
  import opened Wrappers
  import opened Types
  import opened Utils

  /**
   * Once today's count reaches a positive baseline, a companion above the
   * lowest level drops exactly one level with its progress, streak and last
   * success cleared; the daily step does not run, whatever the date.
   */
  lemma ImmediateDemotion(e: Evolution, smoked: map<int, int>, cigsPerDay: int, today: int)
    requires OverBaselineToday(smoked, cigsPerDay, today) && e.currentLevel != Enfermo
    ensures var r := CalculateFumiEvolution(e, smoked, cigsPerDay, today);
            && LevelIndex(r.newLevel) == LevelIndex(e.currentLevel) - 1
            && r.newProgressNumerator == 0 && r.newProgressDenominator == 1
            && r.newStreakDays == 0 && r.newLastSuccessDate == None
  {
  }

  /** At the lowest level the immediate rule keeps the numerator, streak and last success. */
  lemma NoDemotionBelowEnfermo(e: Evolution, smoked: map<int, int>, cigsPerDay: int, today: int)
    requires OverBaselineToday(smoked, cigsPerDay, today) && e.currentLevel == Enfermo
    ensures CalculateFumiEvolution(e, smoked, cigsPerDay, today)
            == EvolutionResult(Enfermo, e.progressNumerator, CurrentDen(e), e.streakDays, e.lastSuccessDate)
  {
  }

  /**
   * Already checked today and under the baseline: nothing moves; only a
   * stored denominator of 1 or less is replaced by the level's target.
   */
  lemma SameDayHolds(e: Evolution, smoked: map<int, int>, cigsPerDay: int, today: int)
    requires !OverBaselineToday(smoked, cigsPerDay, today) && e.lastCheckedDate == today
    ensures var r := CalculateFumiEvolution(e, smoked, cigsPerDay, today);
            && r.newLevel == e.currentLevel && r.newProgressNumerator == e.progressNumerator
            && r.newStreakDays == e.streakDays && r.newLastSuccessDate == e.lastSuccessDate
            && (e.progressDenominator > 1 ==> r.newProgressDenominator == e.progressDenominator)
            && (e.progressDenominator <= 1 ==> r.newProgressDenominator == TargetDen(e.currentLevel))
  {
  }

  /** A successful yesterday on a new day below the target: one more step of progress and of streak. */
  lemma DailySuccessProgresses(e: Evolution, smoked: map<int, int>, cigsPerDay: int, today: int)
    requires !OverBaselineToday(smoked, cigsPerDay, today) && e.lastCheckedDate != today
    requires DailySuccess(e.currentLevel, CountOn(smoked, today - 1), cigsPerDay)
    requires e.progressNumerator + 1 < CurrentDen(e)
    ensures CalculateFumiEvolution(e, smoked, cigsPerDay, today)
            == EvolutionResult(e.currentLevel, e.progressNumerator + 1, CurrentDen(e), e.streakDays + 1, Some(today - 1))
  {
  }

  /**
   * A successful yesterday that reaches the denominator promotes one level
   * (the top level stays), zeroes the numerator, and hands back the target
   * of the level being left, not of the level reached.
   */
  lemma DailySuccessPromotes(e: Evolution, smoked: map<int, int>, cigsPerDay: int, today: int)
    requires !OverBaselineToday(smoked, cigsPerDay, today) && e.lastCheckedDate != today
    requires DailySuccess(e.currentLevel, CountOn(smoked, today - 1), cigsPerDay)
    requires e.progressNumerator + 1 >= CurrentDen(e)
    ensures var r := CalculateFumiEvolution(e, smoked, cigsPerDay, today);
            && LevelIndex(r.newLevel) == (if e.currentLevel == Dios then 5 else LevelIndex(e.currentLevel) + 1)
            && r.newProgressNumerator == 0
            && r.newProgressDenominator == TargetDen(e.currentLevel)
            && r.newStreakDays == e.streakDays + 1 && r.newLastSuccessDate == Some(today - 1)
  {
  }

  /** A failed yesterday takes one off a positive numerator, clears the streak and keeps the level and last success. */
  lemma DailyFailureRegresses(e: Evolution, smoked: map<int, int>, cigsPerDay: int, today: int)
    requires !OverBaselineToday(smoked, cigsPerDay, today) && e.lastCheckedDate != today
    requires !DailySuccess(e.currentLevel, CountOn(smoked, today - 1), cigsPerDay)
    ensures var r := CalculateFumiEvolution(e, smoked, cigsPerDay, today);
            && r.newLevel == e.currentLevel
            && r.newProgressNumerator == (if e.progressNumerator > 0 then e.progressNumerator - 1 else e.progressNumerator)
            && r.newProgressDenominator == CurrentDen(e)
            && r.newStreakDays == 0 && r.newLastSuccessDate == e.lastSuccessDate
  {
  }

  /**
   * The goals in whole numbers, for a positive baseline `b` and yesterday's
   * count `c`: under `b` for the first two levels, at most 70%, 50% and 25%
   * of `b` for the next three, and none at all for the top level.
   */
  lemma SuccessThresholds(level: Level, c: int, b: int)
    requires b > 0
    ensures DailySuccess(level, c, b) <==>
              match level
              case Enfermo => c < b
              case BebeSano => c < b
              case Deporte => 10 * c <= 7 * b
              case Rico => 2 * c <= b
              case PulmonDiamante => 4 * c <= b
              case Dios => c == 0
  {
  }

  /**
   * With a baseline of 0 no day with a non-negative count is a success
   * below the top level: the percentage goals read as 100%, and the first
   * two levels ask for fewer than 0.
   */
  lemma ZeroBaselineNeverSucceeds(level: Level, c: int)
    requires c >= 0 && level != Dios
    ensures !DailySuccess(level, c, 0)
  {
  }

  /**
   * The progress fraction stays proper: a numerator in `[0, den)` for the
   * denominator in use comes back in `[0, den')` for the one in use next.
   */
  lemma NumeratorStaysInRange(e: Evolution, smoked: map<int, int>, cigsPerDay: int, today: int)
    requires 0 <= e.progressNumerator < CurrentDen(e)
    ensures var r := CalculateFumiEvolution(e, smoked, cigsPerDay, today);
            var den := if r.newProgressDenominator <= 1 then TargetDen(r.newLevel) else r.newProgressDenominator;
            0 <= r.newProgressNumerator < den
  {
  }

  /**
   * The promotion as the comment beside it intends: the denominator left at
   * 1 on a promotion is to be set up by the new level, so the stored value is
   * the target of the level reached. Every other step is the code's own.
   */
  function CalculateFumiEvolutionCorrected(e: Evolution, smoked: map<int, int>, cigsPerDay: int, today: int)
    : (r: EvolutionResult)
    ensures var w := CalculateFumiEvolution(e, smoked, cigsPerDay, today);
            && r.newLevel == w.newLevel && r.newProgressNumerator == w.newProgressNumerator
            && r.newStreakDays == w.newStreakDays && r.newLastSuccessDate == w.newLastSuccessDate
            && (LevelIndex(r.newLevel) <= LevelIndex(e.currentLevel) ==> r.newProgressDenominator == w.newProgressDenominator)
  {
    var w := CalculateFumiEvolution(e, smoked, cigsPerDay, today);
    if LevelIndex(w.newLevel) > LevelIndex(e.currentLevel) then w.(newProgressDenominator := TargetDen(w.newLevel)) else w
  }

  /** As written: deporte promoted to rico keeps deporte's 3 as its denominator, though rico asks for 5. */
  lemma RicoInheritsDeporteTarget()
    ensures var r := CalculateFumiEvolution(Evolution(Deporte, 2, 3, 10, 2, None), map[], 20, 11);
            && r.newLevel == Rico && r.newProgressDenominator == 3 && TargetDen(Rico) == 5
  {
    DailySuccessPromotes(Evolution(Deporte, 2, 3, 10, 2, None), map[], 20, 11);
  }

  /** Corrected: every promotion below the top leaves the new level asking for its own target. */
  lemma CorrectedPromotionAsksNewTarget(e: Evolution, smoked: map<int, int>, cigsPerDay: int, today: int)
    requires !OverBaselineToday(smoked, cigsPerDay, today) && e.lastCheckedDate != today
    requires DailySuccess(e.currentLevel, CountOn(smoked, today - 1), cigsPerDay)
    requires e.progressNumerator + 1 >= CurrentDen(e) && e.currentLevel != Dios
    ensures var r := CalculateFumiEvolutionCorrected(e, smoked, cigsPerDay, today);
            && LevelIndex(r.newLevel) == LevelIndex(e.currentLevel) + 1 && r.newProgressNumerator == 0
            && r.newProgressDenominator == TargetDen(r.newLevel)
  {
    DailySuccessPromotes(e, smoked, cigsPerDay, today);
  }

  /** Corrected, on the same input: rico asks for its own 5 days. */
  lemma RicoAsksFiveCorrected()
    ensures var r := CalculateFumiEvolutionCorrected(Evolution(Deporte, 2, 3, 10, 2, None), map[], 20, 11);
            r.newLevel == Rico && r.newProgressDenominator == 5
  {
    RicoInheritsDeporteTarget();
  }
}
