/**
 * The app's single store (`fumobye/store.tsx`): the initial record, the
 * migration of a loaded record, the values derived from the record and the
 * clock, the daily evolution check, and the store object whose actions
 * update the record in place.
 *
 * `Date.now()` is a parameter (`ts`) of every action that reads it; the
 * React scheduling of effects is modelled by explicit calls (`Tick`).
 */
module Store {
  import opened Wrappers
  import opened Types
  import opened Utils
  import opened EvolutionLaws

  // ---------------------------------------------------------------------------
  // Initial record and loading
  // ---------------------------------------------------------------------------

  /** The companion of a fresh record: lowest level, nothing earned, checked today. */
  function InitialEvolution(nowTs: int): (e: Evolution)
    ensures e.currentLevel == Enfermo && e.progressNumerator == 0 && e.streakDays == 0
    ensures e.lastCheckedDate == DayOf(nowTs) && e.lastSuccessDate == None
    ensures CurrentDen(e) == 3
  {
    Evolution(Enfermo, 0, 1, DayOf(nowTs), 0, None)
  }

  /** `initialState`: default settings (20 a day, 5.00 a pack of 20), all counters at 0, clocks at `nowTs`. */
  function InitialState(nowTs: int): (s: State)
    ensures s.schemaVersion == 2 && !s.onboardingCompleted && !s.isLoggedIn && s.email == None
    ensures s.createdAtTs == nowTs && s.progress.baseAtTs == nowTs && s.progress.smokeFreeStartTs == nowTs
    ensures DailySpendCents(s.settings) == 500
    ensures s.progress.cigarettesSmoked == map[] && s.progress.ownedPets == [] && !s.premium.active
    ensures s.progress.fumiEvolution == InitialEvolution(nowTs)
  {
    State(
      2, false, nowTs, false, None,
      Settings(20, 500, 20, None, EUR, false, None, None),
      Progress(0, nowTs, nowTs, 0, 0, 0, map[], 0, InitialEvolution(nowTs), [], None),
      Checkin(None, None),
      Premium(false))
  }

  /*
   * A record as read back from storage. Every field may be missing; a
   * missing field and a `null` are both `None`. Dates are day numbers.
   */
  datatype RawSettings = RawSettings(
    cigsPerDay: Option<int>,
    packPriceCents: Option<int>,
    cigsPerPack: Option<int>,
    reason: Option<Reason>,
    currency: Option<Currency>,
    motivationBeast: Option<bool>,
    age: Option<int>,
    yearsSmoking: Option<int>)

  datatype RawEvolution = RawEvolution(
    currentLevel: Option<Level>,
    progressNumerator: Option<int>,
    progressDenominator: Option<int>,
    lastCheckedDate: Option<int>,
    streakDays: Option<int>,
    lastSuccessDate: Option<int>)

  datatype RawProgress = RawProgress(
    baseCents: Option<int>,
    baseAtTs: Option<int>,
    smokeFreeStartTs: Option<int>,
    lastMilestoneCents: Option<int>,
    bestStreakDays: Option<int>,
    caprichosSpentCents: Option<int>,
    cigarettesSmoked: Option<map<int, int>>,
    cigarettesSpentCents: Option<int>,
    fumiEvolution: Option<RawEvolution>,
    ownedPets: Option<seq<string>>,
    activePetId: Option<string>)

  datatype RawCheckin = RawCheckin(lastCheckinDate: Option<int>, lastMood: Option<Mood>)

  datatype RawPremium = RawPremium(active: Option<bool>)

  datatype RawState = RawState(
    schemaVersion: Option<int>,
    onboardingCompleted: Option<bool>,
    createdAtTs: Option<int>,
    isLoggedIn: Option<bool>,
    email: Option<string>,
    settings: Option<RawSettings>,
    progress: Option<RawProgress>,
    checkin: Option<RawCheckin>,
    premium: Option<RawPremium>)

  const NoSettings := RawSettings(None, None, None, None, None, None, None, None)
  const NoEvolution := RawEvolution(None, None, None, None, None, None)
  const NoProgress := RawProgress(None, None, None, None, None, None, None, None, None, None, None)

  /** The stored companion, or an all-missing one (`raw?.progress?.fumiEvolution?.…`). */
  function RawEvolutionOf(raw: RawState): RawEvolution {
    match raw.progress
    case None => NoEvolution
    case Some(p) => p.fumiEvolution.GetOr(NoEvolution)
  }

  /** A stored field that is present is the value loaded. */
  predicate Kept<T(==)>(stored: Option<T>, loaded: T) {
    stored.Some? ==> loaded == stored.value
  }

  /**
   * `{...fallback.settings, ...raw.settings}`: stored fields over the
   * defaults; for a record of an old version, the settings added later are
   * defaulted once more.
   */
  function LoadSettings(rs: RawSettings, fs: Settings, oldVersion: bool): (t: Settings)
    requires fs.reason == None && fs.age == None && fs.yearsSmoking == None
    ensures Kept(rs.cigsPerDay, t.cigsPerDay) && Kept(rs.packPriceCents, t.packPriceCents)
    ensures Kept(rs.cigsPerPack, t.cigsPerPack) && Kept(rs.currency, t.currency)
    ensures Kept(rs.motivationBeast, t.motivationBeast)
    ensures t.reason == rs.reason && t.age == rs.age && t.yearsSmoking == rs.yearsSmoking
    ensures rs == NoSettings && fs.currency == EUR && !fs.motivationBeast ==> t == fs
  {
    var t := Settings(
      rs.cigsPerDay.GetOr(fs.cigsPerDay), rs.packPriceCents.GetOr(fs.packPriceCents),
      rs.cigsPerPack.GetOr(fs.cigsPerPack), rs.reason, rs.currency.GetOr(fs.currency),
      rs.motivationBeast.GetOr(fs.motivationBeast), rs.age, rs.yearsSmoking);
    if oldVersion then
      t.(currency := rs.currency.GetOr(EUR), motivationBeast := rs.motivationBeast.GetOr(false),
         age := rs.age, yearsSmoking := rs.yearsSmoking)
    else
      t
  }

  /** The companion: each field is the stored one or its own default. */
  function LoadEvolution(re: RawEvolution, nowTs: int): (e: Evolution)
    ensures Kept(re.currentLevel, e.currentLevel) && (re.currentLevel.None? ==> e.currentLevel == Enfermo)
    ensures Kept(re.progressNumerator, e.progressNumerator) && (re.progressNumerator.None? ==> e.progressNumerator == 0)
    ensures Kept(re.progressDenominator, e.progressDenominator) && (re.progressDenominator.None? ==> e.progressDenominator == 1)
    ensures Kept(re.lastCheckedDate, e.lastCheckedDate) && (re.lastCheckedDate.None? ==> e.lastCheckedDate == DayOf(nowTs))
    ensures Kept(re.streakDays, e.streakDays) && (re.streakDays.None? ==> e.streakDays == 0)
    ensures e.lastSuccessDate == re.lastSuccessDate
  {
    Evolution(
      re.currentLevel.GetOr(Enfermo), re.progressNumerator.GetOr(0), re.progressDenominator.GetOr(1),
      re.lastCheckedDate.GetOr(DayOf(nowTs)), re.streakDays.GetOr(0), re.lastSuccessDate)
  }

  /**
   * `{...fallback.progress, ...raw.progress, …}` with the companion and the
   * collections defaulted; for a record of an old version the best streak is
   * defaulted once more.
   */
  function LoadProgress(rp: RawProgress, re: RawEvolution, fp: Progress, nowTs: int, oldVersion: bool): (p: Progress)
    requires fp.bestStreakDays == 0 && fp.activePetId == None
    ensures Kept(rp.baseCents, p.baseCents) && Kept(rp.baseAtTs, p.baseAtTs)
    ensures Kept(rp.smokeFreeStartTs, p.smokeFreeStartTs) && Kept(rp.lastMilestoneCents, p.lastMilestoneCents)
    ensures Kept(rp.bestStreakDays, p.bestStreakDays) && (rp.bestStreakDays.None? ==> p.bestStreakDays == 0)
    ensures Kept(rp.caprichosSpentCents, p.caprichosSpentCents)
    ensures Kept(rp.cigarettesSmoked, p.cigarettesSmoked) && Kept(rp.cigarettesSpentCents, p.cigarettesSpentCents)
    ensures Kept(rp.ownedPets, p.ownedPets) && p.activePetId == rp.activePetId
    ensures p.fumiEvolution == LoadEvolution(re, nowTs)
    ensures (rp == NoProgress && fp.cigarettesSmoked == map[] && fp.cigarettesSpentCents == 0 && fp.ownedPets == []
             && fp.fumiEvolution == LoadEvolution(re, nowTs)) ==> p == fp
  {
    var p := Progress(
      rp.baseCents.GetOr(fp.baseCents), rp.baseAtTs.GetOr(fp.baseAtTs),
      rp.smokeFreeStartTs.GetOr(fp.smokeFreeStartTs), rp.lastMilestoneCents.GetOr(fp.lastMilestoneCents),
      rp.bestStreakDays.GetOr(fp.bestStreakDays), rp.caprichosSpentCents.GetOr(fp.caprichosSpentCents),
      rp.cigarettesSmoked.GetOr(map[]), rp.cigarettesSpentCents.GetOr(0), LoadEvolution(re, nowTs),
      rp.ownedPets.GetOr([]), rp.activePetId);
    if oldVersion then p.(bestStreakDays := rp.bestStreakDays.GetOr(0)) else p
  }

  /**
   * `normalizeLoadedState`: every part is the initial record overridden by
   * the fields that were stored; the companion's fields default one by one;
   * `createdAtTs` of 0 and an empty email count as missing; the result is
   * always version 2. A record of version 1 (or without a version) also gets
   * the later settings and the best streak defaulted.
   */
  function NormalizeLoadedState(raw: RawState, nowTs: int): (s: State)
    ensures s.schemaVersion == 2
    ensures s.createdAtTs == (if raw.createdAtTs.None? || raw.createdAtTs == Some(0) then nowTs else raw.createdAtTs.value)
    ensures s.email == (if raw.email == Some("") then None else raw.email)
    ensures s.onboardingCompleted <==> raw.onboardingCompleted == Some(true)
    ensures s.isLoggedIn <==> raw.isLoggedIn == Some(true)
    ensures s.progress.fumiEvolution == LoadEvolution(RawEvolutionOf(raw), nowTs)
    ensures (raw.progress.None? || raw.progress.value.bestStreakDays.None?) ==> s.progress.bestStreakDays == 0
    ensures var rs, t := raw.settings.GetOr(NoSettings), s.settings;
            && Kept(rs.cigsPerDay, t.cigsPerDay) && Kept(rs.packPriceCents, t.packPriceCents)
            && Kept(rs.cigsPerPack, t.cigsPerPack) && Kept(rs.currency, t.currency)
            && Kept(rs.motivationBeast, t.motivationBeast)
            && t.reason == rs.reason && t.age == rs.age && t.yearsSmoking == rs.yearsSmoking
    ensures var rp, p := raw.progress.GetOr(NoProgress), s.progress;
            && Kept(rp.baseCents, p.baseCents) && Kept(rp.baseAtTs, p.baseAtTs)
            && Kept(rp.smokeFreeStartTs, p.smokeFreeStartTs) && Kept(rp.lastMilestoneCents, p.lastMilestoneCents)
            && Kept(rp.bestStreakDays, p.bestStreakDays) && Kept(rp.caprichosSpentCents, p.caprichosSpentCents)
            && Kept(rp.cigarettesSmoked, p.cigarettesSmoked) && Kept(rp.cigarettesSpentCents, p.cigarettesSpentCents)
            && Kept(rp.ownedPets, p.ownedPets) && p.activePetId == rp.activePetId
    ensures raw.checkin.Some? ==> s.checkin.lastCheckinDate == raw.checkin.value.lastCheckinDate
                                  && s.checkin.lastMood == raw.checkin.value.lastMood
    ensures raw.premium.Some? ==> Kept(raw.premium.value.active, s.premium.active)
    ensures raw.checkin.None? ==> s.checkin == InitialState(nowTs).checkin
    ensures (raw.premium.None? || raw.premium.value.active.None?) ==> !s.premium.active
    ensures raw.progress.None? ==> s.progress == InitialState(nowTs).progress
    ensures raw.settings.None? ==> s.settings == InitialState(nowTs).settings
  {
    var fallback := InitialState(nowTs);
    var rs := raw.settings.GetOr(NoSettings);
    var rp := raw.progress.GetOr(NoProgress);
    var oldVersion := raw.schemaVersion == Some(1) || raw.schemaVersion.None?;
    var settings := LoadSettings(rs, fallback.settings, oldVersion);
    var progress := LoadProgress(rp, RawEvolutionOf(raw), fallback.progress, nowTs, oldVersion);
    var checkin := match raw.checkin
      case None => fallback.checkin
      case Some(c) => Checkin(c.lastCheckinDate, c.lastMood);
    var premium := match raw.premium
      case None => fallback.premium
      case Some(p) => Premium(p.active.GetOr(fallback.premium.active));
    var createdAtTs := match raw.createdAtTs
      case Some(t) => if t != 0 then t else nowTs
      case None => nowTs;
    var email := match raw.email
      case Some(m) => if m != "" then raw.email else None
      case None => None;
    State(2, raw.onboardingCompleted.GetOr(false), createdAtTs,
          raw.isLoggedIn.GetOr(false), email, settings, progress, checkin, premium)
  }

  /**
   * The extra defaults for a record of version 1 (or without a version) are
   * the defaults every record gets, so the version read changes nothing.
   */
  lemma OldVersionLoadsLikeNew(raw: RawState, nowTs: int)
    ensures NormalizeLoadedState(raw.(schemaVersion := Some(1)), nowTs) == NormalizeLoadedState(raw.(schemaVersion := Some(2)), nowTs)
    ensures NormalizeLoadedState(raw.(schemaVersion := None), nowTs) == NormalizeLoadedState(raw.(schemaVersion := Some(2)), nowTs)
  {
  }

  /** The record as it is written to storage: every field present. */
  function ToRaw(s: State): RawState {
    var e := s.progress.fumiEvolution;
    var p := s.progress;
    var t := s.settings;
    RawState(
      Some(s.schemaVersion), Some(s.onboardingCompleted), Some(s.createdAtTs), Some(s.isLoggedIn), s.email,
      Some(RawSettings(Some(t.cigsPerDay), Some(t.packPriceCents), Some(t.cigsPerPack), t.reason,
                       Some(t.currency), Some(t.motivationBeast), t.age, t.yearsSmoking)),
      Some(RawProgress(Some(p.baseCents), Some(p.baseAtTs), Some(p.smokeFreeStartTs), Some(p.lastMilestoneCents),
                       Some(p.bestStreakDays), Some(p.caprichosSpentCents), Some(p.cigarettesSmoked),
                       Some(p.cigarettesSpentCents),
                       Some(RawEvolution(Some(e.currentLevel), Some(e.progressNumerator), Some(e.progressDenominator),
                                         Some(e.lastCheckedDate), Some(e.streakDays), e.lastSuccessDate)),
                       Some(p.ownedPets), p.activePetId)),
      Some(RawCheckin(s.checkin.lastCheckinDate, s.checkin.lastMood)),
      Some(RawPremium(Some(s.premium.active))))
  }

  /**
   * Saving and loading again gives back the same record, at any load time,
   * for a version-2 record whose creation time is not 0 and whose email is
   * not empty (those two read back as missing).
   */
  lemma SaveThenLoad(s: State, nowTs: int)
    requires s.schemaVersion == 2 && s.createdAtTs != 0 && s.email != Some("")
    ensures NormalizeLoadedState(ToRaw(s), nowTs) == s
  {
  }

  /** A fresh record (created at any time but 0) survives saving and loading. */
  lemma InitialStateSurvivesReload(t: int, nowTs: int)
    requires t != 0
    ensures NormalizeLoadedState(ToRaw(InitialState(t)), nowTs) == InitialState(t)
  {
    SaveThenLoad(InitialState(t), nowTs);
  }

  /** Loading nothing at all gives the initial record of the load time. */
  lemma EmptyRecordLoadsAsInitial(nowTs: int)
    ensures NormalizeLoadedState(RawState(None, None, None, None, None, None, None, None, None), nowTs)
            == InitialState(nowTs)
  {
  }

  // ---------------------------------------------------------------------------
  // Derived values
  // ---------------------------------------------------------------------------

  /** Gross savings at `ts`: the checkpoint plus the accrual since, at the current settings' rate. */
  function GrossSavedCents(s: State, ts: int): (r: nat)
    ensures r >= s.progress.baseCents
    ensures ts <= s.progress.baseAtTs ==> r == Max(0, s.progress.baseCents)
  {
    SavedCentsNow(s.progress.baseCents, s.progress.baseAtTs, ts, RateCentsPerSecond(s.settings))
  }

  /** `savedCentsNow`: gross savings less what was spent on cigarettes, not below 0. */
  function NetSavedCents(s: State, ts: int): (r: nat)
    ensures r >= GrossSavedCents(s, ts) - s.progress.cigarettesSpentCents
    ensures r == 0 || r == GrossSavedCents(s, ts) - s.progress.cigarettesSpentCents
    ensures s.progress.cigarettesSpentCents >= 0 ==> r <= GrossSavedCents(s, ts)
  {
    Max(0, GrossSavedCents(s, ts) - s.progress.cigarettesSpentCents)
  }

  /** `caprichosSpentCents`: the recorded spending on treats, not below 0. */
  function CaprichosSpentCents(s: State): (r: nat)
    ensures r >= s.progress.caprichosSpentCents
    ensures r == 0 || r == s.progress.caprichosSpentCents
  {
    Max(0, s.progress.caprichosSpentCents)
  }

  /** `availableCentsNow`: what is left to spend, shown to the user. */
  function AvailableCents(s: State, ts: int): (r: nat)
    ensures r <= NetSavedCents(s, ts)
    ensures r >= NetSavedCents(s, ts) - CaprichosSpentCents(s)
    ensures r == 0 || r == NetSavedCents(s, ts) - CaprichosSpentCents(s)
  {
    Max(0, NetSavedCents(s, ts) - CaprichosSpentCents(s))
  }

  /** The balance `buyCapricho` and `buyPet` compare a price with: gross savings less treats. */
  function PurchaseBudget(s: State, ts: int): (r: nat)
    ensures r <= GrossSavedCents(s, ts)
    ensures r >= GrossSavedCents(s, ts) - CaprichosSpentCents(s)
    ensures r == 0 || r == GrossSavedCents(s, ts) - CaprichosSpentCents(s)
  {
    Max(0, GrossSavedCents(s, ts) - CaprichosSpentCents(s))
  }

  /**
   * `daysSmokeFree`: 0 before onboarding; otherwise the number of started
   * 24-hour periods since the streak began, counting the first, and 0 before
   * the start.
   */
  function DaysSmokeFree(s: State, ts: int): (d: nat)
    ensures !s.onboardingCompleted ==> d == 0
    ensures s.onboardingCompleted && ts >= s.progress.smokeFreeStartTs ==>
              d >= 1 && (d - 1) * DAY_MS <= ts - s.progress.smokeFreeStartTs < d * DAY_MS
    ensures ts < s.progress.smokeFreeStartTs ==> d == 0
  {
    if !s.onboardingCompleted then 0
    else Max(0, (ts - s.progress.smokeFreeStartTs) / DAY_MS + 1)
  }

  /** `appDays`: started days since the record was created, at least 1. */
  function AppDays(s: State, ts: int): (d: int)
    ensures d >= 1
    ensures ts >= s.createdAtTs ==> (d - 1) * DAY_MS <= ts - s.createdAtTs < d * DAY_MS
  {
    Max(1, (ts - s.createdAtTs) / DAY_MS + 1)
  }

  /** The confetti milestone reached by a balance: the balance rounded down to a multiple of 1000 cents. */
  function MilestoneOf(savedCents: nat): (m: nat)
    ensures m % 1000 == 0 && m <= savedCents < m + 1000
  {
    (savedCents / 1000) * 1000
  }

  /** What the user can see is never more than what a purchase is checked against. */
  lemma AvailableWithinBudget(s: State, ts: int)
    requires s.progress.cigarettesSpentCents >= 0
    ensures AvailableCents(s, ts) <= PurchaseBudget(s, ts)
  {
  }

  /** `buyCapricho`'s test: a positive whole price within the purchase budget. */
  predicate CanBuyCapricho(s: State, price: int, ts: int) {
    price != 0 && PurchaseBudget(s, ts) >= price
  }

  /** `buyPet`'s test: within the purchase budget and not already owned. */
  predicate CanBuyPet(s: State, petId: string, price: int, ts: int) {
    PurchaseBudget(s, ts) >= price && petId !in s.progress.ownedPets
  }

  /** The whole price a purchase is charged: `max(0, floor(priceCents))`. */
  function WholePrice(priceCents: real): (p: nat)
    ensures priceCents >= 0.0 ==> p as real <= priceCents < p as real + 1.0
    ensures priceCents < 0.0 ==> p == 0
  {
    Max(0, priceCents.Floor)
  }

  /** A pet costing exactly the budget can be bought; one cent more cannot. */
  lemma PetPriceBoundary(s: State, petId: string, ts: int)
    requires petId !in s.progress.ownedPets
    ensures CanBuyPet(s, petId, PurchaseBudget(s, ts), ts)
    ensures !CanBuyPet(s, petId, PurchaseBudget(s, ts) + 1, ts)
  {
  }

  /**
   * The purchase test ignores the money spent on cigarettes: with 10.00
   * saved gross and 6.00 spent on cigarettes the user sees 4.00 available,
   * yet a 10.00 pet is sold.
   */
  lemma PurchaseIgnoresCigaretteSpending(t: int)
    ensures var s := InitialState(t).(progress := InitialState(t).progress.(baseCents := 1000, cigarettesSpentCents := 600));
            AvailableCents(s, t) == 400 && CanBuyPet(s, "gato", 1000, t)
  {
  }

  // ---------------------------------------------------------------------------
  // Cigarettes
  // ---------------------------------------------------------------------------

  /** The cost of `amount` cigarettes: the pack price over the pack size, times `amount`, rounded. */
  function CigaretteCost(settings: Settings, amount: int): (c: int)
    requires settings.cigsPerPack != 0
    ensures c as real - 0.5 <= (settings.packPriceCents * amount) as real / settings.cigsPerPack as real < c as real + 0.5
  {
    var price, perPack, amt := settings.packPriceCents as real, settings.cigsPerPack as real, amount as real;
    var costPerCig := price / perPack;
    var cost := Round(costPerCig * amt);
    PerCigaretteTimesAmount(price, perPack, amt, cost);
    assert price * amt == (settings.packPriceCents * amount) as real;
    cost
  }

  lemma PerCigaretteTimesAmount(price: real, perPack: real, amount: real, c: int)
    requires perPack != 0.0
    requires c as real - 0.5 <= price / perPack * amount < c as real + 0.5
    ensures c as real - 0.5 <= price * amount / perPack < c as real + 0.5
  {
    var q := price / perPack;
    assert q * perPack == price;
    assert q * amount * perPack == price * amount;
    assert q * amount == price * amount / perPack;
  }

  /** A whole pack costs the pack price, and no cigarettes cost nothing. */
  lemma PackCostsPackPrice(settings: Settings)
    requires settings.cigsPerPack != 0
    ensures CigaretteCost(settings, settings.cigsPerPack) == settings.packPriceCents
    ensures CigaretteCost(settings, 0) == 0
  {
    var p := settings.packPriceCents as real;
    var n := settings.cigsPerPack as real;
    assert p * n / n == p;
    RoundOfInt(settings.packPriceCents);
    RoundOfInt(0);
  }

  /** The day's record after adding `amount`: that day's count moves by `amount`, never below 0. */
  function LogCigarettes(counts: map<int, int>, day: int, amount: int): (m: map<int, int>)
    ensures day in m && m[day] == Max(0, CountOn(counts, day) + amount)
    ensures forall d :: d != day ==> CountOn(m, d) == CountOn(counts, d)
  {
    counts[day := Max(0, CountOn(counts, day) + amount)]
  }

  // ---------------------------------------------------------------------------
  // The companion's evolution as the store applies it
  // ---------------------------------------------------------------------------

  /**
   * The merge as written in the daily check and in `registerCigarette`:
   * `{...evolution, ...evolutionResult, lastCheckedDate: today}`. The result
   * carries its values under `newLevel`, `newProgressNumerator`, … which the
   * stored record does not read, so only the date changes.
   */
  function MergeEvolutionAsWritten(e: Evolution, r: EvolutionResult, today: int): Evolution {
    e.(lastCheckedDate := today)
  }

  /** The merge the record's field names call for: the result's values replace the stored ones. */
  function MergeEvolution(e: Evolution, r: EvolutionResult, today: int): (m: Evolution)
    ensures m.lastCheckedDate == today
    ensures m.currentLevel == r.newLevel && m.progressNumerator == r.newProgressNumerator
    ensures m.progressDenominator == r.newProgressDenominator
    ensures m.streakDays == r.newStreakDays && m.lastSuccessDate == r.newLastSuccessDate
  {
    Evolution(r.newLevel, r.newProgressNumerator, r.newProgressDenominator, today, r.newStreakDays, r.newLastSuccessDate)
  }

  /** One evaluation of the rules, merged into the record and stamped with `today`. */
  function Evolve(e: Evolution, counts: map<int, int>, cigsPerDay: int, today: int): (n: Evolution)
    ensures n.lastCheckedDate == today
    ensures LevelIndex(e.currentLevel) - 1 <= LevelIndex(n.currentLevel) <= LevelIndex(e.currentLevel) + 1
    ensures n.streakDays in {0, e.streakDays, e.streakDays + 1}
  {
    MergeEvolution(e, CalculateFumiEvolution(e, counts, cigsPerDay, today), today)
  }

  /** The daily check: nothing when the record was already checked on `today`, else one evaluation. */
  function DailyTick(e: Evolution, counts: map<int, int>, cigsPerDay: int, today: int): (n: Evolution)
    ensures n.lastCheckedDate == today
    ensures e.lastCheckedDate == today ==> n == e
  {
    if e.lastCheckedDate == today then e else Evolve(e, counts, cigsPerDay, today)
  }

  /** One evaluation as written: the rules run, but only the date reaches the record. */
  function EvolveAsWritten(e: Evolution, counts: map<int, int>, cigsPerDay: int, today: int): (n: Evolution)
    ensures n == e.(lastCheckedDate := today)
  {
    MergeEvolutionAsWritten(e, CalculateFumiEvolution(e, counts, cigsPerDay, today), today)
  }

  /** The daily check as written: whatever yesterday was, it only stamps `today`. */
  function DailyTickAsWritten(e: Evolution, counts: map<int, int>, cigsPerDay: int, today: int): (n: Evolution)
    ensures n == e.(lastCheckedDate := today)
  {
    if e.lastCheckedDate == today then e else EvolveAsWritten(e, counts, cigsPerDay, today)
  }

  /** A second check on the same day changes nothing. */
  lemma DailyTickIdempotent(e: Evolution, counts: map<int, int>, counts': map<int, int>, cigsPerDay: int, today: int)
    ensures DailyTick(DailyTick(e, counts, cigsPerDay, today), counts', cigsPerDay, today)
            == DailyTick(e, counts, cigsPerDay, today)
  {
  }

  /** A record in range: a proper progress fraction and a non-negative streak. */
  predicate EvolutionInRange(e: Evolution) {
    0 <= e.progressNumerator < CurrentDen(e) && e.streakDays >= 0
  }

  /** Every evaluation keeps the record in range. */
  lemma EvolveKeepsRange(e: Evolution, counts: map<int, int>, cigsPerDay: int, today: int)
    requires EvolutionInRange(e)
    ensures EvolutionInRange(Evolve(e, counts, cigsPerDay, today))
  {
    NumeratorStaysInRange(e, counts, cigsPerDay, today);
  }

  /** The initial companion is in range. */
  lemma InitialEvolutionInRange(nowTs: int)
    ensures EvolutionInRange(InitialEvolution(nowTs))
  {
  }

  /**
   * Three successful days at level Deporte from a numerator of 0 reach level
   * Rico with a numerator of 0; the stored denominator is Deporte's target
   * (3), not Rico's (5).
   */
  lemma ThreeGoodDaysPromote(e: Evolution, counts: map<int, int>, cigsPerDay: int, d: int)
    requires e.currentLevel == Deporte && e.progressNumerator == 0 && CurrentDen(e) == 3 && e.lastCheckedDate == d
    requires cigsPerDay > 0
    requires 10 * CountOn(counts, d) <= 7 * cigsPerDay
    requires 10 * CountOn(counts, d + 1) <= 7 * cigsPerDay
    requires 10 * CountOn(counts, d + 2) <= 7 * cigsPerDay
    requires CountOn(counts, d + 3) < cigsPerDay
    ensures var e3 := DailyTick(DailyTick(DailyTick(e, counts, cigsPerDay, d + 1), counts, cigsPerDay, d + 2), counts, cigsPerDay, d + 3);
            e3.currentLevel == Rico && e3.progressNumerator == 0 && e3.progressDenominator == 3
            && e3.streakDays == e.streakDays + 3
  {
    var e1 := DailyTick(e, counts, cigsPerDay, d + 1);
    DailySuccessProgresses(e, counts, cigsPerDay, d + 1);
    var e2 := DailyTick(e1, counts, cigsPerDay, d + 2);
    DailySuccessProgresses(e1, counts, cigsPerDay, d + 2);
    DailySuccessPromotes(e2, counts, cigsPerDay, d + 3);
  }

  /**
   * As written, the same three days leave the companion at Deporte with a
   * numerator of 0: only the checked date moves.
   */
  lemma ThreeGoodDaysAsWrittenStayPut(e: Evolution, counts: map<int, int>, cigsPerDay: int, d: int)
    requires e.lastCheckedDate == d
    ensures var e3 := DailyTickAsWritten(DailyTickAsWritten(DailyTickAsWritten(e, counts, cigsPerDay, d + 1),
                                                             counts, cigsPerDay, d + 2), counts, cigsPerDay, d + 3);
            e3 == e.(lastCheckedDate := d + 3)
  {
  }

  /** The daily check run on each of the `n` days after `d0`. */
  function TickDays(e: Evolution, counts: map<int, int>, cigsPerDay: int, d0: int, n: nat): Evolution
    decreases n
  {
    if n == 0 then e else DailyTick(TickDays(e, counts, cigsPerDay, d0, n - 1), counts, cigsPerDay, d0 + n)
  }

  /**
   * With a baseline of 0 cigarettes a day and no negative counts, a
   * companion at the lowest level stays there however many days pass.
   */
  lemma {:induction false} ZeroBaselineStaysEnfermo(e: Evolution, counts: map<int, int>, cigsPerDay: int, d0: int, n: nat)
    requires cigsPerDay <= 0 && e.currentLevel == Enfermo
    requires forall d :: d in counts ==> counts[d] >= 0
    ensures TickDays(e, counts, cigsPerDay, d0, n).currentLevel == Enfermo
  {
    if n > 0 {
      var prev := TickDays(e, counts, cigsPerDay, d0, n - 1);
      ZeroBaselineStaysEnfermo(e, counts, cigsPerDay, d0, n - 1);
      if prev.lastCheckedDate != d0 + n {
        ZeroBaselineNeverSucceeds(Enfermo, CountOn(counts, d0 + n - 1));
        DailyFailureRegresses(prev, counts, cigsPerDay, d0 + n);
      }
    }
  }

  /**
   * Logging a cigarette on a day already at or over a positive baseline
   * drops the companion one more level each time, even when it was already
   * dropped that day: two cigarettes logged that way from level `i >= 2`
   * leave it at level `i - 2`.
   */
  lemma EachCigaretteOverBaselineDemotes(e: Evolution, counts: map<int, int>, cigsPerDay: int, day: int)
    requires cigsPerDay > 0 && CountOn(counts, day) + 1 >= cigsPerDay && CountOn(counts, day) >= 0
    requires LevelIndex(e.currentLevel) >= 2
    ensures var c1 := LogCigarettes(counts, day, 1);
            var e1 := Evolve(e, c1, cigsPerDay, day);
            var e2 := Evolve(e1, LogCigarettes(c1, day, 1), cigsPerDay, day);
            LevelIndex(e2.currentLevel) == LevelIndex(e.currentLevel) - 2
  {
    var c1 := LogCigarettes(counts, day, 1);
    ImmediateDemotion(e, c1, cigsPerDay, day);
    var e1 := Evolve(e, c1, cigsPerDay, day);
    ImmediateDemotion(e1, LogCigarettes(c1, day, 1), cigsPerDay, day);
  }

  /**
   * A demotion on the first evaluation of a day still stamps the day, so the
   * daily check that follows does not judge yesterday at all.
   */
  lemma DemotionSkipsYesterday(e: Evolution, counts: map<int, int>, counts': map<int, int>, cigsPerDay: int, day: int)
    requires OverBaselineToday(counts, cigsPerDay, day) && e.currentLevel != Enfermo
    ensures var e1 := Evolve(e, counts, cigsPerDay, day);
            DailyTick(e1, counts', cigsPerDay, day) == e1 && e1.streakDays == 0 && e1.lastSuccessDate == None
  {
    ImmediateDemotion(e, counts, cigsPerDay, day);
  }

  /**
   * As written, the same two cigarettes leave the companion where it was:
   * each registration only stamps the day.
   */
  lemma EachCigaretteOverBaselineAsWrittenStaysPut(e: Evolution, counts: map<int, int>, cigsPerDay: int, day: int)
    requires cigsPerDay > 0 && CountOn(counts, day) + 1 >= cigsPerDay && CountOn(counts, day) >= 0
    requires LevelIndex(e.currentLevel) >= 2
    ensures var c1 := LogCigarettes(counts, day, 1);
            var e1 := EvolveAsWritten(e, c1, cigsPerDay, day);
            var e2 := EvolveAsWritten(e1, LogCigarettes(c1, day, 1), cigsPerDay, day);
            e2 == e.(lastCheckedDate := day) && e2.currentLevel == e.currentLevel
  {
  }

  /**
   * As written, registering a cigarette on a day stamps that day, so the
   * daily check of the same day does nothing and yesterday is not judged.
   */
  lemma CigaretteDaySkipsDailyCheckAsWritten(e: Evolution, counts: map<int, int>, counts': map<int, int>, cigsPerDay: int, day: int)
    ensures var e1 := EvolveAsWritten(e, counts, cigsPerDay, day);
            DailyTickAsWritten(e1, counts', cigsPerDay, day) == e1
  {
  }

  /**
   * The record `completeOnboarding` leaves: the answers become the
   * settings, and savings, streak, spending, counts and pets start again
   * from `ts`; the companion, the best streak and the rest are kept.
   */
  function OnboardedState(s: State, args: OnboardingArgs, ts: int): (r: State)
    ensures r.onboardingCompleted && r.progress.fumiEvolution == s.progress.fumiEvolution
    ensures r.progress.bestStreakDays == s.progress.bestStreakDays && r.premium == s.premium && r.email == s.email
    ensures r.settings.cigsPerPack == s.settings.cigsPerPack && r.settings.currency == s.settings.currency
    ensures GrossSavedCents(r, ts) == 0 && AvailableCents(r, ts) == 0 && DaysSmokeFree(r, ts) == 1
  {
    s.(onboardingCompleted := true,
       settings := s.settings.(cigsPerDay := args.cigsPerDay, packPriceCents := args.packPriceCents,
                               reason := Some(args.reason), age := Some(args.age),
                               yearsSmoking := Some(args.yearsSmoking)),
       progress := s.progress.(baseCents := 0, baseAtTs := ts, smokeFreeStartTs := ts,
                               lastMilestoneCents := 0, caprichosSpentCents := 0,
                               cigarettesSmoked := map[], cigarettesSpentCents := 0,
                               ownedPets := [], activePetId := None))
  }

  /** Whether the milestone effect fires at `ts`: a new positive multiple of 1000 cents of net savings after onboarding. */
  predicate MilestoneFires(s: State, ts: int)
    ensures MilestoneFires(s, ts) <==>
              (s.onboardingCompleted && NetSavedCents(s, ts) >= 1000
               && MilestoneOf(NetSavedCents(s, ts)) > s.progress.lastMilestoneCents)
  {
    var m := MilestoneOf(NetSavedCents(s, ts));
    s.onboardingCompleted && m > 0 && m > s.progress.lastMilestoneCents
  }

  // ---------------------------------------------------------------------------
  // The store object
  // ---------------------------------------------------------------------------

  /** The arguments onboarding hands to `completeOnboarding`. */
  datatype OnboardingArgs = OnboardingArgs(cigsPerDay: int, packPriceCents: int, reason: Reason, age: int, yearsSmoking: int)

  /** A partial settings update: the fields that are present replace the current ones. */
  datatype SettingsPatch = SettingsPatch(
    cigsPerDay: Option<int>,
    packPriceCents: Option<int>,
    cigsPerPack: Option<int>,
    reason: Option<Option<Reason>>,
    currency: Option<Currency>,
    motivationBeast: Option<bool>,
    age: Option<Option<int>>,
    yearsSmoking: Option<Option<int>>)

  function ApplyPatch(t: Settings, p: SettingsPatch): (u: Settings)
    ensures Kept(p.cigsPerDay, u.cigsPerDay) && Kept(p.packPriceCents, u.packPriceCents)
    ensures Kept(p.cigsPerPack, u.cigsPerPack) && Kept(p.reason, u.reason) && Kept(p.currency, u.currency)
    ensures Kept(p.motivationBeast, u.motivationBeast) && Kept(p.age, u.age) && Kept(p.yearsSmoking, u.yearsSmoking)
    ensures p.cigsPerDay.None? && p.packPriceCents.None? && p.cigsPerPack.None? ==> DailySpendCents(u) == DailySpendCents(t)
    ensures p == SettingsPatch(None, None, None, None, None, None, None, None) ==> u == t
  {
    Settings(p.cigsPerDay.GetOr(t.cigsPerDay), p.packPriceCents.GetOr(t.packPriceCents),
             p.cigsPerPack.GetOr(t.cigsPerPack), p.reason.GetOr(t.reason), p.currency.GetOr(t.currency),
             p.motivationBeast.GetOr(t.motivationBeast), p.age.GetOr(t.age), p.yearsSmoking.GetOr(t.yearsSmoking))
  }

  /** `FumoByeProvider`: the record, the clock the counters read, and the confetti flag. */
  class FumoByeStore {
    var ready: bool
    var state: State
    var nowTs: int
    var pendingConfetti: bool

    /** Before loading: the initial record of the start time. */
    constructor (now: int)
      ensures !ready && state == InitialState(now) && nowTs == now && !pendingConfetti
    {
      ready := false;
      state := InitialState(now);
      nowTs := now;
      pendingConfetti := false;
    }

    /** The load at start-up: the stored record, migrated, replaces the state; the store is ready. */
    method Load(raw: RawState, now: int)
      modifies this`state, this`ready
      ensures ready && state == NormalizeLoadedState(raw, now)
    {
      state := NormalizeLoadedState(raw, now);
      ready := true;
    }

    /**
     * The daily evolution check: once the store is ready, on the first look
     * of a new day the companion is evaluated and the result merged as
     * written, so only the day is stamped.
     */
    method DailyEvolutionCheck()
      modifies this`state
      ensures var e := old(state).progress.fumiEvolution;
              state == old(state).(progress := old(state).progress.(fumiEvolution :=
                if ready then DailyTickAsWritten(e, old(state).progress.cigarettesSmoked, old(state).settings.cigsPerDay, DayOf(nowTs))
                else e))
    {
      if !ready {
        return;
      }
      var today := DayOf(nowTs);
      var e := state.progress.fumiEvolution;
      if e.lastCheckedDate == today {
        return;
      }
      var result := CalculateFumiEvolution(e, state.progress.cigarettesSmoked, state.settings.cigsPerDay, today);
      state := state.(progress := state.progress.(fumiEvolution := MergeEvolutionAsWritten(e, result, today)));
    }

    /** The best-streak record: raised to the current streak when that is longer. */
    method UpdateBestStreak()
      modifies this`state
      ensures state == old(state).(progress := old(state).progress.(bestStreakDays := state.progress.bestStreakDays))
      ensures ready && state.onboardingCompleted ==>
                state.progress.bestStreakDays == Max(old(state).progress.bestStreakDays, DaysSmokeFree(old(state), nowTs))
      ensures !(ready && state.onboardingCompleted) ==> state == old(state)
      ensures state.progress.bestStreakDays >= old(state).progress.bestStreakDays
    {
      if !ready || !state.onboardingCompleted {
        return;
      }
      var days := DaysSmokeFree(state, nowTs);
      if days > state.progress.bestStreakDays {
        state := state.(progress := state.progress.(bestStreakDays := days));
      }
    }

    /** The confetti milestone: each new multiple of 1000 cents of net savings raises the flag once. */
    method UpdateMilestone()
      modifies this`state, this`pendingConfetti
      ensures var m := MilestoneOf(NetSavedCents(old(state), nowTs));
              var fires := ready && MilestoneFires(old(state), nowTs);
              && state == (if fires then old(state).(progress := old(state).progress.(lastMilestoneCents := m)) else old(state))
              && pendingConfetti == (fires || old(pendingConfetti))
      ensures state.progress.lastMilestoneCents >= old(state).progress.lastMilestoneCents
    {
      if !ready || !state.onboardingCompleted {
        return;
      }
      var milestone := MilestoneOf(NetSavedCents(state, nowTs));
      if milestone > 0 && milestone > state.progress.lastMilestoneCents {
        pendingConfetti := true;
        state := state.(progress := state.progress.(lastMilestoneCents := milestone));
      }
    }

    /** One second of the clock: the time moves and the three effects run. */
    method Tick(now: int)
      modifies this
      ensures ready == old(ready)
      ensures !old(ready) ==> state == old(state) && nowTs == old(nowTs) && pendingConfetti == old(pendingConfetti)
      ensures old(ready) ==> nowTs == now
      ensures old(ready) ==>
                var s := old(state);
                var fires := MilestoneFires(s, now);
                && state == s.(progress := s.progress.(
                     fumiEvolution := DailyTickAsWritten(s.progress.fumiEvolution, s.progress.cigarettesSmoked,
                                                         s.settings.cigsPerDay, DayOf(now)),
                     bestStreakDays := if s.onboardingCompleted then Max(s.progress.bestStreakDays, DaysSmokeFree(s, now))
                                       else s.progress.bestStreakDays,
                     lastMilestoneCents := if fires then MilestoneOf(NetSavedCents(s, now)) else s.progress.lastMilestoneCents))
                && pendingConfetti == (fires || old(pendingConfetti))
      ensures state.progress.bestStreakDays >= old(state).progress.bestStreakDays
      ensures state.progress.lastMilestoneCents >= old(state).progress.lastMilestoneCents
    {
      if !ready {
        return;
      }
      nowTs := now;
      DailyEvolutionCheck();
      UpdateBestStreak();
      UpdateMilestone();
    }

    method ClearConfetti()
      modifies this`pendingConfetti
      ensures !pendingConfetti
    {
      pendingConfetti := false;
    }

    /**
     * `completeOnboarding`: the answers become the settings, and savings,
     * streak, spending and pets start again from `ts`. The companion and the
     * best streak are kept.
     */
    method CompleteOnboarding(args: OnboardingArgs, ts: int)
      modifies this`state
      ensures state == OnboardedState(old(state), args, ts)
      ensures GrossSavedCents(state, ts) == 0 && AvailableCents(state, ts) == 0 && DaysSmokeFree(state, ts) == 1
    {
      state := OnboardedState(state, args, ts);
    }

    /**
     * `updateSettings`: the patch is applied and the savings so far, at the
     * old rate, become the new checkpoint at `ts`, so the amount shown at
     * `ts` does not jump.
     */
    method UpdateSettings(patch: SettingsPatch, ts: int)
      modifies this`state
      ensures var s := old(state);
              state == s.(settings := ApplyPatch(s.settings, patch),
                           progress := s.progress.(baseCents := GrossSavedCents(s, ts), baseAtTs := ts))
      ensures GrossSavedCents(state, ts) == GrossSavedCents(old(state), ts)
    {
      var s := state;
      var currentSaved := SavedCentsNow(s.progress.baseCents, s.progress.baseAtTs, ts, RateCentsPerSecond(s.settings));
      state := s.(settings := ApplyPatch(s.settings, patch),
                  progress := s.progress.(baseCents := currentSaved, baseAtTs := ts));
      ReanchorIsSeamless(s.progress.baseCents, s.progress.baseAtTs, ts, RateCentsPerSecond(state.settings));
    }

    /** `markCheckin`: today's date and the mood are recorded. */
    method MarkCheckin(mood: Mood, ts: int)
      modifies this`state
      ensures state == old(state).(checkin := Checkin(Some(DayOf(ts)), Some(mood)))
    {
      state := state.(checkin := Checkin(Some(DayOf(ts)), Some(mood)));
    }

    /**
     * `resetProgress`: the streak so far is folded into the best streak, and
     * savings, spending, cigarettes and the companion start again at `ts`.
     * Owned pets and the chosen pet are kept.
     */
    method ResetProgress(ts: int)
      modifies this`state
      ensures var s := old(state);
              state == s.(progress := s.progress.(
                baseCents := 0, baseAtTs := ts, smokeFreeStartTs := ts, lastMilestoneCents := 0,
                bestStreakDays := Max(s.progress.bestStreakDays, DaysSmokeFree(s, ts)),
                caprichosSpentCents := 0, cigarettesSmoked := map[], cigarettesSpentCents := 0,
                fumiEvolution := InitialEvolution(ts)))
      ensures state.progress.bestStreakDays >= old(state).progress.bestStreakDays
      ensures state.progress.ownedPets == old(state).progress.ownedPets
      ensures GrossSavedCents(state, ts) == 0 && EvolutionInRange(state.progress.fumiEvolution)
    {
      var s := state;
      var currentStreak := DaysSmokeFree(s, ts);
      var best := Max(s.progress.bestStreakDays, currentStreak);
      state := s.(progress := s.progress.(
        baseCents := 0, baseAtTs := ts, smokeFreeStartTs := ts, lastMilestoneCents := 0,
        bestStreakDays := best, caprichosSpentCents := 0, cigarettesSmoked := map[],
        cigarettesSpentCents := 0, fumiEvolution := InitialEvolution(ts)));
    }

    method SetPremiumActive(active: bool)
      modifies this`state
      ensures state == old(state).(premium := Premium(active))
    {
      state := state.(premium := Premium(active));
    }

    /**
     * `buyCapricho`: a price of 0 (after flooring) is refused without
     * touching the clock; otherwise the clock moves to `ts` and the price is
     * charged when the purchase budget covers it.
     */
    method BuyCapricho(priceCents: real, ts: int) returns (ok: bool)
      modifies this`state, this`nowTs
      ensures ok == CanBuyCapricho(old(state), WholePrice(priceCents), ts)
      ensures nowTs == (if WholePrice(priceCents) == 0 then old(nowTs) else ts)
      ensures state == (if ok then old(state).(progress := old(state).progress.(
                          caprichosSpentCents := Max(0, old(state).progress.caprichosSpentCents + WholePrice(priceCents))))
                        else old(state))
    {
      var price := WholePrice(priceCents);
      if price == 0 {
        return false;
      }
      nowTs := ts;
      var available := PurchaseBudget(state, ts);
      if available < price {
        return false;
      }
      state := state.(progress := state.progress.(caprichosSpentCents := Max(0, state.progress.caprichosSpentCents + price)));
      return true;
    }

    /**
     * `buyPet`: the clock moves to `ts`; a pet within the purchase budget and
     * not yet owned is charged, added to the owned pets and chosen.
     */
    method BuyPet(petId: string, priceCents: real, ts: int) returns (ok: bool)
      modifies this`state, this`nowTs
      ensures ok == CanBuyPet(old(state), petId, WholePrice(priceCents), ts)
      ensures nowTs == ts
      ensures state == (if ok then old(state).(progress := old(state).progress.(
                          caprichosSpentCents := Max(0, old(state).progress.caprichosSpentCents + WholePrice(priceCents)),
                          ownedPets := old(state).progress.ownedPets + [petId],
                          activePetId := Some(petId)))
                        else old(state))
      ensures petId in state.progress.ownedPets <==> (ok || petId in old(state).progress.ownedPets)
    {
      var price := WholePrice(priceCents);
      nowTs := ts;
      var available := PurchaseBudget(state, ts);
      if available < price {
        return false;
      }
      if petId in state.progress.ownedPets {
        return false;
      }
      state := state.(progress := state.progress.(
        caprichosSpentCents := Max(0, state.progress.caprichosSpentCents + price),
        ownedPets := state.progress.ownedPets + [petId],
        activePetId := Some(petId)));
      return true;
    }

    method SetActivePet(petId: Option<string>)
      modifies this`state
      ensures state == old(state).(progress := old(state).progress.(activePetId := petId))
    {
      state := state.(progress := state.progress.(activePetId := petId));
    }

    /** `login`: any email is accepted (the password is not checked). */
    method Login(email: string) returns (ok: bool)
      modifies this`state
      ensures ok && state == old(state).(isLoggedIn := true, email := Some(email))
    {
      state := state.(isLoggedIn := true, email := Some(email));
      return true;
    }

    method Logout()
      modifies this`state
      ensures state == old(state).(isLoggedIn := false, email := None)
    {
      state := state.(isLoggedIn := false, email := None);
    }

    /** `deleteAccount`: the record becomes the initial record of `ts` (onboarding again). */
    method DeleteAccount(ts: int)
      modifies this`state
      ensures state == InitialState(ts)
    {
      state := InitialState(ts);
    }

    /**
     * `registerCigarette`: `amount` cigarettes (1 unless given) are logged on
     * `day` (today unless given); their cost is taken off the savings
     * checkpoint, which moves to `ts`, and is also added to the cigarette
     * spending; the smoke-free streak restarts at `ts`; and the companion is
     * evaluated against the updated counts and merged as written, so only
     * `day` is stamped on it.
     */
    method RegisterCigarette(dateArg: Option<int>, amountArg: Option<int>, ts: int)
      requires state.settings.cigsPerPack != 0
      modifies this`state
      ensures var s := old(state);
              var day := dateArg.GetOr(DayOf(ts));
              var amount := amountArg.GetOr(1);
              var counts := LogCigarettes(s.progress.cigarettesSmoked, day, amount);
              var cost := CigaretteCost(s.settings, amount);
              state == s.(progress := s.progress.(
                cigarettesSmoked := counts,
                cigarettesSpentCents := Max(0, s.progress.cigarettesSpentCents + cost),
                smokeFreeStartTs := ts,
                baseCents := Max(0, GrossSavedCents(s, ts) - cost),
                baseAtTs := ts,
                fumiEvolution := EvolveAsWritten(s.progress.fumiEvolution, counts, s.settings.cigsPerDay, day)))
      ensures GrossSavedCents(state, ts) == Max(0, GrossSavedCents(old(state), ts) - CigaretteCost(old(state).settings, amountArg.GetOr(1)))
      ensures state.onboardingCompleted ==> DaysSmokeFree(state, ts) == 1
      ensures state.progress.fumiEvolution.lastCheckedDate == dateArg.GetOr(DayOf(ts))
    {
      var s := state;
      var today := match dateArg case Some(d) => d case None => DayOf(ts);
      var amount := match amountArg case Some(n) => n case None => 1;
      var newCount := Max(0, CountOn(s.progress.cigarettesSmoked, today) + amount);
      var costThisAction := CigaretteCost(s.settings, amount);
      var newSpent := Max(0, s.progress.cigarettesSpentCents + costThisAction);
      var currentSavedCents := SavedCentsNow(s.progress.baseCents, s.progress.baseAtTs, ts, RateCentsPerSecond(s.settings));
      var newBaseCents := Max(0, currentSavedCents - costThisAction);
      var e := s.progress.fumiEvolution;
      var updated := s.progress.cigarettesSmoked[today := newCount];
      var result := CalculateFumiEvolution(e, updated, s.settings.cigsPerDay, today);
      state := s.(progress := s.progress.(
        cigarettesSmoked := updated,
        cigarettesSpentCents := newSpent,
        smokeFreeStartTs := ts,
        baseCents := newBaseCents,
        baseAtTs := ts,
        fumiEvolution := MergeEvolutionAsWritten(e, result, today)));
      assert GrossSavedCents(state, ts) == newBaseCents;
    }
  }
}
