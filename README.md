# FUMI — a verified model of the quit-smoking app's core

FUMI ("fumobye") is a React Native app for people quitting smoking. It
shows the money saved since the last cigarette and a companion, Fumi, who
climbs six levels (enfermo, bebeSano, deporte, rico, pulmonDiamante, dios)
while the user keeps daily consumption under a baseline. It also has a
small shop of treats and pets paid for from the savings, a six-step
onboarding questionnaire, a reflection screen that shows tips for the
user's mood, a subscription screen, a colour palette, and two animated
particle layers driven by a `mulberry32` generator.

This project models that core in Dafny:

- `utils.dfy` (`Utils`): the savings arithmetic of `fumobye/utils.ts`.
  This covers the daily spend, the per-second rate, and the checkpoint
  accrual `baseCents + elapsed * rate`. It also holds the weekly window
  and the companion's evolution step `calculateFumiEvolution`.
- `evolution.dfy` (`EvolutionLaws`): one lemma per rule of the
  evolution step.
- `store.dfy` (`Store`): the parts of `fumobye/store.tsx`:
  - the initial record and the migration of a loaded record;
  - the derived balances and day counts;
  - the daily evolution check and the high-water-mark effects;
  - the store object `FumoByeStore`, whose actions update the record in
    place.
- `onboarding.dfy` (`Onboarding`): the price-text parser, the per-step
  gating, the steppers and the step navigation of `app/onboarding.tsx`.
- `reflexion.dfy` (`Reflexion`): the rotation-based tip selection of
  `app/reflexion.tsx`.
- `premium.dfy` (`PremiumScreen`): package choice, purchase and restore
  in `app/premium.tsx`.
- `theme.dfy` (`Theme`): the palette, `ColorUtils.get` and
  `ColorUtils.withOpacity` of `constants/theme.ts`, with JavaScript's
  `parseInt(_, 16)`.
- `mulberry32.dfy` (`Mulberry32`): the generator, over `bv32`, as a
  class whose `Next` advances the state.
- `ash_overlay.dfy` (`AshOverlay`) and `light_particles.dfy`
  (`LightParticles`): the particle and dot list builders as loops over
  the generator, proved equal to list functions over the draw sequence.
- `types.dfy`, `decimal.dfy` and `wrappers.dfy`: the persisted record,
  decimal printing and reading of numbers, and `Option`.

Conventions:

- Calendar dates (`YYYY-MM-DD` strings in the app) are integer day
  numbers; "yesterday" is `today - 1`.
- Timestamps are integer milliseconds and money is integer cents.
- `Date.now()` is a parameter of each action that reads it.
- JavaScript's `Math.round(x)` is `floor(x + 1/2)` over exact reals.
- The SDK's answers and the stored record are inputs.

## Model

Source paths are under `Desktop/FUMI-DEJA-DE-FUMAR-main/`.

| member | source | states |
|---|---|---|
| Utils.Clamp | Desktop/FUMI-DEJA-DE-FUMAR-main/fumobye/utils.ts:5-7 | never below `min`; never above `max` when `min <= max`; a value inside the range is kept; a value below gives `min`, a value above gives `max` |
| Utils.Round | Desktop/FUMI-DEJA-DE-FUMAR-main/fumobye/utils.ts:62 | `Math.round`: the result is within half of `x`, halves going up (`r - 1/2 <= x < r + 1/2`) |
| Utils.RoundMonotone | Desktop/FUMI-DEJA-DE-FUMAR-main/fumobye/utils.ts:62 | rounding preserves order |
| Utils.RoundOfInt | Desktop/FUMI-DEJA-DE-FUMAR-main/fumobye/utils.ts:140-141 | rounding an integer gives it back, so `Math.round` of whole counts is the count |
| Utils.DayOf | Desktop/FUMI-DEJA-DE-FUMAR-main/fumobye/utils.ts:35-42 | the day of a timestamp is the one whose `DAY_MS` window contains it |
| Utils.DailySpendCents | Desktop/FUMI-DEJA-DE-FUMAR-main/fumobye/utils.ts:44-47 | 0 when `cigsPerPack <= 0` or the product is negative; otherwise `r * cigsPerPack` is within half a pack of `cigsPerDay * packPriceCents`, so `r` is that quotient rounded; never negative |
| Utils.DailySpendBounds | Desktop/FUMI-DEJA-DE-FUMAR-main/fumobye/utils.ts:44-47 | rounding `cigsPerDay / cigsPerPack * packPriceCents` bounds the result in whole numbers, as above |
| Utils.RateCentsPerSecond | Desktop/FUMI-DEJA-DE-FUMAR-main/fumobye/utils.ts:49-51 | the rate is non-negative and 86400 seconds of it are exactly the daily spend |
| Utils.ElapsedSeconds | Desktop/FUMI-DEJA-DE-FUMAR-main/fumobye/utils.ts:60 | elapsed seconds are never negative and are 0 when `nowTs <= baseAtTs` |
| Utils.SavedCentsNow | Desktop/FUMI-DEJA-DE-FUMAR-main/fumobye/utils.ts:53-63 | a natural number; `max(0, baseCents)` when `nowTs <= baseAtTs`; at least `baseCents` for a non-negative rate; 0 when the accrued amount is negative; otherwise within half a cent of `baseCents + elapsed * rate` |
| Utils.AccrualAtLeastBase | Desktop/FUMI-DEJA-DE-FUMAR-main/fumobye/utils.ts:60-62 | with a non-negative rate, the rounded accrual never falls below the checkpoint |
| Utils.SavedCentsMonotone | Desktop/FUMI-DEJA-DE-FUMAR-main/fumobye/utils.ts:53-63 | with a non-negative rate, savings never decrease as `nowTs` grows |
| Utils.ReanchorIsSeamless | Desktop/FUMI-DEJA-DE-FUMAR-main/fumobye/utils.ts:60-62 | taking the savings at `t` as a new checkpoint at `t` shows the same amount at `t` |
| Utils.OneDayAtDefaultSettings | Desktop/FUMI-DEJA-DE-FUMAR-main/fumobye/utils.ts:44-63 | (illustration) at 20 a day, 20 a pack and 500 cents a pack, one day after a zero checkpoint 500 cents are saved |
| Utils.GetWeeklyStats | Desktop/FUMI-DEJA-DE-FUMAR-main/fumobye/utils.ts:68-90 | exactly 7 entries, oldest first, for `today - 6 .. today`, each with that day's count (0 when missing); `weekTotal` is their sum, `weekAverage` a seventh of it, `today` today's count |
| Utils.LevelAt | Desktop/FUMI-DEJA-DE-FUMAR-main/fumobye/utils.ts:152 | the level at a position of the fixed order has that position |
| Utils.LevelIndexInjective | Desktop/FUMI-DEJA-DE-FUMAR-main/fumobye/utils.ts:152 | distinct levels sit at distinct positions |
| Utils.TargetDen | Desktop/FUMI-DEJA-DE-FUMAR-main/fumobye/utils.ts:124-133 | each level's target is at least 3, and it is exactly 3 for the first three levels |
| Utils.CurrentDen | Desktop/FUMI-DEJA-DE-FUMAR-main/fumobye/utils.ts:136 | the denominator in use is at least 2 |
| Utils.DailySuccess | Desktop/FUMI-DEJA-DE-FUMAR-main/fumobye/utils.ts:173-196 | a successful day is always below a positive baseline; each level's threshold is given by `SuccessThresholds` |
| Utils.CalculateFumiEvolution | Desktop/FUMI-DEJA-DE-FUMAR-main/fumobye/utils.ts:95-229 | the level moves by at most one; the streak becomes 0, stays, or grows by one; a drop happens only when today's count reaches a positive baseline; a rise happens only on a new day whose yesterday met the level's goal |
| Utils.DailyStep | Desktop/FUMI-DEJA-DE-FUMAR-main/fumobye/utils.ts:166-220 | the once-a-day step returns the denominator in use or 1 (after a promotion) |
| EvolutionLaws.ImmediateDemotion | Desktop/FUMI-DEJA-DE-FUMAR-main/fumobye/utils.ts:149-164 | at or over a positive baseline today and above the lowest level: exactly one level down; numerator 0, denominator 1, streak 0, no last success; any date |
| EvolutionLaws.NoDemotionBelowEnfermo | Desktop/FUMI-DEJA-DE-FUMAR-main/fumobye/utils.ts:150-163 | at the lowest level the immediate rule keeps level, numerator, streak and last success, and coerces only the denominator |
| EvolutionLaws.SameDayHolds | Desktop/FUMI-DEJA-DE-FUMAR-main/fumobye/utils.ts:136-147 | already checked today and under the baseline: nothing changes, except that a denominator of 1 or less becomes the level's target |
| EvolutionLaws.DailySuccessProgresses | Desktop/FUMI-DEJA-DE-FUMAR-main/fumobye/utils.ts:198-202 | a new day after a successful yesterday, below the target: numerator and streak up by one, last success = yesterday |
| EvolutionLaws.DailySuccessPromotes | Desktop/FUMI-DEJA-DE-FUMAR-main/fumobye/utils.ts:198-228 | a success that reaches the denominator: one level up (dios stays dios), numerator 0, and the returned denominator is the target of the level being left |
| EvolutionLaws.DailyFailureRegresses | Desktop/FUMI-DEJA-DE-FUMAR-main/fumobye/utils.ts:213-219 | a failed yesterday: a positive numerator loses one (never below 0), the streak is 0, and level and last success stay |
| EvolutionLaws.SuccessThresholds | Desktop/FUMI-DEJA-DE-FUMAR-main/fumobye/utils.ts:173-196 | for a positive baseline `b`, success holds if and only if: `c < b` (first two levels); `10c <= 7b`; `2c <= b`; `4c <= b`; `c == 0` (dios) |
| EvolutionLaws.ZeroBaselineNeverSucceeds | Desktop/FUMI-DEJA-DE-FUMAR-main/fumobye/utils.ts:174-196 | with a baseline of 0 (read as 100%), no non-negative count succeeds below dios |
| EvolutionLaws.NumeratorStaysInRange | Desktop/FUMI-DEJA-DE-FUMAR-main/fumobye/utils.ts:136-228 | a numerator in `[0, den)` comes back in `[0, den')` for the next denominator in use |
| EvolutionLaws.CalculateFumiEvolutionCorrected | Desktop/FUMI-DEJA-DE-FUMAR-main/fumobye/utils.ts:211-225 | (corrected promotion) the code's step with only the denominator of a promotion changed: level, numerator, streak and last success are the code's, and so is every denominator outside a promotion |
| EvolutionLaws.RicoInheritsDeporteTarget | Desktop/FUMI-DEJA-DE-FUMAR-main/fumobye/utils.ts:211-225 | as written, deporte promoted to rico stores 3 though rico's target is 5 |
| EvolutionLaws.CorrectedPromotionAsksNewTarget | Desktop/FUMI-DEJA-DE-FUMAR-main/fumobye/utils.ts:211-225 | (corrected promotion) every promotion below the top moves up one level, zeroes the numerator and stores the new level's own target |
| EvolutionLaws.RicoAsksFiveCorrected | Desktop/FUMI-DEJA-DE-FUMAR-main/fumobye/utils.ts:211-225 | (corrected promotion) on the same input rico stores 5 |
| Store.InitialEvolution | Desktop/FUMI-DEJA-DE-FUMAR-main/fumobye/store.tsx:65-72 | lowest level, numerator 0, streak 0, checked on the day of `nowTs`, no last success; its denominator in use is 3 |
| Store.InitialState | Desktop/FUMI-DEJA-DE-FUMAR-main/fumobye/store.tsx:40-83 | version 2, not onboarded, logged out; all clocks at `nowTs`; default settings spending 500 cents a day; no cigarettes, pets or premium; the initial companion |
| Store.LoadSettings | Desktop/FUMI-DEJA-DE-FUMAR-main/fumobye/store.tsx:90-93 | each stored setting is kept, reason, age and years are the stored ones; an old version defaults currency, motivation, age and years again (store.tsx:134-139); with nothing stored the defaults are loaded |
| Store.LoadEvolution | Desktop/FUMI-DEJA-DE-FUMAR-main/fumobye/store.tsx:100-107 | each stored companion field is kept; missing ones become enfermo, 0, 1, the load day, 0 and none |
| Store.LoadProgress | Desktop/FUMI-DEJA-DE-FUMAR-main/fumobye/store.tsx:95-110 | each stored progress field is kept; a missing best streak is 0, also under the old-version override (store.tsx:140); the companion is `LoadEvolution`; with nothing stored the defaults are loaded |
| Store.NormalizeLoadedState | Desktop/FUMI-DEJA-DE-FUMAR-main/fumobye/store.tsx:85-144 | always version 2; a missing or 0 `createdAtTs` becomes `nowTs`; an empty email becomes none; onboarded only if stored true; every field present in stored settings, progress, companion, check-in and premium is kept; each missing companion field gets its default, a missing last success included; a missing best streak is 0 (for every version, version 1 included); missing settings or progress are the initial ones; logged in only if stored true; no stored check-in gives the initial one; premium is off when no premium record or no `active` flag is stored |
| Store.OldVersionLoadsLikeNew | Desktop/FUMI-DEJA-DE-FUMAR-main/fumobye/store.tsx:134-140 | a record marked version 1, or unversioned, loads exactly as the same record marked version 2 |
| Store.SaveThenLoad | Desktop/FUMI-DEJA-DE-FUMAR-main/fumobye/store.tsx:85-144 | saving a version-2 record (non-zero creation time, non-empty email) and loading it gives the same record |
| Store.InitialStateSurvivesReload | Desktop/FUMI-DEJA-DE-FUMAR-main/fumobye/store.tsx:163-175 | a fresh record survives a save and a load |
| Store.EmptyRecordLoadsAsInitial | Desktop/FUMI-DEJA-DE-FUMAR-main/fumobye/store.tsx:85-144 | loading an empty record gives the initial record of the load time |
| Store.GrossSavedCents | Desktop/FUMI-DEJA-DE-FUMAR-main/fumobye/store.tsx:241-250 | gross savings are at least the checkpoint, and equal it (floored at 0) before the checkpoint time |
| Store.NetSavedCents | Desktop/FUMI-DEJA-DE-FUMAR-main/fumobye/store.tsx:253-256 | `savedCentsNow` is 0 or exactly gross minus cigarette spending, and at least that difference, so `max(0, gross - spent)`; at most gross when that spending is non-negative |
| Store.CaprichosSpentCents | Desktop/FUMI-DEJA-DE-FUMAR-main/fumobye/store.tsx:258 | 0 or exactly the recorded treat spending, and at least it: `max(0, recorded)` |
| Store.AvailableCents | Desktop/FUMI-DEJA-DE-FUMAR-main/fumobye/store.tsx:260 | `availableCentsNow` is 0 or exactly `savedCentsNow` minus treats, and at least that difference; at most `savedCentsNow` |
| Store.PurchaseBudget | Desktop/FUMI-DEJA-DE-FUMAR-main/fumobye/store.tsx:395-403 | the amount purchases are checked against is 0 or exactly gross minus treats, and at least that difference; at most gross savings |
| Store.DaysSmokeFree | Desktop/FUMI-DEJA-DE-FUMAR-main/fumobye/store.tsx:262-265 | 0 before onboarding and before the streak starts; otherwise `d >= 1` with `(d-1)` whole days elapsed and fewer than `d` |
| Store.AppDays | Desktop/FUMI-DEJA-DE-FUMAR-main/fumobye/store.tsx:556-557 | at least 1; the number of started days since creation |
| Store.MilestoneOf | Desktop/FUMI-DEJA-DE-FUMAR-main/fumobye/store.tsx:282 | the largest multiple of 1000 not above the balance |
| Store.MilestoneFires | Desktop/FUMI-DEJA-DE-FUMAR-main/fumobye/store.tsx:280-290 | the milestone effect fires exactly when onboarded, net savings are at least 1000 cents, and their milestone is above the last one recorded |
| Store.AvailableWithinBudget | Desktop/FUMI-DEJA-DE-FUMAR-main/fumobye/store.tsx:253-260 | the shown available amount never exceeds what purchases are checked against |
| Store.WholePrice | Desktop/FUMI-DEJA-DE-FUMAR-main/fumobye/store.tsx:389 | `max(0, floor(price))`: the floor of a non-negative price, 0 for a negative one |
| Store.PetPriceBoundary | Desktop/FUMI-DEJA-DE-FUMAR-main/fumobye/store.tsx:416-433 | a pet not owned is sold at exactly the budget and refused one cent above |
| Store.PurchaseIgnoresCigaretteSpending | Desktop/FUMI-DEJA-DE-FUMAR-main/fumobye/store.tsx:423-432 | (illustration) with 1000 gross and 600 spent on cigarettes, 400 is shown available, yet a 1000-cent pet is sold |
| Store.CigaretteCost | Desktop/FUMI-DEJA-DE-FUMAR-main/fumobye/store.tsx:488-493 | the cost is within half a cent of `packPriceCents * amount / cigsPerPack` |
| Store.PerCigaretteTimesAmount | Desktop/FUMI-DEJA-DE-FUMAR-main/fumobye/store.tsx:488-493 | price per cigarette times amount equals price times amount over the pack size |
| Store.PackCostsPackPrice | Desktop/FUMI-DEJA-DE-FUMAR-main/fumobye/store.tsx:488-493 | a whole pack costs the pack price; no cigarettes cost nothing |
| Store.LogCigarettes | Desktop/FUMI-DEJA-DE-FUMAR-main/fumobye/store.tsx:491-520 | the day's count becomes `max(0, old + amount)`; every other day is unchanged |
| Store.MergeEvolution | Desktop/FUMI-DEJA-DE-FUMAR-main/fumobye/store.tsx:215-224 | (corrected merge) the merged record takes the result's level, numerator, denominator, streak and last success, stamped with `today` |
| Store.Evolve | Desktop/FUMI-DEJA-DE-FUMAR-main/fumobye/store.tsx:203-224 | (corrected merge) one evaluation stamps `today`, moves the level by at most one, and the streak becomes 0, stays, or grows by one |
| Store.DailyTick | Desktop/FUMI-DEJA-DE-FUMAR-main/fumobye/store.tsx:185-227 | (corrected merge) the daily check always leaves the record stamped with `today` and changes nothing when it was already checked that day |
| Store.EvolveAsWritten | Desktop/FUMI-DEJA-DE-FUMAR-main/fumobye/store.tsx:203-224 | with the merge as written, an evaluation changes only the checked date |
| Store.DailyTickAsWritten | Desktop/FUMI-DEJA-DE-FUMAR-main/fumobye/store.tsx:185-227 | with the merge as written, the daily check changes only the checked date, and nothing when already checked that day |
| Store.DailyTickIdempotent | Desktop/FUMI-DEJA-DE-FUMAR-main/fumobye/store.tsx:185-227 | (corrected merge) a second check on the same day is a no-op, whatever the counts |
| Store.EvolveKeepsRange | Desktop/FUMI-DEJA-DE-FUMAR-main/fumobye/store.tsx:203-224 | (corrected merge) every evaluation keeps the progress fraction proper and the streak non-negative |
| Store.InitialEvolutionInRange | Desktop/FUMI-DEJA-DE-FUMAR-main/fumobye/store.tsx:65-72 | the initial companion is in range |
| Store.ThreeGoodDaysPromote | Desktop/FUMI-DEJA-DE-FUMAR-main/fumobye/store.tsx:185-227 | (corrected merge) three successful days at deporte from 0 reach rico with numerator 0, stored denominator 3 (deporte's, the lag), streak up by 3 |
| Store.ThreeGoodDaysAsWrittenStayPut | Desktop/FUMI-DEJA-DE-FUMAR-main/fumobye/store.tsx:215-224 | with the merge as written, the same three days change only the checked date |
| Store.ZeroBaselineStaysEnfermo | Desktop/FUMI-DEJA-DE-FUMAR-main/fumobye/store.tsx:185-227 | with a baseline of 0 and no negative counts, the lowest level is kept over any number of daily checks |
| Store.EachCigaretteOverBaselineDemotes | Desktop/FUMI-DEJA-DE-FUMAR-main/fumobye/store.tsx:485-553 | (corrected merge) two cigarettes logged at or over the baseline on one day drop the companion two levels |
| Store.DemotionSkipsYesterday | Desktop/FUMI-DEJA-DE-FUMAR-main/fumobye/store.tsx:546-550 | (corrected merge) a demotion on a day's first evaluation stamps the day, so that day's daily check does nothing and yesterday is never judged |
| Store.EachCigaretteOverBaselineAsWrittenStaysPut | Desktop/FUMI-DEJA-DE-FUMAR-main/fumobye/store.tsx:485-553 | with the merge as written, the same two cigarettes leave the level where it was and only stamp the day |
| Store.CigaretteDaySkipsDailyCheckAsWritten | Desktop/FUMI-DEJA-DE-FUMAR-main/fumobye/store.tsx:546-550 | with the merge as written too, a cigarette's evaluation stamps the day, so that day's daily check does nothing |
| Store.OnboardedState | Desktop/FUMI-DEJA-DE-FUMAR-main/fumobye/store.tsx:294-323 | the record after onboarding: onboarded; companion, best streak, premium, email, pack size and currency kept; 0 saved, 0 available and day 1 at `ts` |
| Store.FumoByeStore.constructor | Desktop/FUMI-DEJA-DE-FUMAR-main/fumobye/store.tsx:155-158 | not ready, initial record and clock at the start time, no confetti |
| Store.FumoByeStore.Load | Desktop/FUMI-DEJA-DE-FUMAR-main/fumobye/store.tsx:163-175 | the migrated stored record replaces the state and the store is ready |
| Store.FumoByeStore.DailyEvolutionCheck | Desktop/FUMI-DEJA-DE-FUMAR-main/fumobye/store.tsx:185-227 | once ready, the companion becomes `DailyTickAsWritten` of it for the clock's day (the merge as written: only the date moves); all else unchanged |
| Store.FumoByeStore.UpdateBestStreak | Desktop/FUMI-DEJA-DE-FUMAR-main/fumobye/store.tsx:268-277 | when ready and onboarded, the best streak becomes the max of itself and `daysSmokeFree`; it never decreases; nothing else changes |
| Store.FumoByeStore.UpdateMilestone | Desktop/FUMI-DEJA-DE-FUMAR-main/fumobye/store.tsx:280-290 | a positive milestone above the last one is recorded and raises the confetti flag; otherwise nothing changes; the last milestone never decreases |
| Store.FumoByeStore.Tick | Desktop/FUMI-DEJA-DE-FUMAR-main/fumobye/store.tsx:178-290 | nothing happens before loading; once ready the clock moves to `now` and the whole new record is given: the companion after the daily check as written, the best streak as `max(best, daysSmokeFree)` when onboarded, and the milestone recorded exactly when a positive one above the last is reached, which also raises the confetti flag; best streak and milestone never decrease |
| Store.FumoByeStore.ClearConfetti | Desktop/FUMI-DEJA-DE-FUMAR-main/fumobye/store.tsx:292 | the confetti flag is lowered |
| Store.FumoByeStore.CompleteOnboarding | Desktop/FUMI-DEJA-DE-FUMAR-main/fumobye/store.tsx:294-323 | the record becomes `OnboardedState` of the answers: settings replaced, savings, streak, spending, counts and pets restarted at `ts`; 0 saved and day 1 at `ts` |
| Store.ApplyPatch | Desktop/FUMI-DEJA-DE-FUMAR-main/fumobye/store.tsx:325-342 | every setting the patch carries is taken from it, the rest kept; a patch without count, price or pack size keeps the daily spend; an empty patch changes nothing |
| Store.FumoByeStore.UpdateSettings | Desktop/FUMI-DEJA-DE-FUMAR-main/fumobye/store.tsx:325-342 | the patch is applied, and the checkpoint becomes the savings at `ts` under the old rate; gross savings at `ts` are unchanged |
| Store.FumoByeStore.MarkCheckin | Desktop/FUMI-DEJA-DE-FUMAR-main/fumobye/store.tsx:344-350 | today's day and the mood are recorded; nothing else changes |
| Store.FumoByeStore.ResetProgress | Desktop/FUMI-DEJA-DE-FUMAR-main/fumobye/store.tsx:352-382 | best streak = max(best, current streak); checkpoint, ledgers, counts and milestone are zeroed; the companion restarts at `ts`; owned pets and active pet are kept |
| Store.FumoByeStore.SetPremiumActive | Desktop/FUMI-DEJA-DE-FUMAR-main/fumobye/store.tsx:384-386 | only the premium flag changes |
| Store.FumoByeStore.BuyCapricho | Desktop/FUMI-DEJA-DE-FUMAR-main/fumobye/store.tsx:388-414 | succeeds exactly when the whole price is non-zero and within the gross purchase budget; then treat spending grows by the price, otherwise nothing changes; a zero price leaves the clock |
| Store.FumoByeStore.BuyPet | Desktop/FUMI-DEJA-DE-FUMAR-main/fumobye/store.tsx:416-445 | succeeds exactly when the price is within the gross budget and the pet is not owned; then it is charged, appended and made active, otherwise nothing changes |
| Store.FumoByeStore.SetActivePet | Desktop/FUMI-DEJA-DE-FUMAR-main/fumobye/store.tsx:447-455 | only the active pet changes |
| Store.FumoByeStore.Login | Desktop/FUMI-DEJA-DE-FUMAR-main/fumobye/store.tsx:457-466 | any email logs in and is recorded; the result is true |
| Store.FumoByeStore.Logout | Desktop/FUMI-DEJA-DE-FUMAR-main/fumobye/store.tsx:468-474 | logged out, email cleared |
| Store.FumoByeStore.DeleteAccount | Desktop/FUMI-DEJA-DE-FUMAR-main/fumobye/store.tsx:476-483 | the record becomes the initial record of `ts` |
| Store.FumoByeStore.RegisterCigarette | Desktop/FUMI-DEJA-DE-FUMAR-main/fumobye/store.tsx:485-553 | the day (today when none is given) moves by the amount (1 when none is given), not below 0; the cost goes into cigarette spending and also comes off the checkpoint, which moves to `ts`; the streak restarts; the companion goes through the merge as written, so only its checked date becomes that (possibly past) day |
| Onboarding.ReplaceFirst | Desktop/FUMI-DEJA-DE-FUMAR-main/app/onboarding.tsx:44 | `replace(',', '.')` keeps the length and changes nothing without a comma |
| Onboarding.ReplaceFirstAfter | Desktop/FUMI-DEJA-DE-FUMAR-main/app/onboarding.tsx:44 | only the first occurrence is replaced |
| Onboarding.KeepPriceChars | Desktop/FUMI-DEJA-DE-FUMAR-main/app/onboarding.tsx:44 | the result holds only digits and dots, each from the input, and text made only of those is kept |
| Onboarding.KeepPriceCharsAppend | Desktop/FUMI-DEJA-DE-FUMAR-main/app/onboarding.tsx:44 | the clean-up of a concatenation is the concatenation of the clean-ups |
| Onboarding.KeepPriceCharsOne | Desktop/FUMI-DEJA-DE-FUMAR-main/app/onboarding.tsx:44 | one character is kept exactly when it is a digit or a dot |
| Onboarding.IndexOf | Desktop/FUMI-DEJA-DE-FUMAR-main/app/onboarding.tsx:45 | the index found holds the character and none comes before it |
| Onboarding.DecimalValue | Desktop/FUMI-DEJA-DE-FUMAR-main/app/onboarding.tsx:45-46 | `Number` of digits and dots is never negative; without a dot it is the digits' value (0 for empty text) |
| Onboarding.SplitValue | Desktop/FUMI-DEJA-DE-FUMAR-main/app/onboarding.tsx:45 | the value of `whole.frac` is non-negative |
| Onboarding.PackPriceCents | Desktop/FUMI-DEJA-DE-FUMAR-main/app/onboarding.tsx:43-48 | 0 for text that is not a number; otherwise within half a cent of 100 times the number read |
| Onboarding.CentsToFixed2 | Desktop/FUMI-DEJA-DE-FUMAR-main/app/onboarding.tsx:37 | `toFixed(2)` of a price is digits and dots with a dot |
| Onboarding.PriceText | Desktop/FUMI-DEJA-DE-FUMAR-main/app/onboarding.tsx:37 | a non-negative price prints as units, a dot and two digits |
| Onboarding.PriceTextRoundTrip | Desktop/FUMI-DEJA-DE-FUMAR-main/app/onboarding.tsx:37-48 | the price text the screen starts from parses back to the stored price |
| Onboarding.PriceTextReads | Desktop/FUMI-DEJA-DE-FUMAR-main/app/onboarding.tsx:44-46 | that text survives the clean-up and reads as its two parts |
| Onboarding.SplitValueOfCents | Desktop/FUMI-DEJA-DE-FUMAR-main/app/onboarding.tsx:47 | the two parts are worth the price in cents |
| Onboarding.DecimalValueOfSplit | Desktop/FUMI-DEJA-DE-FUMAR-main/app/onboarding.tsx:45 | digits, a dot and digits read as the whole part plus the fraction |
| Onboarding.CommaReadsAsDot | Desktop/FUMI-DEJA-DE-FUMAR-main/app/onboarding.tsx:44 | a comma as decimal separator gives the same price as a dot |
| Onboarding.TwoDotsIsNone | Desktop/FUMI-DEJA-DE-FUMAR-main/app/onboarding.tsx:45-46 | digits and dots with two dots or more are not a number |
| Onboarding.TwoDotsPriceIsZero | Desktop/FUMI-DEJA-DE-FUMAR-main/app/onboarding.tsx:43-48 | any text whose cleaned form has two dots or more gives a price of 0 |
| Onboarding.NoDigitsPriceIsZero | Desktop/FUMI-DEJA-DE-FUMAR-main/app/onboarding.tsx:43-48 | any text whose cleaned form is empty or a lone dot gives a price of 0 |
| Onboarding.MalformedPriceIsZero | Desktop/FUMI-DEJA-DE-FUMAR-main/app/onboarding.tsx:43-48 | (illustration) "1.2.3", "." and "" give a price of 0 |
| Onboarding.EuroPriceExample | Desktop/FUMI-DEJA-DE-FUMAR-main/app/onboarding.tsx:43-48 | (illustration) "4,50 €" gives 450 cents: the comma is a dot and the euro sign is dropped |
| Onboarding.LeadingDotExample | Desktop/FUMI-DEJA-DE-FUMAR-main/app/onboarding.tsx:43-48 | (illustration) ".5" gives 50 cents |
| Onboarding.DailyEstimateCents | Desktop/FUMI-DEJA-DE-FUMAR-main/app/onboarding.tsx:152-155 | shown if and only if the price is positive, and then within half a cent of `price * cigsPerDay / 20` |
| Onboarding.EstimateMatchesDailySpend | Desktop/FUMI-DEJA-DE-FUMAR-main/app/onboarding.tsx:152-155 | the estimate is the store's daily spend for a 20-cigarette pack |
| Onboarding.OnboardingScreen.constructor | Desktop/FUMI-DEJA-DE-FUMAR-main/app/onboarding.tsx:35-40 | opens at step 0 with the current settings; age 30 and 5 years when unset |
| Onboarding.OnboardingScreen.StepCigsPerDay | Desktop/FUMI-DEJA-DE-FUMAR-main/app/onboarding.tsx:100-117 | the count moves by one and stays in [0, 200] |
| Onboarding.OnboardingScreen.StepAge | Desktop/FUMI-DEJA-DE-FUMAR-main/app/onboarding.tsx:166-186 | the age moves by one and stays in [1, 120] |
| Onboarding.OnboardingScreen.StepYearsSmoking | Desktop/FUMI-DEJA-DE-FUMAR-main/app/onboarding.tsx:196-216 | the years move by one and stay in [0, 80] |
| Onboarding.OnboardingScreen.EditPriceText | Desktop/FUMI-DEJA-DE-FUMAR-main/app/onboarding.tsx:131-132 | the typed text replaces the price text |
| Onboarding.OnboardingScreen.ChooseReason | Desktop/FUMI-DEJA-DE-FUMAR-main/app/onboarding.tsx:232-233 | the chosen reason is recorded |
| Onboarding.OnboardingScreen.Back | Desktop/FUMI-DEJA-DE-FUMAR-main/app/onboarding.tsx:67-73 | goes back one step from any step after the first; the step stays in [0, 5] |
| Onboarding.OnboardingScreen.Continue | Desktop/FUMI-DEJA-DE-FUMAR-main/app/onboarding.tsx:356-367 | while enabled, moves one step forward before the last; at the last step with a reason set, the store record becomes exactly `OnboardedState` of the answers (the typed price read by `PackPriceCents`); otherwise the store is untouched |
| Onboarding.NextEnabled | Desktop/FUMI-DEJA-DE-FUMAR-main/app/onboarding.tsx:50-56 | `canContinue`: only steps 0 to 5 can be enabled, and the last always is; each step's condition is given by `GatingPerStep` |
| Onboarding.GatingPerStep | Desktop/FUMI-DEJA-DE-FUMAR-main/app/onboarding.tsx:50-56 | each step's button is enabled exactly when its own answer is acceptable; the last always is |
| Reflexion.Rotate | Desktop/FUMI-DEJA-DE-FUMAR-main/app/reflexion.tsx:275-282 | element `i` of the rotation is element `(i + k) mod n` of the list |
| Reflexion.RotateAt | Desktop/FUMI-DEJA-DE-FUMAR-main/app/reflexion.tsx:275-278 | the same, one index at a time |
| Reflexion.RotateIsPermutation | Desktop/FUMI-DEJA-DE-FUMAR-main/app/reflexion.tsx:275-282 | a rotation is a permutation (same multiset) |
| Reflexion.Take | Desktop/FUMI-DEJA-DE-FUMAR-main/app/reflexion.tsx:286-287 | `slice(0, n)` has length `min(len, n)` and is a prefix |
| Reflexion.SetIndex | Desktop/FUMI-DEJA-DE-FUMAR-main/app/reflexion.tsx:263 | the extra set index is a valid index |
| Reflexion.Seed | Desktop/FUMI-DEJA-DE-FUMAR-main/app/reflexion.tsx:270 | the seed is below 1000 |
| Reflexion.Content | Desktop/FUMI-DEJA-DE-FUMAR-main/app/reflexion.tsx:256-289 | a missing or unknown mood gives the ansioso content unrotated; a known mood keeps every base field but the two lists, which hold four entries each |
| Reflexion.ShownTipsAreRotated | Desktop/FUMI-DEJA-DE-FUMAR-main/app/reflexion.tsx:263-287 | tip `k` shown is entry `(k + seed mod 8) mod 8` of base tips plus the second's extra set; distraction `k` uses `2 * seed` |
| Reflexion.ShownTipsComeFromTheMood | Desktop/FUMI-DEJA-DE-FUMAR-main/app/reflexion.tsx:266-287 | both rotated lists are permutations of base plus extra set, so every item shown comes from them |
| Reflexion.SameSecondSameContent | Desktop/FUMI-DEJA-DE-FUMAR-main/app/reflexion.tsx:263-272 | the content depends only on the whole second of the timestamp |
| PremiumScreen.ChoosePackage | Desktop/FUMI-DEJA-DE-FUMAR-main/app/premium.tsx:77-94 | none exactly for an empty list; the first package with the plan's identifier, else the first of the plan's type, else the first package |
| PremiumScreen.HandlePurchase | Desktop/FUMI-DEJA-DE-FUMAR-main/app/premium.tsx:67-121 | premium ends up active on every path and nothing else changes; a purchase is attempted exactly when no error came first and the offering has packages, and then it is one of them |
| PremiumScreen.Restore | Desktop/FUMI-DEJA-DE-FUMAR-main/app/premium.tsx:391-399 | premium is switched on exactly when the restored purchases carry the `premium` entitlement; otherwise nothing changes |
| Theme.Get | Desktop/FUMI-DEJA-DE-FUMAR-main/constants/theme.ts:103 | `ColorUtils.get`: every palette entry is `#` and six hex digits |
| Theme.WithOpacity | Desktop/FUMI-DEJA-DE-FUMAR-main/constants/theme.ts:106-111 | `ColorUtils.withOpacity`: the text opens with `rgba(` and closes with the opacity and `)`; its channels are given by `WithOpacityRoundTrip` and `SecondHashIsKept` |
| Theme.RgbaText | Desktop/FUMI-DEJA-DE-FUMAR-main/constants/theme.ts:111 | the `rgba(…)` template opens with `rgba(` and closes with the opacity and `)` |
| Theme.HexDigitValue | Desktop/FUMI-DEJA-DE-FUMAR-main/constants/theme.ts:108 | a hex digit is worth less than 16 |
| Theme.HexChar | Desktop/FUMI-DEJA-DE-FUMAR-main/constants/theme.ts:108 | the digit written for a value reads back as that value |
| Theme.HexPrefix | Desktop/FUMI-DEJA-DE-FUMAR-main/constants/theme.ts:108 | the longest run of hex digits at the start, and the whole text when all of it is hex |
| Theme.TrimStart | Desktop/FUMI-DEJA-DE-FUMAR-main/constants/theme.ts:108 | leading white space is dropped; text not starting with it is kept |
| Theme.ParseIntHex | Desktop/FUMI-DEJA-DE-FUMAR-main/constants/theme.ts:108-110 | `parseInt(s, 16)`: plain hex digits read as their value; empty text is NaN |
| Theme.HexByte | Desktop/FUMI-DEJA-DE-FUMAR-main/constants/theme.ts:108-110 | two hex digits for a byte |
| Theme.TwoHexDigits | Desktop/FUMI-DEJA-DE-FUMAR-main/constants/theme.ts:108-110 | two hex digits are worth 16 times the first plus the second, at most 255 |
| Theme.HexByteRoundTrip | Desktop/FUMI-DEJA-DE-FUMAR-main/constants/theme.ts:108-110 | parsing the two hex digits of a byte gives the byte |
| Theme.RemoveFirst | Desktop/FUMI-DEJA-DE-FUMAR-main/constants/theme.ts:107 | `replace('#', '')` removes exactly one character when a '#' is present (the leading one if first) and nothing otherwise |
| Theme.Substring | Desktop/FUMI-DEJA-DE-FUMAR-main/constants/theme.ts:108-110 | `substring(a, b)` within bounds is the slice |
| Theme.HexColorChannels | Desktop/FUMI-DEJA-DE-FUMAR-main/constants/theme.ts:106-110 | for `#RRGGBB` the channels are the values of the three digit pairs, each in [0, 255] |
| Theme.PaletteIsHex | Desktop/FUMI-DEJA-DE-FUMAR-main/constants/theme.ts:12-50 | every palette entry is '#' and six hex digits |
| Theme.PaletteChannelsInRange | Desktop/FUMI-DEJA-DE-FUMAR-main/constants/theme.ts:103-110 | `withOpacity(get(k), o)` prints three numbers, each in [0, 255] |
| Theme.WithOpacityRoundTrip | Desktop/FUMI-DEJA-DE-FUMAR-main/constants/theme.ts:106-111 | a colour written from three bytes prints exactly `rgba(r, g, b, o)` |
| Theme.BytesChannels | Desktop/FUMI-DEJA-DE-FUMAR-main/constants/theme.ts:106-110 | such a colour's channels are its bytes |
| Theme.SecondHashIsKept | Desktop/FUMI-DEJA-DE-FUMAR-main/constants/theme.ts:107-108 | only the first '#' is removed: `##FFFFFF` gives NaN, 255, 255 |
| Mulberry32.DrawValue | Desktop/FUMI-DEJA-DE-FUMAR-main/components/ash-overlay.tsx:17-19 | every draw lies in [0, 1) |
| Mulberry32.Draws | Desktop/FUMI-DEJA-DE-FUMAR-main/components/ash-overlay.tsx:14-21 | `n` calls give `n` numbers, all in [0, 1) |
| Mulberry32.AdvanceAdd | Desktop/FUMI-DEJA-DE-FUMAR-main/components/ash-overlay.tsx:16 | `m` calls then `n` calls advance the state as `m + n` calls |
| Mulberry32.DrawsSplit | Desktop/FUMI-DEJA-DE-FUMAR-main/components/ash-overlay.tsx:14-21 | the first `m + n` draws are the first `m` followed by `n` from the advanced state |
| Mulberry32.DrawsSnoc | Desktop/FUMI-DEJA-DE-FUMAR-main/components/ash-overlay.tsx:15-20 | one more call appends the value of the once-more advanced state |
| Mulberry32.FiveDraws | Desktop/FUMI-DEJA-DE-FUMAR-main/components/ash-overlay.tsx:41-45 | five calls are the values of the state advanced once, ..., five times |
| Mulberry32.SixDraws | Desktop/FUMI-DEJA-DE-FUMAR-main/components/light-particles.tsx:34-42 | six calls likewise |
| Mulberry32.BlockOfFive | Desktop/FUMI-DEJA-DE-FUMAR-main/components/ash-overlay.tsx:38-47 | block `i` of five is the five values after `5i` calls, and ends at the state after `5(i+1)` |
| Mulberry32.BlockOfSix | Desktop/FUMI-DEJA-DE-FUMAR-main/components/light-particles.tsx:33-44 | block `i` of six likewise |
| Mulberry32.Block | Desktop/FUMI-DEJA-DE-FUMAR-main/components/ash-overlay.tsx:38-47 | a block has `k` draws, all in [0, 1) |
| Mulberry32.BlockIsSlice | Desktop/FUMI-DEJA-DE-FUMAR-main/components/ash-overlay.tsx:38-47 | block `i` is draws `k*i` to `k*i + k - 1` of all `k*n` draws |
| Mulberry32.DrawsWindow | Desktop/FUMI-DEJA-DE-FUMAR-main/components/ash-overlay.tsx:14-21 | the `k` draws after the first `a` are the first `k` from the state advanced `a` times |
| Mulberry32.Rng.constructor | Desktop/FUMI-DEJA-DE-FUMAR-main/components/ash-overlay.tsx:14 | the closure starts at the seed's bits |
| Mulberry32.Rng.Next | Desktop/FUMI-DEJA-DE-FUMAR-main/components/ash-overlay.tsx:15-20 | each call advances the state by 0x6d2b79f5 mod 2^32 and returns the scrambled new state over 2^32, in [0, 1) |
| AshOverlay.ParticleOf | Desktop/FUMI-DEJA-DE-FUMAR-main/components/ash-overlay.tsx:39-46 | id `${seed}-${i}`; size in [3, 10), delay in [0, 260), duration in [900, 1800), opacity in [0.12, 0.34) |
| AshOverlay.ParticleStartsOnScreen | Desktop/FUMI-DEJA-DE-FUMAR-main/components/ash-overlay.tsx:41 | x lies in [0, width) |
| AshOverlay.ParticleList | Desktop/FUMI-DEJA-DE-FUMAR-main/components/ash-overlay.tsx:34-49 | exactly 34 particles |
| AshOverlay.NextParticle | Desktop/FUMI-DEJA-DE-FUMAR-main/components/ash-overlay.tsx:39-46 | five calls from the state after `5i` draws give particle `i`, ending at the state after `5(i+1)` |
| AshOverlay.ParticleIdInjective | Desktop/FUMI-DEJA-DE-FUMAR-main/components/ash-overlay.tsx:40 | for non-negative seeds, an id determines its seed and index |
| AshOverlay.NewParticle | Desktop/FUMI-DEJA-DE-FUMAR-main/components/ash-overlay.tsx:39-46 | the literal pushed for particle `i` is list entry `i`; the generator moves on five draws |
| AshOverlay.BuildParticles | Desktop/FUMI-DEJA-DE-FUMAR-main/components/ash-overlay.tsx:34-49 | the loop builds exactly the particle list of the seed |
| AshOverlay.ParticlesTakeConsecutiveDraws | Desktop/FUMI-DEJA-DE-FUMAR-main/components/ash-overlay.tsx:38-47 | particle `i` uses draws `5i .. 5i+4` of the 170, in the order x, size, delay, duration, opacity |
| AshOverlay.ParticleIdsDistinct | Desktop/FUMI-DEJA-DE-FUMAR-main/components/ash-overlay.tsx:40 | the 34 ids are pairwise distinct |
| AshOverlay.Overlay.constructor | Desktop/FUMI-DEJA-DE-FUMAR-main/components/ash-overlay.tsx:25-29 | the seed starts at 1 and is bumped to 2 if mounted visible |
| AshOverlay.Overlay.SetVisible | Desktop/FUMI-DEJA-DE-FUMAR-main/components/ash-overlay.tsx:27-29 | the seed grows by exactly one when `visible` becomes true, and otherwise stays |
| AshOverlay.Overlay.Particles | Desktop/FUMI-DEJA-DE-FUMAR-main/components/ash-overlay.tsx:34-49 | the particles rendered are the list of the current seed |
| AshOverlay.NextShowHasFreshIds | Desktop/FUMI-DEJA-DE-FUMAR-main/components/ash-overlay.tsx:29-40 | no particle id of one show reappears in the next |
| LightParticles.DotOf | Desktop/FUMI-DEJA-DE-FUMAR-main/components/light-particles.tsx:34-43 | key `dot-${i}`; left and top in [0, 100); delay in [0, 1399]; duration in [5200, 10399]; size and opacity ranges per variant |
| LightParticles.DotList | Desktop/FUMI-DEJA-DE-FUMAR-main/components/light-particles.tsx:29-46 | exactly `max(0, count)` dots |
| LightParticles.NextDot | Desktop/FUMI-DEJA-DE-FUMAR-main/components/light-particles.tsx:33-44 | six calls from the state after `6i` draws give dot `i`, ending at the state after `6(i+1)` |
| LightParticles.NewDot | Desktop/FUMI-DEJA-DE-FUMAR-main/components/light-particles.tsx:34-43 | the literal pushed for dot `i` is list entry `i`; the generator moves on six draws |
| LightParticles.BuildDots | Desktop/FUMI-DEJA-DE-FUMAR-main/components/light-particles.tsx:30-46 | the loop from seed 1337 builds exactly the dot list |
| LightParticles.Dots | Desktop/FUMI-DEJA-DE-FUMAR-main/components/light-particles.tsx:29 | defaults 14 and subtle; 14 dots when no count is given |
| LightParticles.DotsTakeConsecutiveDraws | Desktop/FUMI-DEJA-DE-FUMAR-main/components/light-particles.tsx:33-44 | dot `i` uses draws `6i .. 6i+5`, in the order size, left, top, delay, duration, opacity |
| LightParticles.DotKeysDistinct | Desktop/FUMI-DEJA-DE-FUMAR-main/components/light-particles.tsx:36 | keys are pairwise distinct |
| LightParticles.FewerDotsArePrefix | Desktop/FUMI-DEJA-DE-FUMAR-main/components/light-particles.tsx:30-33 | the seed is fixed, so a shorter list is a prefix of a longer one |
| LightParticles.VariantKeepsPlaceAndTiming | Desktop/FUMI-DEJA-DE-FUMAR-main/components/light-particles.tsx:34-42 | the two variants give dot `i` the same key, position, delay and duration |
| Decimal.NatToString | Desktop/FUMI-DEJA-DE-FUMAR-main/components/ash-overlay.tsx:40 | a template literal prints a number as one or more digits; a single digit exactly below 10 |
| Decimal.IntToString | Desktop/FUMI-DEJA-DE-FUMAR-main/components/ash-overlay.tsx:40 | digits for non-negatives, a '-' and digits for negatives |
| Decimal.NatToStringRoundTrip | Desktop/FUMI-DEJA-DE-FUMAR-main/components/ash-overlay.tsx:40 | reading the printed digits gives the number back |
| Decimal.NatToStringInjective | Desktop/FUMI-DEJA-DE-FUMAR-main/components/light-particles.tsx:36 | distinct numbers print differently |
| Decimal.IntToStringInjective | Desktop/FUMI-DEJA-DE-FUMAR-main/components/ash-overlay.tsx:40 | distinct integers print differently |
| Decimal.PadStart | Desktop/FUMI-DEJA-DE-FUMAR-main/app/onboarding.tsx:37 | digits of at least the width, worth the number |

## Left out

- Local time zones: a date is the UTC day number `ts / DAY_MS`. `toISODateLocal` uses the local zone. The source also builds "yesterday" with `new Date(today)`, which parses as UTC midnight, so west of UTC it lands two days back. The model uses `today - 1`.
- Floating point: the model computes exactly over reals. JavaScript doubles could round differently at exact `.5` ties of the per-second rate, the cost per cigarette and `n * 100` in price parsing. Digit text beyond the range of a double reads as `Infinity` in the source, which `!Number.isFinite` turns into a price of 0; the model reads it as the exact (huge) number. The fractional particle and dot fields (x, size, opacity, left, top) are exact reals too.
- Mulberry32.SeedBits: the closure's seed is a double that is never wrapped. Only its value mod 2^32 is ever read, which is exact while the seed stays below 2^53.
- Storage and the subscription SDK are I/O. The loaded record and the SDK's answers are inputs; SDK errors arrive as `None`.
- Not modelled: the debounced save, the one-second timer (an explicit `Tick`), haptics, navigation, animations and `setTimeout`.
- Stale closures: `registerCigarette` reads the pack price from its closure, and `buy*` read `stateRef`. Each action reads the current state.
- Store.NormalizeLoadedState: a stored `null` is read as missing, while a spread would keep the `null`. Wrong-typed JSON, a `NaN` creation time and a `null` loaded record are not modelled, nor is a non-numeric best streak of an old record, which `Number(…) || 0` turns into 0.
- Store.FumoByeStore.RegisterCigarette: requires `cigsPerPack != 0`. With 0 the source divides by zero and stores `Infinity`/`NaN`.
- Store.FumoByeStore.RegisterCigarette: counts and amounts are whole numbers, so `Math.round` on counts is the identity.
- Store.FumoByeStore.Login: the 600 ms delay and the unused password are not modelled.
- Store.FumoByeStore.DeleteAccount: clearing and rewriting storage are not modelled.
- `calculateHealthMetrics` (utils.ts:234-302) is a floating-point heuristic. Currency formatting (`formatMoneyFromCents`, `currencySymbol`) is `toLocaleString`. Neither is modelled.
- Reflexion.Content: the screen's text tables are a parameter of a fixed shape. Not modelled: mood names that are keys of `Object.prototype`, and a `t` that parses as `NaN` or a negative number.
- PremiumScreen.HandlePurchase: `interrupted` stands for an exception thrown before the purchase (haptics or reading the offering). The SDK calls themselves catch their errors and return `null`.
- Theme.WithOpacity: takes the opacity as the text JavaScript prints for it. Number-to-text printing is not modelled.
- Theme.TrimStart: only space, tab, line feed and carriage return count as white space.
- Onboarding.PriceText: the round trip is proved for non-negative prices. `toFixed` on prices too large for exact doubles is not modelled.
- LightParticles.Dots: `count` is a whole number. A fractional count, which would give `ceil(count)` dots, is not modelled.
- AshOverlay.Overlay.SetVisible: the effect also re-runs when `onDone` changes while visible; that extra bump is not modelled.
- The `Brand`/`Colors` tables and the font constants of `theme.ts` are static data.

## Findings

| source | as written | input that shows it | evidently intended | confidence | as-written member | corrected member |
|---|---|---|---|---|---|---|
| Desktop/FUMI-DEJA-DE-FUMAR-main/fumobye/store.tsx:215-224 | `{...evolution, ...evolutionResult, lastCheckedDate: today}`. `calculateFumiEvolution` returns `newLevel`, `newProgressNumerator`, … (utils.ts:222-228), but the record reads `currentLevel`, `progressNumerator`, …. Only the date is updated, so the companion never moves. The same merge is at store.tsx:546-550. | companion at deporte with numerator 0, checked on day d; a positive baseline; at most 70% of it smoked on days d, d+1 and d+2 and less than it on d+3; the daily check runs on d+1, d+2 and d+3 | the result's values replace the stored level, numerator, denominator, streak and last success, so the companion reaches rico | high (not executed) | Store.ThreeGoodDaysAsWrittenStayPut | Store.ThreeGoodDaysPromote |
| Desktop/FUMI-DEJA-DE-FUMAR-main/fumobye/utils.ts:211-225 | after a promotion the denominator is left at 1 with the comment that the next tick of the level will set it up, but line 225 replaces that 1 by `targetDen`, the target of the level being left (computed at the top of the call). | companion at deporte with numerator 2 and stored denominator 3, checked on day 10; baseline 20; nothing smoked on day 10; evaluated on day 11 | the new level's own target is stored, so rico asks for 5 successful days, pulmonDiamante for 10 and dios for 15 (as written: 3, 5 and 10) | medium (not executed) | EvolutionLaws.RicoInheritsDeporteTarget | EvolutionLaws.CorrectedPromotionAsksNewTarget |

The model follows the code as written in both places. The store object (`Store.FumoByeStore`) only stamps the date in its daily check and in `RegisterCigarette` (`Store.DailyTickAsWritten`, `Store.EvolveAsWritten`). Every promotion stores the target of the level being left. The corrected functions sit beside them and state what the app evidently intends: those marked "(corrected merge)" in the Model table, and `EvolutionLaws.CalculateFumiEvolutionCorrected`, marked "(corrected promotion)".
