/**
 * The persisted record of the app (`FumoByeState` and its parts).
 * Calendar dates (`YYYY-MM-DD` strings in the app) are integer day numbers here,
 * timestamps are integer milliseconds and money is integer cents.
 */
module Types {
  import opened Wrappers

  datatype Reason = Dinero | Salud | Aliento
  datatype Mood = Zen | Ansioso | Rojo
  datatype Currency = EUR | USD | GBP | MXN

  /** The six companion stages, in their fixed order. */
  datatype Level = Enfermo | BebeSano | Deporte | Rico | PulmonDiamante | Dios

  datatype Settings = Settings(
    cigsPerDay: int,
    packPriceCents: int,
    cigsPerPack: int,
    reason: Option<Reason>,
    currency: Currency,
    motivationBeast: bool,
    age: Option<int>,
    yearsSmoking: Option<int>)

  /** The companion's persisted state (`progress.fumiEvolution`). */
  datatype Evolution = Evolution(
    currentLevel: Level,
    progressNumerator: int,
    progressDenominator: int,
    lastCheckedDate: int,
    streakDays: int,
    lastSuccessDate: Option<int>)

  datatype Progress = Progress(
    baseCents: int,
    baseAtTs: int,
    smokeFreeStartTs: int,
    lastMilestoneCents: int,
    bestStreakDays: int,
    caprichosSpentCents: int,
    cigarettesSmoked: map<int, int>,
    cigarettesSpentCents: int,
    fumiEvolution: Evolution,
    ownedPets: seq<string>,
    activePetId: Option<string>)

  datatype Checkin = Checkin(lastCheckinDate: Option<int>, lastMood: Option<Mood>)

  datatype Premium = Premium(active: bool)

  datatype State = State(
    schemaVersion: int,
    onboardingCompleted: bool,
    createdAtTs: int,
    isLoggedIn: bool,
    email: Option<string>,
    settings: Settings,
    progress: Progress,
    checkin: Checkin,
    premium: Premium)
}
