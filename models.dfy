/**
 * The records of the tracker, as the backend's pydantic models declare
 * them (with their defaults), and the `$set` semantics of their partial
 * updates. Ratings are integers in tenths (9.5 is 95); prices are cents;
 * dates are ISO `YYYY-MM-DD` strings; timestamps are opaque integers.
 */
module Models {
  import opened Wrappers
  import opened Sequences

  /** `datetime.utcnow()`, treated as an opaque value supplied by the caller. */
  type Timestamp = int

  /** `GameBase`: `releaseDate` is required; the optional fields default to absent, `progress` to 0. */
  datatype GameBase = GameBase(
    title: string,
    platform: string,
    genre: string,
    status: string,
    rating: int,
    playtime: int,
    developer: string,
    releaseDate: string,
    startDate: Option<string> := None,
    completionDate: Option<string> := None,
    cover: string,
    progress: int := 0,
    notes: Option<string> := None)

  /** `Game`: a `GameBase` with an id and creation/update timestamps. */
  datatype Game = Game(id: string, info: GameBase, createdAt: Timestamp, updatedAt: Timestamp)

  /** `GameUpdate`: every field optional, absent by default. */
  datatype GameUpdate = GameUpdate(
    title: Option<string> := None,
    platform: Option<string> := None,
    genre: Option<string> := None,
    status: Option<string> := None,
    rating: Option<int> := None,
    playtime: Option<int> := None,
    developer: Option<string> := None,
    releaseDate: Option<string> := None,
    startDate: Option<string> := None,
    completionDate: Option<string> := None,
    cover: Option<string> := None,
    progress: Option<int> := None,
    notes: Option<string> := None)

  /** `BacklogBase`: only `notes` has a default. */
  datatype BacklogBase = BacklogBase(
    title: string,
    platform: string,
    genre: string,
    category: string,
    priority: string,
    developer: string,
    releaseDate: string,
    cover: string,
    estimatedPlaytime: int,
    currentPrice: nat,
    wishlistPrice: nat,
    notes: Option<string> := None)

  /** `Backlog`: a `BacklogBase` with an id and creation/update timestamps. */
  datatype BacklogItem = BacklogItem(id: string, info: BacklogBase, createdAt: Timestamp, updatedAt: Timestamp)

  /** `BacklogUpdate`: every field optional, absent by default. */
  datatype BacklogUpdate = BacklogUpdate(
    title: Option<string> := None,
    platform: Option<string> := None,
    genre: Option<string> := None,
    category: Option<string> := None,
    priority: Option<string> := None,
    developer: Option<string> := None,
    releaseDate: Option<string> := None,
    cover: Option<string> := None,
    estimatedPlaytime: Option<int> := None,
    currentPrice: Option<nat> := None,
    wishlistPrice: Option<nat> := None,
    notes: Option<string> := None)

  /** `Preferences`: the language defaults to English. */
  datatype Preferences = Preferences(id: string, language: string := "en", createdAt: Timestamp, updatedAt: Timestamp)

  /** `PreferencesUpdate`. */
  datatype PreferencesUpdate = PreferencesUpdate(language: Option<string> := None)

  /** The 400 answer every update route gives when the request sets no field. */
  const NoUpdateData := HttpError(400, "No update data provided")

  /** `StatsResponse` (and the dashboard's stats object); `avgRating` in tenths. */
  datatype Stats = Stats(
    totalGames: int,
    completed: int,
    inProgress: int,
    totalPlaytime: int,
    avgRating: int,
    backlogCount: int)

  /** `MoveToLibraryRequest`: what the caller may set when a backlog item becomes a game. */
  datatype MoveToLibraryRequest = MoveToLibraryRequest(
    status: string := "Not Started",
    rating: int := 0,
    playtime: int := 0,
    progress: int := 0,
    startDate: Option<string> := None,
    completionDate: Option<string> := None,
    notes: Option<string> := None)

  /** The documented defaults of `MoveToLibraryRequest`. */
  lemma MoveRequestDefaults()
    ensures MoveToLibraryRequest() ==
      MoveToLibraryRequest("Not Started", 0, 0, 0, None, None, None)
  {
  }

  /** The defaults of `GameBase`: only the four optional fields have them. */
  lemma GameBaseDefaults(title: string, platform: string, genre: string, status: string,
                         rating: int, playtime: int, developer: string, releaseDate: string, cover: string)
    ensures var g := GameBase(title := title, platform := platform, genre := genre, status := status,
                              rating := rating, playtime := playtime, developer := developer,
                              releaseDate := releaseDate, cover := cover);
      g.startDate == None && g.completionDate == None && g.progress == 0 && g.notes == None &&
      g.releaseDate == releaseDate
  {
  }

  /** The default language of the preferences. */
  lemma PreferencesDefaults(id: string, now: Timestamp)
    ensures Preferences(id := id, createdAt := now, updatedAt := now).language == "en"
  {
  }

  /*
   * Construction of a pydantic model validates its fields: a model built
   * without a value for a field that has no default raises a validation
   * error. These are the fields of each model without a default.
   */

  const GameRequiredFields: set<string> :=
    {"title", "platform", "genre", "status", "rating", "playtime", "developer", "releaseDate", "cover"}

  const BacklogRequiredFields: set<string> :=
    {"title", "platform", "genre", "category", "priority", "developer", "releaseDate", "cover",
     "estimatedPlaytime", "currentPrice", "wishlistPrice"}

  const PreferencesRequiredFields: set<string> := {}

  /** Whether constructing a model with the `supplied` keyword arguments passes validation. */
  predicate Validates(required: set<string>, supplied: set<string>)
  {
    required <= supplied
  }

  /** `Preferences()` validates, `Game()` and `Backlog()` do not. */
  lemma ArgumentlessConstruction()
    ensures Validates(PreferencesRequiredFields, {})
    ensures !Validates(GameRequiredFields, {})
    ensures !Validates(BacklogRequiredFields, {})
  {
    assert "title" in GameRequiredFields;
    assert "title" in BacklogRequiredFields;
  }

  /** Names of the fields an update supplies: the keys of `{k: v ... if v is not None}`. */
  function GameUpdateFields(u: GameUpdate): set<string>
  {
    (if u.title.Some? then {"title"} else {}) +
    (if u.platform.Some? then {"platform"} else {}) +
    (if u.genre.Some? then {"genre"} else {}) +
    (if u.status.Some? then {"status"} else {}) +
    (if u.rating.Some? then {"rating"} else {}) +
    (if u.playtime.Some? then {"playtime"} else {}) +
    (if u.developer.Some? then {"developer"} else {}) +
    (if u.releaseDate.Some? then {"releaseDate"} else {}) +
    (if u.startDate.Some? then {"startDate"} else {}) +
    (if u.completionDate.Some? then {"completionDate"} else {}) +
    (if u.cover.Some? then {"cover"} else {}) +
    (if u.progress.Some? then {"progress"} else {}) +
    (if u.notes.Some? then {"notes"} else {})
  }

  /** One `$set` entry: the supplied value, else the current one. */
  function Pick<T>(current: T, supplied: Option<T>): (r: T)
    ensures supplied.Some? ==> r == supplied.value
    ensures supplied.None? ==> r == current
  {
    if supplied.Some? then supplied.value else current
  }

  /** One `$set` entry on an optional field: a supplied value can never make it absent. */
  function PickOption<T>(current: Option<T>, supplied: Option<T>): (r: Option<T>)
    ensures supplied.Some? ==> r == supplied
    ensures supplied.None? ==> r == current
  {
    if supplied.Some? then supplied else current
  }

  /**
   * `$set` of the supplied fields of a `GameUpdate`: every supplied field takes
   * its new value, no other field changes, and no field can become absent.
   */
  function ApplyGameUpdate(g: GameBase, u: GameUpdate): (r: GameBase)
    ensures u.title.None? ==> r.title == g.title
    ensures u.platform.None? ==> r.platform == g.platform
    ensures u.genre.None? ==> r.genre == g.genre
    ensures u.status.None? ==> r.status == g.status
    ensures u.rating.None? ==> r.rating == g.rating
    ensures u.playtime.None? ==> r.playtime == g.playtime
    ensures u.developer.None? ==> r.developer == g.developer
    ensures u.releaseDate.None? ==> r.releaseDate == g.releaseDate
    ensures u.startDate.None? ==> r.startDate == g.startDate
    ensures u.completionDate.None? ==> r.completionDate == g.completionDate
    ensures u.cover.None? ==> r.cover == g.cover
    ensures u.progress.None? ==> r.progress == g.progress
    ensures u.notes.None? ==> r.notes == g.notes
    ensures u.title.Some? ==> r.title == u.title.value
    ensures u.platform.Some? ==> r.platform == u.platform.value
    ensures u.genre.Some? ==> r.genre == u.genre.value
    ensures u.status.Some? ==> r.status == u.status.value
    ensures u.rating.Some? ==> r.rating == u.rating.value
    ensures u.playtime.Some? ==> r.playtime == u.playtime.value
    ensures u.developer.Some? ==> r.developer == u.developer.value
    ensures u.releaseDate.Some? ==> r.releaseDate == u.releaseDate.value
    ensures u.startDate.Some? ==> r.startDate == u.startDate
    ensures u.completionDate.Some? ==> r.completionDate == u.completionDate
    ensures u.cover.Some? ==> r.cover == u.cover.value
    ensures u.progress.Some? ==> r.progress == u.progress.value
    ensures u.notes.Some? ==> r.notes == u.notes
    ensures g.startDate.Some? ==> r.startDate.Some?
    ensures g.completionDate.Some? ==> r.completionDate.Some?
    ensures g.notes.Some? ==> r.notes.Some?
  {
    GameBase(
      Pick(g.title, u.title), Pick(g.platform, u.platform), Pick(g.genre, u.genre),
      Pick(g.status, u.status), Pick(g.rating, u.rating), Pick(g.playtime, u.playtime),
      Pick(g.developer, u.developer), Pick(g.releaseDate, u.releaseDate),
      PickOption(g.startDate, u.startDate),
      PickOption(g.completionDate, u.completionDate),
      Pick(g.cover, u.cover), Pick(g.progress, u.progress),
      PickOption(g.notes, u.notes))
  }

  /** Applying the same update twice changes nothing more. */
  lemma GameUpdateIdempotent(g: GameBase, u: GameUpdate)
    ensures ApplyGameUpdate(ApplyGameUpdate(g, u), u) == ApplyGameUpdate(g, u)
  {
  }

  /** Names of the fields a backlog update supplies. */
  function BacklogUpdateFields(u: BacklogUpdate): set<string>
  {
    (if u.title.Some? then {"title"} else {}) +
    (if u.platform.Some? then {"platform"} else {}) +
    (if u.genre.Some? then {"genre"} else {}) +
    (if u.category.Some? then {"category"} else {}) +
    (if u.priority.Some? then {"priority"} else {}) +
    (if u.developer.Some? then {"developer"} else {}) +
    (if u.releaseDate.Some? then {"releaseDate"} else {}) +
    (if u.cover.Some? then {"cover"} else {}) +
    (if u.estimatedPlaytime.Some? then {"estimatedPlaytime"} else {}) +
    (if u.currentPrice.Some? then {"currentPrice"} else {}) +
    (if u.wishlistPrice.Some? then {"wishlistPrice"} else {}) +
    (if u.notes.Some? then {"notes"} else {})
  }

  /** `$set` of the supplied fields of a `BacklogUpdate`. */
  function ApplyBacklogUpdate(b: BacklogBase, u: BacklogUpdate): (r: BacklogBase)
    ensures u.title.None? ==> r.title == b.title
    ensures u.platform.None? ==> r.platform == b.platform
    ensures u.genre.None? ==> r.genre == b.genre
    ensures u.category.None? ==> r.category == b.category
    ensures u.priority.None? ==> r.priority == b.priority
    ensures u.developer.None? ==> r.developer == b.developer
    ensures u.releaseDate.None? ==> r.releaseDate == b.releaseDate
    ensures u.cover.None? ==> r.cover == b.cover
    ensures u.estimatedPlaytime.None? ==> r.estimatedPlaytime == b.estimatedPlaytime
    ensures u.currentPrice.None? ==> r.currentPrice == b.currentPrice
    ensures u.wishlistPrice.None? ==> r.wishlistPrice == b.wishlistPrice
    ensures u.notes.None? ==> r.notes == b.notes
    ensures u.title.Some? ==> r.title == u.title.value
    ensures u.platform.Some? ==> r.platform == u.platform.value
    ensures u.genre.Some? ==> r.genre == u.genre.value
    ensures u.category.Some? ==> r.category == u.category.value
    ensures u.priority.Some? ==> r.priority == u.priority.value
    ensures u.developer.Some? ==> r.developer == u.developer.value
    ensures u.releaseDate.Some? ==> r.releaseDate == u.releaseDate.value
    ensures u.cover.Some? ==> r.cover == u.cover.value
    ensures u.estimatedPlaytime.Some? ==> r.estimatedPlaytime == u.estimatedPlaytime.value
    ensures u.currentPrice.Some? ==> r.currentPrice == u.currentPrice.value
    ensures u.wishlistPrice.Some? ==> r.wishlistPrice == u.wishlistPrice.value
    ensures u.notes.Some? ==> r.notes == u.notes
    ensures b.notes.Some? ==> r.notes.Some?
  {
    BacklogBase(
      Pick(b.title, u.title), Pick(b.platform, u.platform), Pick(b.genre, u.genre),
      Pick(b.category, u.category), Pick(b.priority, u.priority),
      Pick(b.developer, u.developer), Pick(b.releaseDate, u.releaseDate),
      Pick(b.cover, u.cover), Pick(b.estimatedPlaytime, u.estimatedPlaytime),
      Pick(b.currentPrice, u.currentPrice), Pick(b.wishlistPrice, u.wishlistPrice),
      PickOption(b.notes, u.notes))
  }

  /* Field accessors and counts used by the views and the statistics. */

  function PlatformOf(g: Game): string { g.info.platform }

  function CategoryOf(b: BacklogItem): string { b.info.category }

  function PlaytimeOf(g: Game): int { g.info.playtime }

  function RatingOf(g: Game): int { g.info.rating }

  /** The predicate `game.status === status`. */
  function HasStatus(status: string): Game -> bool
  {
    (g: Game) => g.info.status == status
  }

  /** Number of games whose status is exactly `status`. */
  function CountWithStatus(games: seq<Game>, status: string): nat
  {
    |Filter(games, HasStatus(status))|
  }

  /** Games cannot be both "Completed" and "In Progress": the two counts fit in the total. */
  lemma CompletedAndInProgressFit(games: seq<Game>)
    ensures CountWithStatus(games, "Completed") + CountWithStatus(games, "In Progress") <= |games|
  {
    FilterDisjointSizes(games, HasStatus("Completed"), HasStatus("In Progress"));
  }

  /**
   * `Model().id` in a route: constructing a model with no arguments to draw
   * a generated id. Validation fails (the route answers 500) unless the model
   * has no required field; `freshId` is the uuid the default factory draws.
   */
  function ModelId(required: set<string>, freshId: string): (r: Result<string>)
    ensures r.Ok? <==> required == {}
    ensures r.Ok? ==> r.value == freshId
  {
    if Validates(required, {}) then Ok(freshId)
    else Err(HttpError(500, "Internal Server Error"))
  }
}
