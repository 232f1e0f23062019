/**
 * The `/games` routes of the backend: listing with filters, reading,
 * creating, updating and deleting a game, and the dashboard statistics,
 * over the games and backlog tables of the database.
 */
module GamesRoutes {
  import opened Wrappers
  import opened Sequences
  import opened Text
  import opened Rounding
  import opened Models
  import opened Database
  import Api
  import GamesLibrary
  import Mock
  import Dashboard

  const GameNotFound := HttpError(404, "Game not found")
  const GameDeleted := "Game deleted successfully"

  /** The fields of a stored game a filter document can name. */
  function GameField(g: Game): string -> Option<string>
  {
    name =>
      if name == "title" then Some(g.info.title)
      else if name == "platform" then Some(g.info.platform)
      else if name == "genre" then Some(g.info.genre)
      else if name == "status" then Some(g.info.status)
      else if name == "developer" then Some(g.info.developer)
      else None
  }

  /** The search clause: the pattern against the title or the developer. */
  function SearchClause(pattern: string): Clause
  {
    AnyMatches(["title", "developer"], pattern)
  }

  /**
   * The filter document `get_games` builds: a dropdown argument becomes an
   * exact match when it is given and is not `"All"`; a non-empty search
   * becomes a case-insensitive pattern over the title or the developer.
   */
  function GamesQuery(platform: Option<string>, genre: Option<string>, status: Option<string>,
                      search: Option<string>): (q: Query)
    ensures "platform" in q <==> ActiveFilter(platform)
    ensures "genre" in q <==> ActiveFilter(genre)
    ensures "status" in q <==> ActiveFilter(status)
    ensures "$or" in q <==> Truthy(search)
    ensures "platform" in q ==> q["platform"] == Equals(platform.value)
    ensures "genre" in q ==> q["genre"] == Equals(genre.value)
    ensures "status" in q ==> q["status"] == Equals(status.value)
    ensures "$or" in q ==> q["$or"] == SearchClause(search.value)
    ensures q.Keys <= {"platform", "genre", "status", "$or"}
  {
    var q0: Query := map[];
    var q1 := if ActiveFilter(platform) then q0["platform" := Equals(platform.value)] else q0;
    var q2 := if ActiveFilter(genre) then q1["genre" := Equals(genre.value)] else q1;
    var q3 := if ActiveFilter(status) then q2["status" := Equals(status.value)] else q2;
    if Truthy(search) then q3["$or" := SearchClause(search.value)] else q3
  }

  /** The filter document, filled in by successive conditional assignments. */
  method BuildGamesQuery(platform: Option<string>, genre: Option<string>, status: Option<string>,
                         search: Option<string>) returns (query: Query)
    ensures query == GamesQuery(platform, genre, status, search)
  {
    query := map[];
    if platform.Some? && platform.value != "" && platform.value != "All" {
      query := query["platform" := Equals(platform.value)];
    }
    if genre.Some? && genre.value != "" && genre.value != "All" {
      query := query["genre" := Equals(genre.value)];
    }
    if status.Some? && status.value != "" && status.value != "All" {
      query := query["status" := Equals(status.value)];
    }
    if search.Some? && search.value != "" {
      query := query["$or" := SearchClause(search.value)];
    }
  }

  /**
   * The client drops inactive filters before sending them and the server
   * drops them again: the query built from what the client sends is the one
   * built from the client's filters directly.
   */
  lemma QueryOfSentFilters(f: Api.GameFilters, params: seq<Api.Param>)
    requires Api.Get(params, "platform") == if ActiveFilter(f.platform) then f.platform else None
    requires Api.Get(params, "genre") == if ActiveFilter(f.genre) then f.genre else None
    requires Api.Get(params, "status") == if ActiveFilter(f.status) then f.status else None
    requires Api.Get(params, "search") == if Truthy(f.search) then f.search else None
    ensures GamesQuery(Api.Get(params, "platform"), Api.Get(params, "genre"), Api.Get(params, "status"),
                       Api.Get(params, "search")) ==
            GamesQuery(f.platform, f.genre, f.status, f.search)
  {
  }

  /**
   * For a search term without pattern syntax, on which the store's
   * case-insensitive regular expression is a case-insensitive substring
   * test, the server keeps exactly the games the library page keeps with
   * the same filters (dropdown values are never empty).
   */
  lemma ServerAgreesWithLibrary(f: GamesLibrary.LibraryFilters, g: Game, regex: (string, string) -> bool)
    requires f.platform != "" && f.genre != "" && f.status != ""
    requires forall text :: regex(f.search, text) == Contains(Lower(text), Lower(f.search))
    ensures Satisfies(GamesQuery(Some(f.platform), Some(f.genre), Some(f.status), Some(f.search)), GameField(g), regex)
            <==> GamesLibrary.Keeps(f, g)
  {
    var q := GamesQuery(Some(f.platform), Some(f.genre), Some(f.status), Some(f.search));
    var field := GameField(g);
    if f.search == "" {
      GamesLibrary.EmptySearchMatches(g);
    } else {
      var fields := ["title", "developer"];
      assert field(fields[0]) == Some(g.info.title);
      assert field(fields[1]) == Some(g.info.developer);
      assert ClauseHolds("$or", q["$or"], field, regex) <==> GamesLibrary.MatchesSearch(g, f.search);
    }
    if Satisfies(q, field, regex) {
      assert f.platform != "All" ==> ClauseHolds("platform", q["platform"], field, regex);
      assert f.genre != "All" ==> ClauseHolds("genre", q["genre"], field, regex);
      assert f.status != "All" ==> ClauseHolds("status", q["status"], field, regex);
      assert f.search != "" ==> ClauseHolds("$or", q["$or"], field, regex);
    }
  }

  /**
   * `get_games`: at most a thousand stored games, each once, every one
   * satisfying the filter document; when fewer come back, they are all the
   * games that satisfy it. `regex` is the store's pattern matcher.
   */
  method GetGames(db: Database, platform: Option<string>, genre: Option<string>, status: Option<string>,
                  search: Option<string>, regex: (string, string) -> bool) returns (r: seq<Game>)
    requires db.Valid()
    ensures |r| <= ListLimit
    ensures forall i :: 0 <= i < |r| ==>
      r[i].id in db.games && db.games[r[i].id] == r[i] &&
      Satisfies(GamesQuery(platform, genre, status, search), GameField(r[i]), regex)
    ensures forall i, j :: 0 <= i < j < |r| ==> r[i].id != r[j].id
    ensures |r| < ListLimit ==> forall id ::
      (id in db.games && Satisfies(GamesQuery(platform, genre, status, search), GameField(db.games[id]), regex))
      ==> db.games[id] in r
  {
    var query := BuildGamesQuery(platform, genre, status, search);
    var ids := FindIds(db.games, (g: Game) => Satisfies(query, GameField(g), regex), ListLimit);
    r := Lookup(db.games, ids);
    forall id | id in db.games && Satisfies(query, GameField(db.games[id]), regex) && |r| < ListLimit
      ensures db.games[id] in r
    {
      var i :| 0 <= i < |ids| && ids[i] == id;
      assert r[i] == db.games[id];
    }
  }

  /** `get_game`: the stored game with that id, or 404. */
  method GetGame(db: Database, gameId: string) returns (r: Result<Game>)
    requires db.Valid()
    ensures r.Ok? <==> gameId in db.games
    ensures r.Ok? ==> r.value == db.games[gameId] && r.value.id == gameId
    ensures r.Err? ==> r.error == GameNotFound
  {
    if gameId in db.games {
      r := Ok(db.games[gameId]);
    } else {
      r := Err(GameNotFound);
    }
  }

  /**
   * `create_game` as it is evidently meant to work: one new game under a
   * fresh id, holding the caller's fields, stamped with the current time;
   * nothing else changes.
   */
  method CreateGame(db: Database, game: GameBase, freshId: string, now: Timestamp) returns (r: Game)
    requires db.Valid()
    requires freshId !in db.games
    modifies db
    ensures db.Valid()
    ensures r.id == freshId && r.info == game && r.createdAt == now && r.updatedAt == now
    ensures db.games == old(db.games)[freshId := r]
    ensures |db.games| == |old(db.games)| + 1
    ensures db.backlog == old(db.backlog) && db.preferences == old(db.preferences)
  {
    r := Game(freshId, game, now, now);
    db.games := db.games[freshId := r];
  }

  /**
   * `create_game` as written, on the games table: the id is drawn with
   * `Game().id` before anything is inserted.
   */
  function CreateGameAsWritten(games: map<string, Game>, game: GameBase, freshId: string, now: Timestamp)
    : (Result<Game>, map<string, Game>)
  {
    match ModelId(GameRequiredFields, freshId)
    case Err(e) => (Err(e), games)
    case Ok(id) => (Ok(Game(id, game, now, now)), games[id := Game(id, game, now, now)])
  }

  /** As written, every creation fails with a server error and the table is left as it was. */
  lemma CreateGameAsWrittenFails(games: map<string, Game>, game: GameBase, freshId: string, now: Timestamp)
    ensures CreateGameAsWritten(games, game, freshId, now).0.Err?
    ensures CreateGameAsWritten(games, game, freshId, now).0.error.status == 500
    ensures CreateGameAsWritten(games, game, freshId, now).1 == games
  {
    assert "title" in GameRequiredFields;
  }

  /**
   * `update_game`: without any supplied field, 400 (checked first); for an
   * unknown id, 404; otherwise the supplied fields and `updatedAt` are
   * `$set` on the stored game and nothing else changes.
   */
  method UpdateGame(db: Database, gameId: string, u: GameUpdate, now: Timestamp) returns (r: Result<Game>)
    requires db.Valid()
    modifies db
    ensures db.Valid()
    ensures GameUpdateFields(u) == {} ==> r == Err(NoUpdateData)
    ensures GameUpdateFields(u) != {} && gameId !in old(db.games) ==> r == Err(GameNotFound)
    ensures r.Err? ==> db.games == old(db.games)
    ensures r.Ok? ==>
      (gameId in old(db.games) &&
       r.value == Game(gameId, ApplyGameUpdate(old(db.games)[gameId].info, u), old(db.games)[gameId].createdAt, now) &&
       db.games == old(db.games)[gameId := r.value])
    ensures GameUpdateFields(u) != {} && gameId in old(db.games) ==> r.Ok?
    ensures db.backlog == old(db.backlog) && db.preferences == old(db.preferences)
  {
    if GameUpdateFields(u) == {} {
      return Err(NoUpdateData);
    }
    if gameId !in db.games {
      return Err(GameNotFound);
    }
    var stored := db.games[gameId];
    var updated := Game(stored.id, ApplyGameUpdate(stored.info, u), stored.createdAt, now);
    db.games := db.games[gameId := updated];
    r := Ok(updated);
  }

  /** An update supplies no field exactly when every field of it is left at its default. */
  lemma NoUpdateFieldsIsDefault(u: GameUpdate)
    ensures GameUpdateFields(u) == {} <==> u == GameUpdate()
  {
    if GameUpdateFields(u) == {} {
      assert "title" !in GameUpdateFields(u) && "platform" !in GameUpdateFields(u);
      assert "genre" !in GameUpdateFields(u) && "status" !in GameUpdateFields(u);
      assert "rating" !in GameUpdateFields(u) && "playtime" !in GameUpdateFields(u);
      assert "developer" !in GameUpdateFields(u) && "releaseDate" !in GameUpdateFields(u);
      assert "startDate" !in GameUpdateFields(u) && "completionDate" !in GameUpdateFields(u);
      assert "cover" !in GameUpdateFields(u) && "progress" !in GameUpdateFields(u);
      assert "notes" !in GameUpdateFields(u);
    }
  }

  /** `delete_game`: 404 for an unknown id; afterwards the id is absent either way. */
  method DeleteGame(db: Database, gameId: string) returns (r: Result<string>)
    requires db.Valid()
    modifies db
    ensures db.Valid()
    ensures r.Ok? <==> gameId in old(db.games)
    ensures r.Ok? ==> r.value == GameDeleted
    ensures r.Err? ==> r.error == GameNotFound
    ensures db.games == old(db.games) - {gameId}
    ensures gameId !in db.games
    ensures db.backlog == old(db.backlog) && db.preferences == old(db.preferences)
  {
    if gameId !in db.games {
      return Err(GameNotFound);
    }
    db.games := db.games - {gameId};
    r := Ok(GameDeleted);
  }

  /** The mean rating rounded half-to-even to a tenth, or 0 for no games. */
  function AverageRating(games: seq<Game>): (r: int)
    ensures |games| == 0 ==> r == 0
    ensures |games| > 0 ==> -|games| <= 2 * (|games| * r - SumOf(games, RatingOf)) <= |games|
    ensures var twiceError := 2 * (|games| * r - SumOf(games, RatingOf));
      |games| > 0 && (twiceError == |games| || twiceError == -|games|) ==> r % 2 == 0
  {
    if |games| == 0 then 0 else RoundHalfEven(SumOf(games, RatingOf), |games|)
  }

  /**
   * `get_dashboard_stats` over the listed games and backlog items: exact
   * status counts, summed playtime, and the rounded mean rating with an
   * empty-collection guard.
   */
  function DashboardStats(games: seq<Game>, backlog: seq<BacklogItem>): (r: Stats)
    ensures r.totalGames == |games| && r.backlogCount == |backlog|
    ensures r.completed == CountWithStatus(games, "Completed")
    ensures r.inProgress == CountWithStatus(games, "In Progress")
    ensures r.completed + r.inProgress <= r.totalGames
    ensures r.totalPlaytime == SumOf(games, PlaytimeOf)
    ensures |games| == 0 ==> r.avgRating == 0
    ensures |games| > 0 ==> -|games| <= 2 * (|games| * r.avgRating - SumOf(games, RatingOf)) <= |games|
    ensures var twiceError := 2 * (|games| * r.avgRating - SumOf(games, RatingOf));
      |games| > 0 && (twiceError == |games| || twiceError == -|games|) ==> r.avgRating % 2 == 0
  {
    CompletedAndInProgressFit(games);
    Stats(
      totalGames := |games|,
      completed := CountWithStatus(games, "Completed"),
      inProgress := CountWithStatus(games, "In Progress"),
      totalPlaytime := SumOf(games, PlaytimeOf),
      avgRating := AverageRating(games),
      backlogCount := |backlog|)
  }

  /** The statistics do not depend on the order the store lists the records in. */
  lemma StatsIgnoreOrder(games: seq<Game>, games': seq<Game>, backlog: seq<BacklogItem>, backlog': seq<BacklogItem>)
    requires multiset(games) == multiset(games')
    requires |backlog| == |backlog'|
    ensures DashboardStats(games, backlog) == DashboardStats(games', backlog')
  {
    assert |games| == |multiset(games)| == |games'|;
    SumPermutation(games, games', PlaytimeOf);
    SumPermutation(games, games', RatingOf);
    FilterSizePermutation(games, games', HasStatus("Completed"));
    FilterSizePermutation(games, games', HasStatus("In Progress"));
  }

  /** The dashboard's placeholder statistics are what the server reports for an empty library. */
  lemma InitialStatsAreEmptyStats()
    ensures Dashboard.InitialStats == DashboardStats([], [])
  {
  }

  /** On the sample data the server reports what the client-side fallback computes. */
  lemma ServerStatsOfSamples()
    ensures DashboardStats(Mock.MockGames, Mock.MockBacklog) == Stats(5, 3, 1, 297, 86, 4)
  {
    Mock.MockStatsOfSamples();
    Mock.SampleRatings();
    assert RoundHalfEven(432, 5) == 86;
  }

  /**
   * The client-side fallback and the server agree on every figure except
   * possibly the mean rating, where the fallback is at most one tenth higher,
   * and only when the exact mean falls halfway between two tenths.
   */
  lemma FallbackStatsAgreeOffTies(games: seq<Game>, backlog: seq<BacklogItem>)
    requires |games| > 0
    ensures var m, s := Mock.MockStats(games, backlog), DashboardStats(games, backlog);
      m.totalGames == s.totalGames && m.completed == s.completed && m.inProgress == s.inProgress &&
      m.totalPlaytime == s.totalPlaytime && m.backlogCount == s.backlogCount &&
      0 <= m.avgRating - s.avgRating <= 1 &&
      (m.avgRating != s.avgRating ==> 2 * (|games| * s.avgRating - SumOf(games, RatingOf)) == -|games|)
  {
    HalfUpAndHalfEven(SumOf(games, RatingOf), |games|);
  }

  /**
   * `get_dashboard_stats`: the statistics of one listing of each table (at
   * most a thousand records each).
   */
  method GetDashboardStats(db: Database) returns (s: Stats, ghost gameIds: seq<string>, ghost backlogIds: seq<string>)
    requires db.Valid()
    ensures IsListing(db.games, (g: Game) => true, ListLimit, gameIds)
    ensures IsListing(db.backlog, (b: BacklogItem) => true, ListLimit, backlogIds)
    ensures s == DashboardStats(Lookup(db.games, gameIds), Lookup(db.backlog, backlogIds))
    ensures s.totalGames <= ListLimit && s.backlogCount <= ListLimit
  {
    var gids := FindIds(db.games, (g: Game) => true, ListLimit);
    var bids := FindIds(db.backlog, (b: BacklogItem) => true, ListLimit);
    s := DashboardStats(Lookup(db.games, gids), Lookup(db.backlog, bids));
    gameIds, backlogIds := gids, bids;
  }
}
