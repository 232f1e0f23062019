/**
 * The static catalogue the frontend falls back on: the option lists that
 * drive the dropdowns and sections, the sample records, and the two
 * helpers computed over them (generalised here over the records).
 */
module Mock {
  import opened Wrappers
  import opened Sequences
  import opened Models
  import opened Grouping
  import opened Rounding

  const Platforms: seq<string> := ["All", "PC", "PlayStation 5", "Nintendo Switch", "Xbox Series X"]
  const Genres: seq<string> := ["All", "RPG", "Action", "Roguelike", "Adventure", "Action RPG"]
  const Statuses: seq<string> := ["All", "Completed", "In Progress", "Dropped", "Not Started"]
  const Priorities: seq<string> := ["High", "Medium", "Low"]
  const Categories: seq<string> := ["Next to Play", "Maybe Later", "Wishlist"]

  /** The dropdown lists start with the sentinel; the priority and category lists do not contain it. */
  lemma SentinelPlacement()
    ensures Platforms[0] == "All" && Genres[0] == "All" && Statuses[0] == "All"
    ensures "All" !in Priorities && "All" !in Categories
    ensures "All" !in Platforms[1..]
  {
  }

  /** A sample game as the fixture writes it (no timestamps). */
  function SampleGame(id: string, title: string, platform: string, genre: string, status: string,
                      rating: int, playtime: int, developer: string, releaseDate: string,
                      startDate: Option<string>, completionDate: Option<string>, progress: int): Game
  {
    Game(id, GameBase(title, platform, genre, status, rating, playtime, developer, releaseDate,
                      startDate, completionDate, "", progress, None), 0, 0)
  }

  /** `mockGames`: ratings in tenths; covers and notes are not modelled. */
  const MockGames: seq<Game> := [
    SampleGame("1", "The Witcher 3: Wild Hunt", "PC", "RPG", "Completed", 95, 127, "CD Projekt RED",
               "2015-05-19", None, Some("2024-06-15"), 100),
    SampleGame("2", "Cyberpunk 2077", "PC", "RPG", "In Progress", 80, 45, "CD Projekt RED",
               "2020-12-10", Some("2024-05-20"), None, 65),
    SampleGame("3", "God of War", "PlayStation 5", "Action", "Completed", 90, 35, "Santa Monica Studio",
               "2018-04-20", None, Some("2024-04-10"), 100),
    SampleGame("4", "Hades", "Nintendo Switch", "Roguelike", "Completed", 92, 68, "Supergiant Games",
               "2020-09-17", None, Some("2024-03-22"), 100),
    SampleGame("5", "Elden Ring", "PC", "RPG", "Dropped", 75, 22, "FromSoftware",
               "2022-02-25", Some("2024-02-15"), None, 25)
  ]

  /** A sample backlog item as the fixture writes it (prices in cents). */
  function SampleItem(id: string, title: string, platform: string, genre: string, category: string,
                      priority: string, developer: string, releaseDate: string, estimatedPlaytime: int,
                      currentPrice: nat, wishlistPrice: nat): BacklogItem
  {
    BacklogItem(id, BacklogBase(title, platform, genre, category, priority, developer, releaseDate, "",
                                estimatedPlaytime, currentPrice, wishlistPrice, None), 0, 0)
  }

  /** `mockBacklog`. */
  const MockBacklog: seq<BacklogItem> := [
    SampleItem("b1", "Baldur's Gate 3", "PC", "RPG", "Next to Play", "High", "Larian Studios",
               "2023-08-03", 75, 5999, 4000),
    SampleItem("b2", "Spider-Man: Miles Morales", "PlayStation 5", "Action", "Maybe Later", "Medium",
               "Insomniac Games", "2020-11-12", 12, 3999, 2500),
    SampleItem("b3", "Horizon Forbidden West", "PlayStation 5", "Action RPG", "Wishlist", "High",
               "Guerrilla Games", "2022-02-18", 55, 4999, 3000),
    SampleItem("b4", "Stray", "PC", "Adventure", "Next to Play", "Low", "BlueTwelve Studio",
               "2022-07-19", 8, 2999, 2000)
  ]

  /**
   * `getGamesByPlatform`: one bucket per platform of the fixed list after the
   * sentinel, in that order, each holding that platform's games in input order
   * (possibly none); a game on any other platform lands in no bucket.
   */
  function GamesByKnownPlatform(games: seq<Game>): (r: seq<Bucket<Game>>)
    ensures |r| == 4
    ensures r[0].key == "PC" && r[1].key == "PlayStation 5" &&
            r[2].key == "Nintendo Switch" && r[3].key == "Xbox Series X"
    ensures forall i :: 0 <= i < 4 ==> IsSubsequence(r[i].items, games)
    ensures forall i, g :: 0 <= i < 4 && g in r[i].items ==> g in games && PlatformOf(g) == r[i].key
    ensures forall i, g :: 0 <= i < 4 && g in games && PlatformOf(g) == r[i].key ==> g in r[i].items
    ensures forall g :: g in games && PlatformOf(g) !in Platforms[1..] ==>
      forall i :: 0 <= i < 4 ==> g !in r[i].items
    ensures forall i, g :: 0 <= i < 4 ==>
      multiset(r[i].items)[g] == if PlatformOf(g) == r[i].key then multiset(games)[g] else 0
  {
    var r := GroupByKeys(games, PlatformOf, Platforms[1..]);
    forall i | 0 <= i < 4
      ensures IsSubsequence(r[i].items, games)
      ensures forall g :: g in r[i].items <==> g in games && PlatformOf(g) == r[i].key
      ensures forall g :: multiset(r[i].items)[g] == if PlatformOf(g) == r[i].key then multiset(games)[g] else 0
    {
      BucketContents(games, PlatformOf, Platforms[1..], i);
      BucketMultiplicity(games, PlatformOf, Platforms[1..], i);
    }
    r
  }

  /**
   * `getStats` over the given records. The mean rating is divided by the
   * number of games without a guard, so the list must not be empty.
   */
  function MockStats(games: seq<Game>, backlog: seq<BacklogItem>): (r: Stats)
    requires |games| > 0
    ensures r.totalGames == |games| && r.backlogCount == |backlog|
    ensures r.completed == CountWithStatus(games, "Completed")
    ensures r.inProgress == CountWithStatus(games, "In Progress")
    ensures r.completed + r.inProgress <= r.totalGames
    ensures r.totalPlaytime == SumOf(games, PlaytimeOf)
    ensures -|games| < 2 * (|games| * r.avgRating - SumOf(games, RatingOf)) <= |games|
  {
    CompletedAndInProgressFit(games);
    Stats(
      totalGames := |games|,
      completed := CountWithStatus(games, "Completed"),
      inProgress := CountWithStatus(games, "In Progress"),
      totalPlaytime := SumOf(games, PlaytimeOf),
      avgRating := RoundHalfUp(SumOf(games, RatingOf), |games|),
      backlogCount := |backlog|)
  }

  lemma SamplePlaytime()
    ensures SumOf(MockGames, PlaytimeOf) == 297
  {
    var g := MockGames;
    assert SumOf(g[4..], PlaytimeOf) == 22;
    assert SumOf(g[3..], PlaytimeOf) == 90;
    assert SumOf(g[2..], PlaytimeOf) == 125;
    assert SumOf(g[1..], PlaytimeOf) == 170;
  }

  lemma SampleRatings()
    ensures SumOf(MockGames, RatingOf) == 432
  {
    var g := MockGames;
    assert SumOf(g[4..], RatingOf) == 75;
    assert SumOf(g[3..], RatingOf) == 167;
    assert SumOf(g[2..], RatingOf) == 257;
    assert SumOf(g[1..], RatingOf) == 337;
  }

  lemma SampleCompleted()
    ensures CountWithStatus(MockGames, "Completed") == 3
  {
    var g := MockGames;
    assert Filter(g[4..], HasStatus("Completed")) == [];
    assert Filter(g[3..], HasStatus("Completed")) == [g[3]];
    assert Filter(g[2..], HasStatus("Completed")) == [g[2], g[3]];
    assert Filter(g[1..], HasStatus("Completed")) == [g[2], g[3]];
  }

  lemma SampleInProgress()
    ensures CountWithStatus(MockGames, "In Progress") == 1
  {
    var g := MockGames;
    assert Filter(g[4..], HasStatus("In Progress")) == [];
    assert Filter(g[3..], HasStatus("In Progress")) == [];
    assert Filter(g[2..], HasStatus("In Progress")) == [];
    assert Filter(g[1..], HasStatus("In Progress")) == [g[1]];
  }

  /** On the sample records: 5 games, 3 completed, 1 in progress, 297 hours, 8.6 average, 4 in the backlog. */
  lemma MockStatsOfSamples()
    ensures MockStats(MockGames, MockBacklog) == Stats(5, 3, 1, 297, 86, 4)
  {
    SamplePlaytime();
    SampleRatings();
    SampleCompleted();
    SampleInProgress();
    assert RoundHalfUp(432, 5) == 86;
  }
}
