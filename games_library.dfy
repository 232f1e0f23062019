/**
 * The games library page: the list shown is the fetched games narrowed by a
 * search box and three dropdowns, each dropdown offering the `"All"`
 * sentinel.
 */
module GamesLibrary {
  import opened Sequences
  import opened Text
  import opened Models
  import Mock

  /** The page's filter state. */
  datatype LibraryFilters = LibraryFilters(search: string, platform: string, genre: string, status: string)

  /** The state the page starts in: empty search, every dropdown on `"All"`. */
  const InitialFilters := LibraryFilters("", "All", "All", "All")

  /** Case-insensitive search over the title or the developer. */
  predicate MatchesSearch(g: Game, term: string)
  {
    Contains(Lower(g.info.title), Lower(term)) || Contains(Lower(g.info.developer), Lower(term))
  }

  /** A dropdown choice: `"All"` accepts anything, any other choice only itself. */
  predicate MatchesChoice(choice: string, value: string)
  {
    choice == "All" || value == choice
  }

  /** The predicate the page filters by: all four conditions together. */
  predicate Keeps(f: LibraryFilters, g: Game)
  {
    MatchesSearch(g, f.search) && MatchesChoice(f.platform, g.info.platform) &&
    MatchesChoice(f.genre, g.info.genre) && MatchesChoice(f.status, g.info.status)
  }

  function KeepsUnder(f: LibraryFilters): Game -> bool
  {
    g => Keeps(f, g)
  }

  /**
   * `filteredGames`: the games that pass every filter, in the fetched order.
   */
  function FilteredGames(games: seq<Game>, f: LibraryFilters): (r: seq<Game>)
    ensures IsSubsequence(r, games)
    ensures forall g :: g in r <==> g in games && Keeps(f, g)
    ensures forall g :: multiset(r)[g] == if Keeps(f, g) then multiset(games)[g] else 0
  {
    FilterIsSubsequence(games, KeepsUnder(f));
    FilterMembers(games, KeepsUnder(f));
    FilterMultiplicity(games, KeepsUnder(f));
    Filter(games, KeepsUnder(f))
  }

  /** Search is a substring test: the folded term occurs somewhere in the folded title or developer. */
  lemma MatchesSearchIffOccurs(g: Game, term: string)
    ensures MatchesSearch(g, term) <==>
      (exists i :: OccursAt(Lower(g.info.title), Lower(term), i)) ||
      (exists i :: OccursAt(Lower(g.info.developer), Lower(term), i))
  {
    ContainsIffOccurs(Lower(g.info.title), Lower(term));
    ContainsIffOccurs(Lower(g.info.developer), Lower(term));
  }

  /** The empty search term matches every game. */
  lemma EmptySearchMatches(g: Game)
    ensures MatchesSearch(g, "")
  {
    assert Lower("") == "";
    ContainsEmpty(Lower(g.info.title));
  }

  /** Typing in another case changes nothing: a term and its lower-case form match the same games. */
  lemma SearchIgnoresCase(g: Game, term: string)
    ensures MatchesSearch(g, term) == MatchesSearch(g, Lower(term))
  {
    LowerIdempotent(term);
  }

  /** In its initial state the page shows every fetched game, in order. */
  lemma InitialFiltersKeepAll(games: seq<Game>)
    ensures FilteredGames(games, InitialFilters) == games
  {
    forall g | g in games
      ensures KeepsUnder(InitialFilters)(g)
    {
      EmptySearchMatches(g);
    }
    FilterAll(games, KeepsUnder(InitialFilters));
  }

  /** Extending the search term can only remove games from the list. */
  lemma LongerSearchNarrows(games: seq<Game>, f: LibraryFilters, more: string)
    ensures IsSubsequence(FilteredGames(games, f.(search := f.search + more)), FilteredGames(games, f))
  {
    var f' := f.(search := f.search + more);
    forall g | g in games && KeepsUnder(f')(g)
      ensures KeepsUnder(f)(g)
    {
      LowerAppend(f.search, more);
      if Contains(Lower(g.info.title), Lower(f'.search)) {
        ContainsPrefixOfTerm(Lower(g.info.title), Lower(f.search), Lower(more));
      } else {
        ContainsPrefixOfTerm(Lower(g.info.developer), Lower(f.search), Lower(more));
      }
    }
    FilterStronger(games, KeepsUnder(f'), KeepsUnder(f));
  }

  /** Picking a platform instead of `"All"` can only remove games from the list. */
  lemma ChoosingPlatformNarrows(games: seq<Game>, f: LibraryFilters, platform: string)
    requires f.platform == "All"
    ensures IsSubsequence(FilteredGames(games, f.(platform := platform)), FilteredGames(games, f))
    ensures |FilteredGames(games, f.(platform := platform))| <= |FilteredGames(games, f)|
  {
    FilterStronger(games, KeepsUnder(f.(platform := platform)), KeepsUnder(f));
  }

  /**
   * As written, the "No games found matching your filters" notice appears
   * only when nothing was fetched at all.
   */
  predicate ShowsNoMatchNoticeAsWritten(games: seq<Game>, f: LibraryFilters)
  {
    |games| == 0
  }

  /** The notice as intended: shown exactly when the filtered list is empty. */
  predicate ShowsNoMatchNotice(games: seq<Game>, f: LibraryFilters)
  {
    FilteredGames(games, f) == []
  }

  /**
   * With games fetched but all of them filtered out, the page as written
   * shows an empty grid and no notice; the intended notice appears.
   */
  lemma NoMatchNoticeMissed(games: seq<Game>, f: LibraryFilters)
    requires games != [] && forall g :: g in games ==> !Keeps(f, g)
    ensures !ShowsNoMatchNoticeAsWritten(games, f)
    ensures ShowsNoMatchNotice(games, f)
  {
    NoMatchNoticeExact(games, f);
  }

  /** The intended notice never hides games and never leaves an empty grid unexplained. */
  lemma NoMatchNoticeExact(games: seq<Game>, f: LibraryFilters)
    ensures ShowsNoMatchNotice(games, f) <==> forall g :: g in games ==> !Keeps(f, g)
  {
    var r := FilteredGames(games, f);
    if r != [] {
      assert r[0] in r;
    }
  }

  /** The sample library filtered to Xbox Series X: nothing is listed, and as written no notice says so. */
  lemma NoMatchNoticeMissedOnSamples()
    ensures FilteredGames(Mock.MockGames, InitialFilters.(platform := "Xbox Series X")) == []
    ensures !ShowsNoMatchNoticeAsWritten(Mock.MockGames, InitialFilters.(platform := "Xbox Series X"))
  {
    var f := InitialFilters.(platform := "Xbox Series X");
    assert forall g :: g in Mock.MockGames ==> g.info.platform != "Xbox Series X";
    NoMatchNoticeMissed(Mock.MockGames, f);
  }
}
