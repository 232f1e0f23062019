/**
 * The dashboard page: the statistics shown before any data arrives, the
 * three most recent games, and the games currently being played.
 */
module Dashboard {
  import opened Sequences
  import opened Models

  /** The statistics the page shows before the fetch completes: every field zero. */
  const InitialStats: Stats := Stats(0, 0, 0, 0, 0, 0)

  /** How many recent games the page lists. */
  const RecentCount: nat := 3

  /** `games.slice(0, 3)`: the first three games, or all of them when there are fewer. */
  function RecentGames(games: seq<Game>): (r: seq<Game>)
    ensures |r| == if |games| < RecentCount then |games| else RecentCount
    ensures forall i :: 0 <= i < |r| ==> r[i] == games[i]
    ensures IsSubsequence(r, games)
  {
    var k := if |games| < RecentCount then |games| else RecentCount;
    PrefixIsSubsequence(games, k);
    games[..k]
  }

  /** `games.filter(game => game.status === "In Progress")`. */
  function CurrentlyPlaying(games: seq<Game>): (r: seq<Game>)
    ensures IsSubsequence(r, games)
    ensures forall g :: g in r <==> g in games && g.info.status == "In Progress"
    ensures |r| == CountWithStatus(games, "In Progress")
  {
    FilterIsSubsequence(games, HasStatus("In Progress"));
    FilterMembers(games, HasStatus("In Progress"));
    Filter(games, HasStatus("In Progress"))
  }

  /** With no games there is nothing recent and nothing being played. */
  lemma EmptyDashboard()
    ensures RecentGames([]) == [] && CurrentlyPlaying([]) == []
  {
  }

  /**
   * When there are more than three games, the recent list is exactly the
   * first three and leaves the rest out.
   */
  lemma RecentGamesOfLongList(games: seq<Game>)
    requires |games| > RecentCount
    ensures RecentGames(games) == [games[0], games[1], games[2]]
  {
  }
}
