/**
 * The client's service layer: the query parameters it sends with list
 * requests, the classification of failed requests, and the two helpers
 * that reshape fetched records.
 */
module Api {
  import opened Wrappers
  import opened Sequences
  import opened Grouping
  import opened Models

  /** One `name=value` pair of a `URLSearchParams`, in insertion order. */
  type Param = (string, string)

  /** The names of a parameter list, in order. */
  function Names(ps: seq<Param>): (r: seq<string>)
    ensures |r| == |ps|
    ensures forall i :: 0 <= i < |ps| ==> r[i] == ps[i].0
  {
    seq(|ps|, i requires 0 <= i < |ps| => ps[i].0)
  }

  /** `URLSearchParams.get(name)`: the value of the first parameter with that name. */
  function Get(ps: seq<Param>, name: string): (r: Option<string>)
    ensures r.Some? <==> name in Names(ps)
  {
    if ps == [] then None
    else if ps[0].0 == name then Some(ps[0].1)
    else
      assert Names(ps) == [ps[0].0] + Names(ps[1..]);
      Get(ps[1..], name)
  }

  /** Appending a parameter leaves every earlier lookup alone and answers a new name. */
  lemma {:induction false} GetSnoc(ps: seq<Param>, n: string, v: string, name: string)
    ensures Get(ps + [(n, v)], name) ==
      if Get(ps, name).Some? then Get(ps, name) else if n == name then Some(v) else None
  {
    if ps != [] {
      assert (ps + [(n, v)])[1..] == ps[1..] + [(n, v)];
      GetSnoc(ps[1..], n, v, name);
    }
  }

  /** The filters a games list request may carry; an absent one is `undefined`. */
  datatype GameFilters = GameFilters(
    platform: Option<string> := None,
    genre: Option<string> := None,
    status: Option<string> := None,
    search: Option<string> := None)

  /** The filters a backlog list request may carry. */
  datatype BacklogFilters = BacklogFilters(
    category: Option<string> := None,
    priority: Option<string> := None,
    platform: Option<string> := None)

  const GameParamOrder: seq<string> := ["platform", "genre", "status", "search"]
  const BacklogParamOrder: seq<string> := ["category", "priority", "platform"]

  /**
   * `if (cond) params.append(name, value)`, where `seen` lists the names
   * earlier steps may have appended.
   */
  method AppendIf(params: seq<Param>, cond: bool, name: string, value: Option<string>, ghost seen: seq<string>)
    returns (r: seq<Param>)
    requires cond ==> value.Some?
    requires IsSubsequence(Names(params), seen)
    requires Get(params, name).None?
    ensures IsSubsequence(Names(r), seen + [name])
    ensures forall n :: n != name ==> Get(r, n) == Get(params, n)
    ensures Get(r, name) == if cond then value else None
  {
    SubsequenceSnoc(Names(params), seen, name);
    r := params;
    if cond {
      r := r + [(name, value.value)];
      assert Names(r) == Names(params) + [name];
      forall n { GetSnoc(params, name, value.value, n); }
    }
  }

  /**
   * `gamesApi.getAll`: appends platform, genre and status when each is set
   * and not `"All"`, then search whenever it is set. Each parameter is sent
   * exactly when its filter is active, carrying the filter's value; the
   * names come in the fixed order, each at most once.
   */
  method BuildGamesParams(f: GameFilters) returns (params: seq<Param>)
    ensures IsSubsequence(Names(params), GameParamOrder)
    ensures Get(params, "platform") == if ActiveFilter(f.platform) then f.platform else None
    ensures Get(params, "genre") == if ActiveFilter(f.genre) then f.genre else None
    ensures Get(params, "status") == if ActiveFilter(f.status) then f.status else None
    ensures Get(params, "search") == if Truthy(f.search) then f.search else None
  {
    params := [];
    params := AppendIf(params, ActiveFilter(f.platform), "platform", f.platform, []);
    params := AppendIf(params, ActiveFilter(f.genre), "genre", f.genre, ["platform"]);
    assert ["platform"] + ["genre"] == ["platform", "genre"];
    params := AppendIf(params, ActiveFilter(f.status), "status", f.status, ["platform", "genre"]);
    assert ["platform", "genre"] + ["status"] == ["platform", "genre", "status"];
    params := AppendIf(params, Truthy(f.search), "search", f.search, ["platform", "genre", "status"]);
    assert ["platform", "genre", "status"] + ["search"] == GameParamOrder;
  }

  /**
   * `backlogApi.getAll`: category, priority and platform, each sent exactly
   * when set and not `"All"`, in that order.
   */
  method BuildBacklogParams(f: BacklogFilters) returns (params: seq<Param>)
    ensures IsSubsequence(Names(params), BacklogParamOrder)
    ensures Get(params, "category") == if ActiveFilter(f.category) then f.category else None
    ensures Get(params, "priority") == if ActiveFilter(f.priority) then f.priority else None
    ensures Get(params, "platform") == if ActiveFilter(f.platform) then f.platform else None
  {
    params := [];
    params := AppendIf(params, ActiveFilter(f.category), "category", f.category, []);
    params := AppendIf(params, ActiveFilter(f.priority), "priority", f.priority, ["category"]);
    assert ["category"] + ["priority"] == ["category", "priority"];
    params := AppendIf(params, ActiveFilter(f.platform), "platform", f.platform, ["category", "priority"]);
    assert ["category", "priority"] + ["platform"] == BacklogParamOrder;
  }

  /** The server's reply to a failed request: its status and the body's `detail`, if any. */
  datatype ErrorResponse = ErrorResponse(status: int, detail: Option<string>)

  /**
   * What axios reports about a failed request: the reply when one came, whether
   * a request went out, and the error's own message.
   */
  datatype RequestError = RequestError(response: Option<ErrorResponse>, requestSent: bool, message: Option<string>)

  /** `{ message, status }` as the pages display it. */
  datatype ErrorInfo = ErrorInfo(message: string, status: int)

  const DefaultResponseMessage := "An error occurred"
  const NoResponseMessage := "Unable to connect to server"
  const DefaultClientMessage := "An unexpected error occurred"

  /**
   * `handleApiError`: a reply keeps its status and shows its detail (or a
   * default); a request with no reply is status 0; anything else is status
   * -1 with the error's message (or a default). The message is never empty.
   */
  function HandleApiError(e: RequestError): (r: ErrorInfo)
    ensures r.message != ""
    ensures e.response.Some? ==> r.status == e.response.value.status
    ensures e.response.Some? && Truthy(e.response.value.detail) ==> r.message == e.response.value.detail.value
    ensures e.response.Some? && !Truthy(e.response.value.detail) ==> r.message == DefaultResponseMessage
    ensures e.response.None? && e.requestSent ==> r == ErrorInfo(NoResponseMessage, 0)
    ensures e.response.None? && !e.requestSent ==> r.status == -1
    ensures e.response.None? && !e.requestSent && Truthy(e.message) ==> r.message == e.message.value
    ensures e.response.None? && !e.requestSent && !Truthy(e.message) ==> r.message == DefaultClientMessage
  {
    if e.response.Some? then
      ErrorInfo(if Truthy(e.response.value.detail) then e.response.value.detail.value else DefaultResponseMessage,
                e.response.value.status)
    else if e.requestSent then
      ErrorInfo(NoResponseMessage, 0)
    else
      ErrorInfo(if Truthy(e.message) then e.message.value else DefaultClientMessage, -1)
  }

  /** The three kinds of failure `handleApiError` tells apart. */
  datatype ErrorKind = ServerReplied | NoReply | ClientSide

  function KindOf(e: RequestError): ErrorKind
  {
    if e.response.Some? then ServerReplied else if e.requestSent then NoReply else ClientSide
  }

  /**
   * When every reply carries an HTTP status (100 to 599), the reported status
   * alone tells which kind of failure happened: the classification loses
   * nothing a caller branching on `status` needs.
   */
  lemma ErrorStatusIdentifiesKind(e: RequestError)
    requires e.response.Some? ==> 100 <= e.response.value.status <= 599
    ensures KindOf(e) == ServerReplied <==> 100 <= HandleApiError(e).status <= 599
    ensures KindOf(e) == NoReply <==> HandleApiError(e).status == 0
    ensures KindOf(e) == ClientSide <==> HandleApiError(e).status == -1
  {
  }

  /**
   * `getGamesByPlatform` (service version): one bucket per platform that
   * occurs, keys pairwise distinct, each bucket the non-empty, input-ordered
   * run of that platform's games; every game has its platform's bucket.
   */
  function GamesByPlatform(games: seq<Game>): (r: seq<Bucket<Game>>)
    ensures Distinct(Keys(r))
    ensures forall g :: g in games ==> PlatformOf(g) in Keys(r)
    ensures forall i :: 0 <= i < |r| ==> r[i].items != [] && IsSubsequence(r[i].items, games)
    ensures forall i, g :: 0 <= i < |r| && g in r[i].items ==> g in games && PlatformOf(g) == r[i].key
    ensures forall i, g :: 0 <= i < |r| && g in games && PlatformOf(g) == r[i].key ==> g in r[i].items
  {
    var ks := DistinctKeys(games, PlatformOf);
    var r := GroupByKeys(games, PlatformOf, ks);
    forall i | 0 <= i < |r|
      ensures r[i].items != [] && IsSubsequence(r[i].items, games)
      ensures forall g :: g in r[i].items <==> g in games && PlatformOf(g) == r[i].key
    {
      PresentKeyBucket(games, PlatformOf, i);
    }
    assert Keys(r) == ks;
    r
  }

  /** The buckets partition the games: their sizes add up to the number of games. */
  lemma GamesByPlatformPartition(games: seq<Game>)
    ensures SumSizes(GamesByPlatform(games)) == |games|
  {
    DistinctKeysPartition(games, PlatformOf);
  }

  /** The buckets come in order of each platform's first appearance. */
  lemma GamesByPlatformOrder(games: seq<Game>)
    ensures forall i, j :: 0 <= i < j < |GamesByPlatform(games)| ==>
      FirstAt(games, PlatformOf, GamesByPlatform(games)[i].key) < FirstAt(games, PlatformOf, GamesByPlatform(games)[j].key)
  {
    DistinctKeysOrder(games, PlatformOf);
  }

  /** `getBacklogByCategory`: the items of one category, in input order. */
  function BacklogByCategory(backlog: seq<BacklogItem>, category: string): (r: seq<BacklogItem>)
    ensures IsSubsequence(r, backlog)
    ensures forall b :: b in r <==> b in backlog && b.info.category == category
    ensures forall b :: multiset(r)[b] == if b.info.category == category then multiset(backlog)[b] else 0
  {
    var inCategory := KeyIs(CategoryOf, category);
    forall b
      ensures inCategory(b) == (b.info.category == category)
    {
      assert inCategory(b) == (CategoryOf(b) == category);
    }
    FilterIsSubsequence(backlog, inCategory);
    FilterMembers(backlog, inCategory);
    FilterMultiplicity(backlog, inCategory);
    Filter(backlog, inCategory)
  }
}
