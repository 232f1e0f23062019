/**
 * The `/backlog` routes of the backend: listing with filters, reading,
 * creating, updating and deleting a backlog item, and moving an item into
 * the games library.
 */
module BacklogRoutes {
  import opened Wrappers
  import opened Models
  import opened Database
  import Api
  import BacklogPage
  import Timeline

  const ItemNotFound := HttpError(404, "Backlog item not found")
  const ItemDeleted := "Backlog item deleted successfully"

  /** The fields of a stored backlog item a filter document can name. */
  function BacklogField(b: BacklogItem): string -> Option<string>
  {
    name =>
      if name == "category" then Some(b.info.category)
      else if name == "priority" then Some(b.info.priority)
      else if name == "platform" then Some(b.info.platform)
      else None
  }

  /**
   * The filter document `get_backlog` builds: each argument becomes an
   * exact match when it is given and is not `"All"`.
   */
  function BacklogQuery(category: Option<string>, priority: Option<string>, platform: Option<string>): (q: Query)
    ensures "category" in q <==> ActiveFilter(category)
    ensures "priority" in q <==> ActiveFilter(priority)
    ensures "platform" in q <==> ActiveFilter(platform)
    ensures "category" in q ==> q["category"] == Equals(category.value)
    ensures "priority" in q ==> q["priority"] == Equals(priority.value)
    ensures "platform" in q ==> q["platform"] == Equals(platform.value)
    ensures q.Keys <= {"category", "priority", "platform"}
  {
    var q0: Query := map[];
    var q1 := if ActiveFilter(category) then q0["category" := Equals(category.value)] else q0;
    var q2 := if ActiveFilter(priority) then q1["priority" := Equals(priority.value)] else q1;
    if ActiveFilter(platform) then q2["platform" := Equals(platform.value)] else q2
  }

  /** The filter document, filled in by successive conditional assignments. */
  method BuildBacklogQuery(category: Option<string>, priority: Option<string>, platform: Option<string>)
    returns (query: Query)
    ensures query == BacklogQuery(category, priority, platform)
  {
    query := map[];
    if category.Some? && category.value != "" && category.value != "All" {
      query := query["category" := Equals(category.value)];
    }
    if priority.Some? && priority.value != "" && priority.value != "All" {
      query := query["priority" := Equals(priority.value)];
    }
    if platform.Some? && platform.value != "" && platform.value != "All" {
      query := query["platform" := Equals(platform.value)];
    }
  }

  /** The query built from what the client sends is the one built from the client's filters directly. */
  lemma QueryOfSentBacklogFilters(f: Api.BacklogFilters, params: seq<Api.Param>)
    requires Api.Get(params, "category") == if ActiveFilter(f.category) then f.category else None
    requires Api.Get(params, "priority") == if ActiveFilter(f.priority) then f.priority else None
    requires Api.Get(params, "platform") == if ActiveFilter(f.platform) then f.platform else None
    ensures BacklogQuery(Api.Get(params, "category"), Api.Get(params, "priority"), Api.Get(params, "platform")) ==
            BacklogQuery(f.category, f.priority, f.platform)
  {
  }

  /**
   * With the backlog page's two dropdowns (never empty) as arguments and no
   * platform, the server keeps exactly the items the page keeps.
   */
  lemma ServerAgreesWithBacklogPage(f: BacklogPage.BacklogViewFilters, b: BacklogItem, regex: (string, string) -> bool)
    requires f.category != "" && f.priority != ""
    ensures Satisfies(BacklogQuery(Some(f.category), Some(f.priority), None), BacklogField(b), regex)
            <==> BacklogPage.KeepsItem(f, b)
  {
    var q := BacklogQuery(Some(f.category), Some(f.priority), None);
    if Satisfies(q, BacklogField(b), regex) {
      assert f.category != "All" ==> ClauseHolds("category", q["category"], BacklogField(b), regex);
      assert f.priority != "All" ==> ClauseHolds("priority", q["priority"], BacklogField(b), regex);
    }
  }

  /**
   * `get_backlog`: at most a thousand stored items, each once, every one
   * satisfying the filter document; when fewer come back, they are all the
   * items that satisfy it. (The document has no pattern clause, so the
   * matcher passed for `regex` plays no part.)
   */
  method GetBacklog(db: Database, category: Option<string>, priority: Option<string>, platform: Option<string>,
                    regex: (string, string) -> bool) returns (r: seq<BacklogItem>)
    requires db.Valid()
    ensures |r| <= ListLimit
    ensures forall i :: 0 <= i < |r| ==>
      r[i].id in db.backlog && db.backlog[r[i].id] == r[i] &&
      Satisfies(BacklogQuery(category, priority, platform), BacklogField(r[i]), regex)
    ensures forall i, j :: 0 <= i < j < |r| ==> r[i].id != r[j].id
    ensures |r| < ListLimit ==> forall id ::
      (id in db.backlog && Satisfies(BacklogQuery(category, priority, platform), BacklogField(db.backlog[id]), regex))
      ==> db.backlog[id] in r
  {
    var query := BuildBacklogQuery(category, priority, platform);
    var ids := FindIds(db.backlog, (b: BacklogItem) => Satisfies(query, BacklogField(b), regex), ListLimit);
    r := Lookup(db.backlog, ids);
    forall id | id in db.backlog && Satisfies(query, BacklogField(db.backlog[id]), regex) && |r| < ListLimit
      ensures db.backlog[id] in r
    {
      var i :| 0 <= i < |ids| && ids[i] == id;
      assert r[i] == db.backlog[id];
    }
  }

  /** `get_backlog_item`: the stored item with that id, or 404. */
  method GetBacklogItem(db: Database, backlogId: string) returns (r: Result<BacklogItem>)
    requires db.Valid()
    ensures r.Ok? <==> backlogId in db.backlog
    ensures r.Ok? ==> r.value == db.backlog[backlogId] && r.value.id == backlogId
    ensures r.Err? ==> r.error == ItemNotFound
  {
    if backlogId in db.backlog {
      r := Ok(db.backlog[backlogId]);
    } else {
      r := Err(ItemNotFound);
    }
  }

  /**
   * `create_backlog_item` as it is evidently meant to work: one new item
   * under a fresh id, holding the caller's fields; nothing else changes.
   */
  method CreateBacklogItem(db: Database, item: BacklogBase, freshId: string, now: Timestamp) returns (r: BacklogItem)
    requires db.Valid()
    requires freshId !in db.backlog
    modifies db
    ensures db.Valid()
    ensures r.id == freshId && r.info == item && r.createdAt == now && r.updatedAt == now
    ensures db.backlog == old(db.backlog)[freshId := r]
    ensures |db.backlog| == |old(db.backlog)| + 1
    ensures db.games == old(db.games) && db.preferences == old(db.preferences)
  {
    r := BacklogItem(freshId, item, now, now);
    db.backlog := db.backlog[freshId := r];
  }

  /**
   * `create_backlog_item` as written, on the backlog table: the id is drawn
   * with `Backlog().id` before anything is inserted.
   */
  function CreateBacklogItemAsWritten(backlog: map<string, BacklogItem>, item: BacklogBase, freshId: string,
                                      now: Timestamp): (Result<BacklogItem>, map<string, BacklogItem>)
  {
    match ModelId(BacklogRequiredFields, freshId)
    case Err(e) => (Err(e), backlog)
    case Ok(id) => (Ok(BacklogItem(id, item, now, now)), backlog[id := BacklogItem(id, item, now, now)])
  }

  /** As written, every creation fails with a server error and the table is left as it was. */
  lemma CreateBacklogItemAsWrittenFails(backlog: map<string, BacklogItem>, item: BacklogBase, freshId: string,
                                        now: Timestamp)
    ensures CreateBacklogItemAsWritten(backlog, item, freshId, now).0.Err?
    ensures CreateBacklogItemAsWritten(backlog, item, freshId, now).0.error.status == 500
    ensures CreateBacklogItemAsWritten(backlog, item, freshId, now).1 == backlog
  {
    assert "title" in BacklogRequiredFields;
  }

  /**
   * `update_backlog_item`: without any supplied field, 400 (checked first);
   * for an unknown id, 404; otherwise the supplied fields and `updatedAt`
   * are `$set` on the stored item and nothing else changes.
   */
  method UpdateBacklogItem(db: Database, backlogId: string, u: BacklogUpdate, now: Timestamp)
    returns (r: Result<BacklogItem>)
    requires db.Valid()
    modifies db
    ensures db.Valid()
    ensures BacklogUpdateFields(u) == {} ==> r == Err(NoUpdateData)
    ensures BacklogUpdateFields(u) != {} && backlogId !in old(db.backlog) ==> r == Err(ItemNotFound)
    ensures r.Err? ==> db.backlog == old(db.backlog)
    ensures r.Ok? ==>
      (backlogId in old(db.backlog) &&
       r.value == BacklogItem(backlogId, ApplyBacklogUpdate(old(db.backlog)[backlogId].info, u),
                              old(db.backlog)[backlogId].createdAt, now) &&
       db.backlog == old(db.backlog)[backlogId := r.value])
    ensures BacklogUpdateFields(u) != {} && backlogId in old(db.backlog) ==> r.Ok?
    ensures db.games == old(db.games) && db.preferences == old(db.preferences)
  {
    if BacklogUpdateFields(u) == {} {
      return Err(NoUpdateData);
    }
    if backlogId !in db.backlog {
      return Err(ItemNotFound);
    }
    var stored := db.backlog[backlogId];
    var updated := BacklogItem(stored.id, ApplyBacklogUpdate(stored.info, u), stored.createdAt, now);
    db.backlog := db.backlog[backlogId := updated];
    r := Ok(updated);
  }

  /** `delete_backlog_item`: 404 for an unknown id; afterwards the id is absent either way. */
  method DeleteBacklogItem(db: Database, backlogId: string) returns (r: Result<string>)
    requires db.Valid()
    modifies db
    ensures db.Valid()
    ensures r.Ok? <==> backlogId in old(db.backlog)
    ensures r.Ok? ==> r.value == ItemDeleted
    ensures r.Err? ==> r.error == ItemNotFound
    ensures db.backlog == old(db.backlog) - {backlogId}
    ensures backlogId !in db.backlog
    ensures db.games == old(db.games) && db.preferences == old(db.preferences)
  {
    if backlogId !in db.backlog {
      return Err(ItemNotFound);
    }
    db.backlog := db.backlog - {backlogId};
    r := Ok(ItemDeleted);
  }

  /**
   * The game a backlog item becomes: the catalogue fields come from the
   * item, the play fields from the request, and the notes from the request
   * when they are non-empty, else from the item.
   */
  function GameFromBacklog(b: BacklogItem, req: MoveToLibraryRequest, id: string, now: Timestamp): (r: Game)
    ensures r.id == id && r.createdAt == now && r.updatedAt == now
    ensures r.info.title == b.info.title && r.info.platform == b.info.platform && r.info.genre == b.info.genre
    ensures r.info.developer == b.info.developer && r.info.releaseDate == b.info.releaseDate
    ensures r.info.cover == b.info.cover
    ensures r.info.status == req.status && r.info.rating == req.rating && r.info.playtime == req.playtime
    ensures r.info.progress == req.progress
    ensures r.info.startDate == req.startDate && r.info.completionDate == req.completionDate
    ensures Truthy(req.notes) ==> r.info.notes == req.notes
    ensures !Truthy(req.notes) ==> r.info.notes == b.info.notes
  {
    Game(id,
      GameBase(
        title := b.info.title,
        platform := b.info.platform,
        genre := b.info.genre,
        status := req.status,
        rating := req.rating,
        playtime := req.playtime,
        developer := b.info.developer,
        releaseDate := b.info.releaseDate,
        startDate := req.startDate,
        completionDate := req.completionDate,
        cover := b.info.cover,
        progress := req.progress,
        notes := OrElse(req.notes, b.info.notes)),
      now, now)
  }

  /**
   * Moved with the request's defaults, a game is "Not Started", unrated,
   * and the timeline places and labels it by its release date.
   */
  lemma MovedWithDefaults(b: BacklogItem, id: string, now: Timestamp)
    ensures var g := GameFromBacklog(b, MoveToLibraryRequest(), id, now);
      g.info.status == "Not Started" && g.info.rating == 0 && g.info.playtime == 0 && g.info.progress == 0 &&
      Timeline.Label(g) == "Released" && Timeline.Anchor(g) == b.info.releaseDate && g.info.notes == b.info.notes
  {
  }

  /**
   * `move_backlog_to_library` as it is evidently meant to work: an unknown
   * id is 404 and changes nothing; otherwise the item's game is added to the
   * games under a fresh id and the item leaves the backlog.
   */
  method MoveToLibrary(db: Database, backlogId: string, req: MoveToLibraryRequest, freshId: string, now: Timestamp)
    returns (r: Result<Game>)
    requires db.Valid()
    requires freshId !in db.games
    modifies db
    ensures db.Valid()
    ensures r.Ok? <==> backlogId in old(db.backlog)
    ensures r.Err? ==> r.error == ItemNotFound && db.games == old(db.games) && db.backlog == old(db.backlog)
    ensures r.Ok? ==>
      (r.value == GameFromBacklog(old(db.backlog)[backlogId], req, freshId, now) &&
       db.games == old(db.games)[freshId := r.value] &&
       db.backlog == old(db.backlog) - {backlogId})
    ensures r.Ok? ==> |db.games| == |old(db.games)| + 1 && |db.backlog| == |old(db.backlog)| - 1
    ensures db.preferences == old(db.preferences)
  {
    if backlogId !in db.backlog {
      return Err(ItemNotFound);
    }
    var item := db.backlog[backlogId];
    var game := GameFromBacklog(item, req, freshId, now);
    db.games := db.games[freshId := game];
    db.backlog := db.backlog - {backlogId};
    r := Ok(game);
  }

  /**
   * `move_backlog_to_library` as written, on both tables: after the lookup,
   * the new game's id is drawn with `Game().id`, before anything is inserted
   * or deleted.
   */
  function MoveToLibraryAsWritten(games: map<string, Game>, backlog: map<string, BacklogItem>, backlogId: string,
                                  req: MoveToLibraryRequest, freshId: string, now: Timestamp)
    : (Result<Game>, map<string, Game>, map<string, BacklogItem>)
  {
    if backlogId !in backlog then (Err(ItemNotFound), games, backlog)
    else
      var item := backlog[backlogId];
      match ModelId(GameRequiredFields, freshId)
      case Err(e) => (Err(e), games, backlog)
      case Ok(id) =>
        var game := GameFromBacklog(item, req, id, now);
        (Ok(game), games[id := game], backlog - {backlogId})
  }

  /**
   * As written, no move ever happens: an unknown id is 404, a known one a
   * server error, and both tables are left as they were.
   */
  lemma MoveToLibraryAsWrittenFails(games: map<string, Game>, backlog: map<string, BacklogItem>, backlogId: string,
                                    req: MoveToLibraryRequest, freshId: string, now: Timestamp)
    ensures var (r, games', backlog') := MoveToLibraryAsWritten(games, backlog, backlogId, req, freshId, now);
      r.Err? && r.error.status == (if backlogId in backlog then 500 else 404) &&
      games' == games && backlog' == backlog
  {
    assert "title" in GameRequiredFields;
  }
}
