# GameVault tracker: view derivation and backend routes, in Dafny

This project models the deterministic core of a small game-collection tracker.

The React frontend turns fetched lists into views:
- the library page's search and dropdown filters, which use the `"All"` sentinel;
- the backlog page's filters, category sections and discount hint;
- the timeline's per-platform sections, sorted in place by anchor date, with their labels;
- the dashboard's slices and placeholder statistics;
- the client library's query-parameter building, error classification and the two groupings by platform: by the platforms present in `api.js`, by a fixed list in `mock.js`;
- the sample data's statistics.

The FastAPI backend keeps three MongoDB collections. Its routes:
- build filter documents;
- list, read, create, update (`$set` of the supplied fields) and delete games and backlog items;
- move a backlog item into the library;
- compute dashboard statistics;
- keep a get-or-create preferences singleton.

Representation choices:
- Ratings are integers in tenths and prices are integers in cents.
- Dates are ISO `YYYY-MM-DD` strings compared lexicographically.
- Lower-casing is ASCII.
- Timestamps are opaque integers supplied by the caller, and a generated uuid is a `freshId` parameter.
- The collections are fields of a `Database` object: the games and the backlog are maps from id to record, and the preferences collection is a sequence of documents. The routes update these fields in place.
- Mongo's `$regex` matcher is a parameter `regex(pattern, text)`.

Modules, one per source file plus shared helpers:
- `Wrappers`: optional values, HTTP results, truthiness.
- `Sequences`: order-preserving filter, subsequences, sums.
- `Text`: case folding, substring, date order.
- `Grouping`: bucketing by key.
- `Rounding`: round-half-up and round-half-even of exact quotients.
- `Models`: the pydantic records and their defaults.
- One module per page or route file: `Mock`, `Api`, `GamesLibrary`, `BacklogPage`, `Timeline`, `Dashboard`, `Database`, `GamesRoutes`, `BacklogRoutes`, `PreferencesRoutes`.

Behaviour of the code worth noting:
- The client-side statistics round the mean with `Math.round` and divide by zero on an empty list. The backend rounds half-to-even and answers 0 for an empty list.
- The timeline groups by the platforms present (`api.js`), not by a fixed list.
- The timeline sorts each section in place.

## Model

| member | source | states |
|---|---|---|
| Wrappers.OrElse | backend/routes/backlog.py:98 | `a or b`: a non-empty first value wins, otherwise the second, even when that is absent |
| Grouping.DistinctKeys | frontend/src/services/api.js:89 | the platforms of the games without repetition, every game's platform among them and only those |
| Grouping.DistinctKeysOrder | frontend/src/services/api.js:89 | the distinct platforms are listed in order of first appearance |
| Grouping.DistinctKeysPartition | frontend/src/services/api.js:88-94 | grouping by the distinct keys: the bucket sizes add up to the input length |
| Grouping.GroupByKeysPlacement | frontend/src/mock.js:150-153 | grouping by a key list puts an item in exactly the buckets whose key is its key; with an unknown key it is in none, with distinct keys in exactly one |
| Text.ContainsIffOccurs | frontend/src/pages/GamesLibrary.jsx:24-25 | `includes` holds iff the term occurs at some position |
| Text.LowerIdempotent | frontend/src/pages/GamesLibrary.jsx:24-25 | lower-casing twice is lower-casing once |
| Text.BeforeTotal | frontend/src/pages/Timeline.jsx:106-110 | two different dates are ordered one way or the other |
| Text.BeforeTransitive | frontend/src/pages/Timeline.jsx:106-110 | the date order is transitive |
| Rounding.RoundHalfUp | frontend/src/mock.js:167 | `Math.round` of an exact quotient is within half a unit, with halves going up |
| Rounding.RoundHalfEven | backend/routes/games.py:97 | Python's `round` of an exact quotient is within half a unit, with halves going to the even neighbour |
| Rounding.HalfUpAndHalfEven | backend/routes/games.py:97 | the two roundings differ by at most one, and only on an exact half |
| Rounding.RoundHalfUpBetween | frontend/src/pages/Backlog.jsx:110 | rounding a quotient that lies between two integers stays between them |
| Models.MoveRequestDefaults | backend/models.py:115-122 | a move request defaults to "Not Started", rating, playtime and progress 0, and no dates or notes |
| Models.GameBaseDefaults | backend/models.py:15-20 | `startDate`, `completionDate` and `notes` default to absent and `progress` to 0; `releaseDate` has no default |
| Models.PreferencesDefaults | backend/models.py:89-90 | the language defaults to "en" |
| Models.ArgumentlessConstruction | backend/models.py:40-43 | `Preferences()` passes validation; `Game()` and `Backlog()` lack required fields and fail it |
| Models.ModelId | backend/routes/games.py:38 | `Model().id` yields the drawn id exactly when the model has no required field |
| Models.ApplyGameUpdate | backend/routes/games.py:56-65 | `$set` of the non-`None` fields: each supplied field takes its value, every other field is unchanged, and no optional field can become absent |
| Models.GameUpdateIdempotent | backend/routes/games.py:62-65 | applying the same update twice is applying it once |
| Models.ApplyBacklogUpdate | backend/routes/backlog.py:50-59 | the same `$set` rule for backlog items |
| Models.CompletedAndInProgressFit | frontend/src/mock.js:157-158 | the completed and in-progress counts add up to at most the number of games |
| Mock.SentinelPlacement | frontend/src/mock.js:143-147 | platforms, genres and statuses start with "All"; priorities and categories do not contain it |
| Mock.GamesByKnownPlatform | frontend/src/mock.js:149-154 | four buckets PC, PlayStation 5, Nintendo Switch, Xbox Series X; each is the order-preserving subsequence of that platform's games, holding every occurrence of each such game; a game on another platform is in none |
| Mock.MockStats | frontend/src/mock.js:156-170 | total and backlog counts are the lengths; completed and in progress are exact status counts; playtime is the sum; the mean rating is rounded half up to a tenth |
| Mock.SamplePlaytime | frontend/src/mock.js:159 | the sample games' playtime adds up to 297 hours |
| Mock.SampleRatings | frontend/src/mock.js:160 | the sample ratings add up to 43.2 |
| Mock.SampleCompleted | frontend/src/mock.js:157 | three sample games are completed |
| Mock.SampleInProgress | frontend/src/mock.js:158 | one sample game is in progress |
| Mock.MockStatsOfSamples | frontend/src/mock.js:156-170 | the sample statistics are 5 games, 3 completed, 1 in progress, 297 hours, mean 8.6 and 4 backlog items |
| Api.AppendIf | frontend/src/services/api.js:16 | a conditional `append` adds the name last, with its value, only when the condition holds, and leaves the other names' values alone |
| Api.BuildGamesParams | frontend/src/services/api.js:14-19 | platform, genre and status are sent iff truthy and not "All"; search iff truthy; names in the order platform, genre, status, search |
| Api.BuildBacklogParams | frontend/src/services/api.js:37-41 | category, priority and platform are sent iff truthy and not "All", in that order |
| Api.HandleApiError | frontend/src/services/api.js:65-85 | with a response, its status and its detail or "An error occurred"; with only a request, status 0 and "Unable to connect to server"; otherwise status -1 and the message or "An unexpected error occurred"; the message is never empty |
| Api.ErrorStatusIdentifiesKind | frontend/src/services/api.js:65-85 | with HTTP statuses in 100..599, the returned status tells the three kinds of failure apart |
| Api.GamesByPlatform | frontend/src/services/api.js:88-94 | one bucket per platform present, keys distinct; each bucket is non-empty, a subsequence of the games, and holds exactly that platform's games |
| Api.GamesByPlatformPartition | frontend/src/services/api.js:88-94 | the bucket sizes add up to the number of games |
| Api.GamesByPlatformOrder | frontend/src/services/api.js:89 | buckets come in order of each platform's first appearance |
| Api.BacklogByCategory | frontend/src/services/api.js:96-98 | the order-preserving subsequence of items with exactly that category, each occurrence kept as often as in the input |
| GamesLibrary.FilteredGames | frontend/src/pages/GamesLibrary.jsx:23-31 | a subsequence of the games holding exactly those that pass search, platform, genre and status together, each as often as in the input |
| GamesLibrary.MatchesSearchIffOccurs | frontend/src/pages/GamesLibrary.jsx:24-25 | the search matches iff the folded term occurs in the folded title or the folded developer |
| GamesLibrary.EmptySearchMatches | frontend/src/pages/GamesLibrary.jsx:24-25 | the empty term matches every game |
| GamesLibrary.SearchIgnoresCase | frontend/src/pages/GamesLibrary.jsx:24-25 | a term and its lower-case form match the same games |
| GamesLibrary.InitialFiltersKeepAll | frontend/src/pages/GamesLibrary.jsx:18-31 | with the initial filters the list is the fetched list |
| GamesLibrary.LongerSearchNarrows | frontend/src/pages/GamesLibrary.jsx:24-25 | typing more characters only removes games |
| GamesLibrary.ChoosingPlatformNarrows | frontend/src/pages/GamesLibrary.jsx:26 | choosing a platform instead of "All" only removes games |
| GamesLibrary.NoMatchNoticeExact | frontend/src/pages/GamesLibrary.jsx:186 | the intended notice shows exactly when no game passes the filters |
| GamesLibrary.NoMatchNoticeMissed | frontend/src/pages/GamesLibrary.jsx:186 | when games exist but none passes, the notice as written stays hidden |
| GamesLibrary.NoMatchNoticeMissedOnSamples | frontend/src/pages/GamesLibrary.jsx:186 | on the sample games with platform "Xbox Series X" nothing is shown and no notice appears |
| BacklogPage.FilteredBacklog | frontend/src/pages/Backlog.jsx:39-43 | a subsequence of the backlog holding exactly the items passing both dropdowns, each as often as in the input |
| BacklogPage.InitialBacklogFiltersKeepAll | frontend/src/pages/Backlog.jsx:17-43 | with both dropdowns on "All" the list is the backlog |
| BacklogPage.CategorySections | frontend/src/pages/Backlog.jsx:146-147 | one section per category, in order, each holding the full backlog's items of that category whatever the dropdowns say |
| BacklogPage.CategorySectionsPlacement | frontend/src/pages/Backlog.jsx:146-147 | an item of a listed category is in exactly one section; any other item is in none |
| BacklogPage.DiscountPercent | frontend/src/pages/Backlog.jsx:110 | when the hint shows, the percentage is the price drop over the current price, rounded half up, between 0 and 100 |
| BacklogPage.DiscountOfFirstSample | frontend/src/pages/Backlog.jsx:107-110 | the first sample item shows the hint, with 33% |
| Timeline.Label | frontend/src/pages/Timeline.jsx:161-164 | "Completed", "Started" or "Released", with the same fallback as the anchor date and naming the date shown |
| Timeline.InsertPermutes | frontend/src/pages/Timeline.jsx:105-110 | one insertion step adds exactly the inserted game and loses none |
| Timeline.InsertSorted | frontend/src/pages/Timeline.jsx:105-110 | inserting into a section sorted newest first keeps it sorted |
| Timeline.SortByAnchorPermutes | frontend/src/pages/Timeline.jsx:105-110 | sorting a section keeps exactly its games |
| Timeline.SortByAnchorCorrect | frontend/src/pages/Timeline.jsx:105-110 | the sorted section is a permutation of the section, in non-increasing anchor order |
| Timeline.SortByAnchorStable | frontend/src/pages/Timeline.jsx:106-110 | games with the same anchor date keep their relative order |
| Timeline.InsertLandsAt | frontend/src/pages/Timeline.jsx:106-110 | the inserted game lands right after the last game dated no earlier than it, past every earlier-dated one |
| Timeline.ShiftEarlier | frontend/src/pages/Timeline.jsx:106-110 | the earlier-dated games just before the next one move one place right, the rest of the array is untouched, and the freed slot is where insertion stops |
| Timeline.InsertAt | frontend/src/pages/Timeline.jsx:105-110 | one in-place insertion step places the next game within the sorted prefix and leaves the rest of the array alone |
| Timeline.SortSection | frontend/src/pages/Timeline.jsx:105-110 | the in-place sort leaves the array holding the sorted section |
| Timeline.SortedCopy | frontend/src/pages/Timeline.jsx:105-110 | a section's games, sorted in an array, are the sorted section |
| Timeline.SelectSections | frontend/src/pages/Timeline.jsx:55-57 | "All" keeps every section; another choice keeps exactly the sections of that platform |
| Timeline.SelectedPlatformSection | frontend/src/pages/Timeline.jsx:55-57 | a chosen platform yields at most one section, and none exactly when no game is on it |
| Timeline.PlatformPresentSelected | frontend/src/pages/Timeline.jsx:55-57 | choosing the platform of a game yields its section |
| Timeline.SelectedPlatformPresent | frontend/src/pages/Timeline.jsx:179 | when a section is shown, some game is on the chosen platform |
| Timeline.SortSections | frontend/src/pages/Timeline.jsx:105-110 | every section keeps its platform and position, its games sorted by anchor date |
| Timeline.RenderTimeline | frontend/src/pages/Timeline.jsx:54-110 | the page shows the selected sections, each holding its games sorted by anchor date |
| Dashboard.RecentGames | frontend/src/pages/Dashboard.jsx:68 | the first min(3, n) games, in order |
| Dashboard.CurrentlyPlaying | frontend/src/pages/Dashboard.jsx:69 | a subsequence holding exactly the games "In Progress", as many as the in-progress count |
| Dashboard.EmptyDashboard | frontend/src/pages/Dashboard.jsx:68-69 | no games: nothing recent and nothing being played |
| Dashboard.RecentGamesOfLongList | frontend/src/pages/Dashboard.jsx:68 | with more than three games, exactly the first three |
| Database.FindIds | backend/routes/games.py:31 | `to_list(1000)`: at most 1000 matching records, each once, and all of them when fewer come back |
| Database.ListingOfSmallTable | backend/routes/games.py:31 | a table with fewer than 1000 records is listed whole |
| GamesRoutes.GamesQuery | backend/routes/games.py:17-29 | the document has a platform, genre or status key iff that argument is truthy and not "All", holding the argument; `$or` over title and developer iff the search is non-empty; no other key |
| GamesRoutes.BuildGamesQuery | backend/routes/games.py:17-29 | the conditional assignments build that document |
| GamesRoutes.QueryOfSentFilters | backend/routes/games.py:19-25 | the query built from the parameters the client sends is the one built from the client's filters |
| GamesRoutes.ServerAgreesWithLibrary | backend/routes/games.py:19-29 | for a plain search term, the server keeps exactly the games the library page keeps |
| GamesRoutes.GetGames | backend/routes/games.py:9-32 | at most 1000 stored games, each once, all satisfying the document, and all of them when fewer come back |
| GamesRoutes.GetGame | backend/routes/games.py:45-51 | the stored game, or 404 "Game not found" |
| GamesRoutes.CreateGame | backend/routes/games.py:34-43 | one new game under a fresh id with the caller's fields; nothing else changes |
| GamesRoutes.CreateGameAsWrittenFails | backend/routes/games.py:38 | as written, creation always fails with 500 and inserts nothing |
| GamesRoutes.UpdateGame | backend/routes/games.py:53-71 | 400 without fields (checked first), 404 for an unknown id, else only the supplied fields and `updatedAt` change |
| GamesRoutes.NoUpdateFieldsIsDefault | backend/routes/games.py:56-58 | an update supplies no field exactly when it is the all-`None` update |
| GamesRoutes.DeleteGame | backend/routes/games.py:73-79 | 404 for an unknown id; afterwards the id is absent and nothing else changes |
| GamesRoutes.AverageRating | backend/routes/games.py:90 | 0 for no games, otherwise the mean within half a tenth, an exact half going to the even neighbour as Python's `round` does |
| GamesRoutes.DashboardStats | backend/routes/games.py:87-98 | exact status counts within the total, summed playtime, the guarded mean within half a tenth with exact halves going to the even neighbour, the backlog size |
| GamesRoutes.StatsIgnoreOrder | backend/routes/games.py:84-90 | the statistics do not depend on the order the store lists records in |
| GamesRoutes.InitialStatsAreEmptyStats | frontend/src/pages/Dashboard.jsx:11-18 | the dashboard's all-zero placeholder is what the server reports for an empty library |
| GamesRoutes.ServerStatsOfSamples | backend/routes/games.py:87-98 | on the sample data the server reports the same figures as the client fallback |
| GamesRoutes.FallbackStatsAgreeOffTies | backend/routes/games.py:97 | client fallback and server agree on every figure except the mean, which can differ by one tenth, and then only on an exact half |
| GamesRoutes.GetDashboardStats | backend/routes/games.py:81-99 | the statistics of one listing of each table, of at most 1000 records each |
| BacklogRoutes.BacklogQuery | backend/routes/backlog.py:16-23 | a category, priority or platform key iff that argument is truthy and not "All", holding the argument; no other key |
| BacklogRoutes.BuildBacklogQuery | backend/routes/backlog.py:16-23 | the conditional assignments build that document |
| BacklogRoutes.QueryOfSentBacklogFilters | backend/routes/backlog.py:18-23 | the query built from what the client sends is the one built from its filters |
| BacklogRoutes.ServerAgreesWithBacklogPage | backend/routes/backlog.py:18-21 | with the page's two dropdowns, the server keeps exactly the items the page keeps |
| BacklogRoutes.GetBacklog | backend/routes/backlog.py:9-26 | at most 1000 stored items, each once, all satisfying the document, and all of them when fewer come back |
| BacklogRoutes.GetBacklogItem | backend/routes/backlog.py:39-45 | the stored item, or 404 "Backlog item not found" |
| BacklogRoutes.CreateBacklogItem | backend/routes/backlog.py:28-37 | one new item under a fresh id with the caller's fields; nothing else changes |
| BacklogRoutes.CreateBacklogItemAsWrittenFails | backend/routes/backlog.py:32 | as written, creation always fails with 500 and inserts nothing |
| BacklogRoutes.UpdateBacklogItem | backend/routes/backlog.py:47-65 | 400 without fields (checked first), 404 for an unknown id, else only the supplied fields and `updatedAt` change |
| BacklogRoutes.DeleteBacklogItem | backend/routes/backlog.py:67-73 | 404 for an unknown id; afterwards the id is absent and nothing else changes |
| BacklogRoutes.GameFromBacklog | backend/routes/backlog.py:84-101 | title, platform, genre, developer, release date and cover from the item; status, rating, playtime, progress and dates from the request; notes from the request if non-empty, else the item's |
| BacklogRoutes.MovedWithDefaults | backend/routes/backlog.py:84-101 | with the default request the game is "Not Started" and the timeline labels and places it by its release date |
| BacklogRoutes.MoveToLibrary | backend/routes/backlog.py:75-109 | 404 and no change for an unknown id; otherwise the games gain exactly the new game and the backlog loses exactly the item |
| BacklogRoutes.MoveToLibraryAsWrittenFails | backend/routes/backlog.py:79-85 | as written, every move fails (404 or 500) and neither table changes |
| PreferencesRoutes.GetPreferences | backend/routes/preferences.py:8-23 | the stored document, or a new "en" one that is stored; afterwards exactly one document exists |
| PreferencesRoutes.GetPreferencesTwice | backend/routes/preferences.py:11-23 | reading twice gives the same document and creates at most one |
| PreferencesRoutes.UpdatePreferences | backend/routes/preferences.py:25-52 | 400 without a language; with no document, a new one with that language; otherwise the same id and creation time with the new language and update time |
| PreferencesRoutes.UpdateThenGet | backend/routes/preferences.py:25-52 | a read after an update returns the updated document, and one document exists |

`Database.Database.Valid` holds before and after every route. It says that every record is stored under its own id and that at most one preferences document exists. The preferences routes insert only when the collection is empty, so any sequence of calls keeps at most one document.

## Left out

- React rendering, hooks, routing, icons, i18n strings, and the fetch-with-sample-fallback in each page's effect: these are UI and I/O.
- The axios client, its timeout, URL percent-encoding and `Promise.all`: parameters are modelled as a list of name/value pairs.
- MongoDB's `$regex` semantics: the matcher is the parameter `regex`. Mongo's natural listing order is not modelled; a listing is any order.
- `backend/database.py` is not part of this model: the collections are the `Database` class. `backend/server.py` and `backend/init_data.py` are also left out (wiring and seeding).
- Floating point: ratings and prices are exact integers in tenths and cents. Python's `round` on a binary float can fall on the other side of a decimal half, and that is not modelled.
- `uuid4()` and `datetime.utcnow()` are parameters. A fresh id is assumed not to collide with a stored one.
- Date parsing and locale formatting: dates are ISO strings compared as text. A date that is not ISO, or an invalid `Date`, is not modelled.
- A stored game lacking `playtime` or `rating` (`g.get(..., 0)`) cannot be represented: every write path supplies both fields.
- Unicode case folding: lower-casing is ASCII only.
- Each route runs to completion before the next one starts; concurrent requests are not modelled.
- Pydantic response validation and Mongo's `_id` field are not modelled: `Game(**game)` returns the stored record.
- Mock.MockStats: requires at least one game. With none, the source divides by zero and shows `NaN`.
- BacklogPage.DiscountPercent: prices are non-negative cents. Negative or fractional-cent prices are not modelled.
- Api.HandleApiError: `detail` is taken to be a string. FastAPI's validation errors send a list there, and that is not modelled.
- Timeline.SortSection: `Array.prototype.sort` is modelled as a stable insertion sort. Any stable sort by the same comparator gives the same result; the comparator's `NaN` cases are not modelled.
- GamesRoutes.ServerAgreesWithLibrary: holds only for a search term with no pattern syntax, on which the store's matcher is a case-insensitive substring test.
- GamesRoutes.GetDashboardStats: states the statistics of some listing of each table, not of the store's particular order. By GamesRoutes.StatsIgnoreOrder the order does not matter.

## Findings

| source | as written | input that shows it | evidently intended | confidence | as-written member | corrected member |
|---|---|---|---|---|---|---|
| backend/routes/games.py:38 | the id is drawn with `Game().id`; `Game` has required fields, so construction raises a validation error before the insert | any valid `POST /games` body | draw a fresh uuid (the `Field` default factory) and insert the game | high, not executed | GamesRoutes.CreateGameAsWrittenFails | GamesRoutes.CreateGame |
| backend/routes/backlog.py:32 | the id is drawn with `Backlog().id`, which fails validation the same way | any valid `POST /backlog` body | draw a fresh uuid and insert the item | high, not executed | BacklogRoutes.CreateBacklogItemAsWrittenFails | BacklogRoutes.CreateBacklogItem |
| backend/routes/backlog.py:85 | the moved game's id is drawn with `Game().id` after the lookup, so every move of an existing item fails before any change | any stored backlog id | move the item: insert the game, delete the item | high, not executed | BacklogRoutes.MoveToLibraryAsWrittenFails | BacklogRoutes.MoveToLibrary |
| frontend/src/pages/GamesLibrary.jsx:186 | the "no games matching filters" notice tests the unfiltered `games.length` | the sample games with platform "Xbox Series X": nothing is listed and no notice shows | test the filtered list | high, not executed | GamesLibrary.NoMatchNoticeMissedOnSamples | GamesLibrary.NoMatchNoticeExact |
