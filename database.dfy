/**
 * The three MongoDB collections the backend keeps, as an object whose
 * fields the routes update in place. The games and the backlog are tables
 * from id to record; the preferences collection is the list of documents
 * it holds. `find(query).to_list(limit)` is a cursor drained into a list.
 */
module Database {
  import opened Wrappers
  import opened Models

  /** Mongo's `to_list(1000)`: the most documents one listing returns. */
  const ListLimit: nat := 1000

  class Database {
    var games: map<string, Game>
    var backlog: map<string, BacklogItem>
    var preferences: seq<Preferences>

    /**
     * Every record is stored under its own id, and there is at most one
     * preferences document (it is only inserted when none is found).
     */
    ghost predicate Valid()
      reads this
    {
      (forall id :: id in games ==> games[id].id == id) &&
      (forall id :: id in backlog ==> backlog[id].id == id) &&
      |preferences| <= 1
    }

    /** A fresh database with empty collections. */
    constructor ()
      ensures Valid()
      ensures games == map[] && backlog == map[] && preferences == []
    {
      games := map[];
      backlog := map[];
      preferences := [];
    }
  }

  /**
   * One entry of a Mongo filter document: `{field: value}` is an exact
   * match; `{"$or": [{f: {"$regex": p, "$options": "i"}}, ...]}` asks that
   * one of the fields `f` match the pattern `p`.
   */
  datatype Clause = Equals(value: string) | AnyMatches(fields: seq<string>, pattern: string)

  /** A filter document: each key holds one clause. */
  type Query = map<string, Clause>

  /**
   * Whether a record, read through `field`, satisfies the clause stored
   * under `key`. `regex(pattern, text)` stands for Mongo's case-insensitive
   * regular-expression match.
   */
  predicate ClauseHolds(key: string, c: Clause, field: string -> Option<string>, regex: (string, string) -> bool)
  {
    match c
    case Equals(v) => field(key) == Some(v)
    case AnyMatches(fields, pattern) =>
      exists i :: 0 <= i < |fields| && field(fields[i]).Some? && regex(pattern, field(fields[i]).value)
  }

  /** A record satisfies a filter document when it satisfies every clause; `{}` accepts everything. */
  predicate Satisfies(q: Query, field: string -> Option<string>, regex: (string, string) -> bool)
  {
    forall key :: key in q ==> ClauseHolds(key, q[key], field, regex)
  }

  /**
   * What `collection.find(filter).to_list(limit)` returns, by id: at most
   * `limit` matching records, each once, in an order the store chooses; when
   * fewer than `limit` come back, every matching record is among them.
   */
  ghost predicate IsListing<T>(table: map<string, T>, matches: T -> bool, limit: nat, ids: seq<string>)
  {
    |ids| <= limit &&
    (forall i :: 0 <= i < |ids| ==> ids[i] in table && matches(table[ids[i]])) &&
    (forall i, j :: 0 <= i < j < |ids| ==> ids[i] != ids[j]) &&
    (|ids| < limit ==> forall id :: id in table && matches(table[id]) ==> id in ids)
  }

  /** `find(filter).to_list(limit)`: drain the cursor until it is empty or the limit is reached. */
  method FindIds<T>(table: map<string, T>, matches: T -> bool, limit: nat) returns (ids: seq<string>)
    ensures IsListing(table, matches, limit, ids)
  {
    var pending := set id | id in table && matches(table[id]);
    ids := [];
    while pending != {} && |ids| < limit
      invariant |ids| <= limit
      invariant forall id :: id in pending ==> id in table && matches(table[id])
      invariant forall i :: 0 <= i < |ids| ==> ids[i] in table && matches(table[ids[i]])
      invariant forall i :: 0 <= i < |ids| ==> ids[i] !in pending
      invariant forall i, j :: 0 <= i < j < |ids| ==> ids[i] != ids[j]
      invariant forall id :: id in table && matches(table[id]) ==> id in pending || id in ids
      decreases |pending|
    {
      var id :| id in pending;
      ids := ids + [id];
      pending := pending - {id};
    }
  }

  /** A sequence without repetitions has as many distinct elements as positions. */
  lemma {:induction false} DistinctElements<T>(s: seq<T>)
    requires forall i, j :: 0 <= i < j < |s| ==> s[i] != s[j]
    ensures |set x | x in s| == |s|
  {
    if s != [] {
      var t := s[..|s| - 1];
      DistinctElements(t);
      assert (set x | x in s) == (set x | x in t) + {s[|s| - 1]};
      assert forall i :: 0 <= i < |t| ==> t[i] != s[|s| - 1];
      assert s[|s| - 1] !in (set x | x in t);
    }
  }

  /** A listing of a table smaller than the limit holds every matching record. */
  lemma ListingOfSmallTable<T>(table: map<string, T>, matches: T -> bool, limit: nat, ids: seq<string>)
    requires IsListing(table, matches, limit, ids)
    requires |table| < limit
    ensures forall id :: id in table && matches(table[id]) ==> id in ids
  {
    DistinctElements(ids);
    var listed := set x | x in ids;
    SubsetSize(listed, table.Keys);
  }

  /** A subset is no larger than its superset. */
  lemma {:induction false} SubsetSize<T>(a: set<T>, b: set<T>)
    requires a <= b
    ensures |a| <= |b|
  {
    if a != {} {
      var x :| x in a;
      SubsetSize(a - {x}, b - {x});
    }
  }

  /** The records a list of ids names, in that order. */
  function Lookup<T>(table: map<string, T>, ids: seq<string>): (r: seq<T>)
    requires forall i :: 0 <= i < |ids| ==> ids[i] in table
    ensures |r| == |ids|
    ensures forall i :: 0 <= i < |ids| ==> r[i] == table[ids[i]]
  {
    seq(|ids|, i requires 0 <= i < |ids| => table[ids[i]])
  }
}
