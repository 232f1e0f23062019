/**
 * The timeline page: games grouped by platform, optionally narrowed to one
 * platform, each section sorted in place from the most recent anchor date
 * to the oldest, each entry labelled with the kind of its anchor date.
 */
module Timeline {
  import opened Wrappers
  import opened Sequences
  import opened Text
  import opened Grouping
  import opened Models
  import Api

  /** `completionDate || startDate || releaseDate`: empty dates fall through. */
  function Anchor(g: Game): string
  {
    OrElse(OrElse(g.info.completionDate, g.info.startDate), Some(g.info.releaseDate)).value
  }

  /**
   * The label shown beside the date. It names the field the anchor date
   * comes from, under the same fallback.
   */
  function Label(g: Game): (r: string)
    ensures r == "Completed" <==> Truthy(g.info.completionDate)
    ensures r == "Completed" ==> Anchor(g) == g.info.completionDate.value
    ensures r == "Started" <==> !Truthy(g.info.completionDate) && Truthy(g.info.startDate)
    ensures r == "Started" ==> Anchor(g) == g.info.startDate.value
    ensures r == "Released" <==> !Truthy(g.info.completionDate) && !Truthy(g.info.startDate)
    ensures r == "Released" ==> Anchor(g) == g.info.releaseDate
  {
    if Truthy(g.info.completionDate) then "Completed"
    else if Truthy(g.info.startDate) then "Started"
    else "Released"
  }

  /** Most recent first: no game is dated strictly before a game that follows it. */
  predicate SortedByAnchor(s: seq<Game>)
  {
    forall i, j :: 0 <= i < j < |s| ==> !Before(Anchor(s[i]), Anchor(s[j]))
  }

  /**
   * Inserts `x` into a section sorted most recent first, after every game
   * dated the same as `x` or later: the step a stable insertion sort takes.
   */
  function Insert(t: seq<Game>, x: Game): (r: seq<Game>)
    ensures |r| == |t| + 1
  {
    if t == [] then [x]
    else if Before(Anchor(t[|t| - 1]), Anchor(x)) then Insert(t[..|t| - 1], x) + [t[|t| - 1]]
    else t + [x]
  }

  /** The section sorted most recent first, equal dates keeping their order. */
  function SortByAnchor(s: seq<Game>): (r: seq<Game>)
    ensures |r| == |s|
  {
    if s == [] then [] else Insert(SortByAnchor(s[..|s| - 1]), s[|s| - 1])
  }

  /** Insertion adds exactly `x` and nothing else. */
  lemma {:induction false} InsertPermutes(t: seq<Game>, x: Game)
    ensures multiset(Insert(t, x)) == multiset(t) + multiset{x}
  {
    if t != [] {
      var init, last := t[..|t| - 1], t[|t| - 1];
      assert t == init + [last];
      if Before(Anchor(last), Anchor(x)) {
        InsertPermutes(init, x);
      }
    }
  }

  /** A game dated no later than every game of a sorted section can follow it. */
  lemma SortedSnoc(u: seq<Game>, y: Game)
    requires SortedByAnchor(u)
    requires forall i :: 0 <= i < |u| ==> !Before(Anchor(u[i]), Anchor(y))
    ensures SortedByAnchor(u + [y])
  {
    var v := u + [y];
    forall i, j | 0 <= i < j < |v|
      ensures !Before(Anchor(v[i]), Anchor(v[j]))
    {
      assert v[i] == u[i];
    }
  }

  /**
   * When no game of `init` is dated before `last` and `x` is dated after it,
   * no game of `init` with `x` inserted is dated before `last` either.
   */
  lemma InsertKeepsBound(init: seq<Game>, x: Game, last: Game)
    requires forall k :: 0 <= k < |init| ==> !Before(Anchor(init[k]), Anchor(last))
    requires Before(Anchor(last), Anchor(x))
    ensures forall i :: 0 <= i < |Insert(init, x)| ==> !Before(Anchor(Insert(init, x)[i]), Anchor(last))
  {
    InsertPermutes(init, x);
    var u := Insert(init, x);
    forall i | 0 <= i < |u|
      ensures !Before(Anchor(u[i]), Anchor(last))
    {
      var y := u[i];
      assert y in multiset(u);
      if y == x {
        if Before(Anchor(x), Anchor(last)) {
          BeforeTransitive(Anchor(x), Anchor(last), Anchor(x));
          BeforeIrreflexive(Anchor(x));
        }
      } else {
        assert y in multiset(init);
        var k :| 0 <= k < |init| && init[k] == y;
      }
    }
  }

  /** Insertion keeps a section sorted. */
  lemma {:induction false} InsertSorted(t: seq<Game>, x: Game)
    requires SortedByAnchor(t)
    ensures SortedByAnchor(Insert(t, x))
  {
    if t != [] {
      var init, last := t[..|t| - 1], t[|t| - 1];
      assert forall i :: 0 <= i < |init| ==> init[i] == t[i];
      if Before(Anchor(last), Anchor(x)) {
        InsertSorted(init, x);
        InsertKeepsBound(init, x, last);
        var u := Insert(init, x);
        SortedSnoc(u, last);
      } else {
        assert t == init + [last];
        forall i | 0 <= i < |t|
          ensures !Before(Anchor(t[i]), Anchor(x))
        {
          if i < |t| - 1 {
            NotBeforeTransitive(Anchor(t[i]), Anchor(last), Anchor(x));
          }
        }
        SortedSnoc(t, x);
      }
    }
  }

  /** The sorted section is a permutation of the section. */
  lemma {:induction false} SortByAnchorPermutes(s: seq<Game>)
    ensures multiset(SortByAnchor(s)) == multiset(s)
  {
    if s != [] {
      SortByAnchorPermutes(s[..|s| - 1]);
      InsertPermutes(SortByAnchor(s[..|s| - 1]), s[|s| - 1]);
      assert s == s[..|s| - 1] + [s[|s| - 1]];
    }
  }

  /** The sorted section is a permutation of the section, in descending date order. */
  lemma {:induction false} SortByAnchorCorrect(s: seq<Game>)
    ensures multiset(SortByAnchor(s)) == multiset(s)
    ensures SortedByAnchor(SortByAnchor(s))
  {
    SortByAnchorPermutes(s);
    if s != [] {
      SortByAnchorCorrect(s[..|s| - 1]);
      InsertSorted(SortByAnchor(s[..|s| - 1]), s[|s| - 1]);
    }
  }

  /** The games dated `d`. */
  function DatedOn(d: string): Game -> bool
  {
    g => Anchor(g) == d
  }

  /** Insertion puts `x` after every game of the same date. */
  lemma {:induction false} InsertStable(t: seq<Game>, x: Game, d: string)
    ensures Filter(Insert(t, x), DatedOn(d)) == Filter(t, DatedOn(d)) + Filter([x], DatedOn(d))
  {
    var p := DatedOn(d);
    FilterSnoc([], x, p);
    assert [] + [x] == [x];
    var sx := Filter([x], p);
    if t == [] {
      assert Insert(t, x) == [x];
    } else {
      var init, last := t[..|t| - 1], t[|t| - 1];
      assert t == init + [last];
      FilterSnoc(init, last, p);
      var sl: seq<Game> := if p(last) then [last] else [];
      assert Filter(t, p) == Filter(init, p) + sl;
      if Before(Anchor(last), Anchor(x)) {
        BeforeIrreflexive(Anchor(x));
        assert sx == [] || sl == [];
        var u := Insert(init, x);
        assert Insert(t, x) == u + [last];
        InsertStable(init, x, d);
        FilterSnoc(u, last, p);
        assert Filter(u + [last], p) == Filter(init, p) + sx + sl;
      } else {
        assert Insert(t, x) == t + [x];
        FilterSnoc(t, x, p);
      }
    }
  }

  /** Stability: the games of any one date appear in the same relative order as before. */
  lemma {:induction false} SortByAnchorStable(s: seq<Game>, d: string)
    ensures Filter(SortByAnchor(s), DatedOn(d)) == Filter(s, DatedOn(d))
  {
    if s != [] {
      var init, last := s[..|s| - 1], s[|s| - 1];
      SortByAnchorStable(init, d);
      InsertStable(SortByAnchor(init), last, d);
      assert s == init + [last];
      FilterSnoc(init, last, DatedOn(d));
      FilterSnoc([], last, DatedOn(d));
    }
  }

  /**
   * Insertion stops right after the last game dated no earlier than `x`:
   * when every game from position `j` on is dated earlier than `x` and the
   * one before `j` is not, `x` lands at `j`.
   */
  lemma {:induction false} InsertLandsAt(t: seq<Game>, j: int, x: Game)
    requires 0 <= j <= |t|
    requires forall k :: j <= k < |t| ==> Before(Anchor(t[k]), Anchor(x))
    requires j == 0 || !Before(Anchor(t[j - 1]), Anchor(x))
    ensures Insert(t, x) == t[..j] + [x] + t[j..]
    decreases |t|
  {
    if j == |t| {
      assert t[..j] == t && t[j..] == [];
    } else {
      var init, last := t[..|t| - 1], t[|t| - 1];
      assert forall k :: j <= k < |init| ==> init[k] == t[k];
      assert j > 0 ==> init[j - 1] == t[j - 1];
      InsertLandsAt(init, j, x);
      assert init[..j] == t[..j];
      assert init[j..] + [last] == t[j..];
    }
  }

  /**
   * Shifts the games before `a[i]` that are dated earlier than it one place
   * right, and returns the position left free for it.
   */
  method ShiftEarlier(a: array<Game>, i: int) returns (j: int)
    requires 0 <= i < a.Length
    modifies a
    ensures 0 <= j <= i
    ensures forall k :: 0 <= k < j ==> a[k] == old(a[k])
    ensures forall k :: j < k <= i ==> a[k] == old(a[k - 1])
    ensures forall k :: i < k < a.Length ==> a[k] == old(a[k])
    ensures forall k :: j <= k < i ==> Before(Anchor(old(a[k])), Anchor(old(a[i])))
    ensures j == 0 || !Before(Anchor(old(a[j - 1])), Anchor(old(a[i])))
  {
    var x := a[i];
    j := i;
    while j > 0 && Before(Anchor(a[j - 1]), Anchor(x))
      invariant 0 <= j <= i
      invariant forall k :: 0 <= k < j ==> a[k] == old(a[k])
      invariant forall k :: j < k <= i ==> a[k] == old(a[k - 1])
      invariant forall k :: i < k < a.Length ==> a[k] == old(a[k])
      invariant forall k :: j <= k < i ==> Before(Anchor(old(a[k])), Anchor(x))
    {
      a[j] := a[j - 1];
      j := j - 1;
    }
  }

  /**
   * Moves `a[i]` left past the earlier-dated games before it, into the
   * sorted prefix `a[..i]`.
   */
  method InsertAt(a: array<Game>, i: int)
    requires 0 <= i < a.Length
    modifies a
    ensures a[..i + 1] == Insert(old(a[..i]), old(a[i]))
    ensures a[i + 1..] == old(a[i + 1..])
  {
    ghost var t := a[..i];
    var x := a[i];
    var j := ShiftEarlier(a, i);
    a[j] := x;
    InsertLandsAt(t, j, x);
    ShiftedBy(a[..i + 1], t, j, x);
  }

  /** A sequence that holds `t` with `x` put at position `j` is `t[..j] + [x] + t[j..]`. */
  lemma ShiftedBy(v: seq<Game>, t: seq<Game>, j: int, x: Game)
    requires |v| == |t| + 1 && 0 <= j <= |t|
    requires forall k :: 0 <= k < j ==> v[k] == t[k]
    requires v[j] == x
    requires forall k :: j < k < |v| ==> v[k] == t[k - 1]
    ensures v == t[..j] + [x] + t[j..]
  {
    var r := t[..j] + [x] + t[j..];
    forall k | 0 <= k < |v|
      ensures v[k] == r[k]
    {
      if k < j {
        assert r[k] == t[k];
      } else if k > j {
        assert r[k] == t[k - 1];
      }
    }
  }

  /**
   * The section sort (`games.sort((a, b) => dateB - dateA)`), as a stable
   * insertion sort in place: afterwards the array holds `SortByAnchor` of
   * what it held before.
   */
  method SortSection(a: array<Game>)
    modifies a
    ensures a[..] == SortByAnchor(old(a[..]))
  {
    ghost var s := a[..];
    var i := 0;
    while i < a.Length
      invariant 0 <= i <= a.Length
      invariant a[..i] == SortByAnchor(s[..i])
      invariant a[i..] == s[i..]
    {
      InsertAt(a, i);
      assert s[..i + 1][..i] == s[..i];
      i := i + 1;
    }
    assert s[..a.Length] == s;
  }

  /** The bucket predicate "its platform is `p`". */
  function SectionIs(p: string): Bucket<Game> -> bool
  {
    (b: Bucket<Game>) => b.key == p
  }

  /**
   * The platform dropdown: `"All"` keeps every section, any other value
   * only the sections of that platform.
   */
  function SelectSections(sections: seq<Bucket<Game>>, selected: string): (r: seq<Bucket<Game>>)
    ensures selected == "All" ==> r == sections
    ensures selected != "All" ==> forall b :: b in r <==> b in sections && b.key == selected
  {
    FilterMembers(sections, SectionIs(selected));
    if selected == "All" then sections else Filter(sections, SectionIs(selected))
  }

  /**
   * Over the service grouping, a platform choice keeps at most one section,
   * and keeps one exactly when some game is on that platform; the "No games
   * found for the selected platform" notice appears otherwise.
   */
  lemma SelectedPlatformSection(games: seq<Game>, selected: string)
    requires selected != "All"
    ensures |SelectSections(Api.GamesByPlatform(games), selected)| <= 1
    ensures SelectSections(Api.GamesByPlatform(games), selected) == [] <==>
      forall g :: g in games ==> g.info.platform != selected
  {
    AtMostOneWithKey(Api.GamesByPlatform(games), selected);
    if g :| g in games && g.info.platform == selected {
      PlatformPresentSelected(games, g);
    }
    if SelectSections(Api.GamesByPlatform(games), selected) != [] {
      SelectedPlatformPresent(games, selected);
    }
  }

  /** A game's platform always has its section to select. */
  lemma PlatformPresentSelected(games: seq<Game>, g: Game)
    requires g in games && g.info.platform != "All"
    ensures SelectSections(Api.GamesByPlatform(games), g.info.platform) != []
  {
    var sections := Api.GamesByPlatform(games);
    assert sections == GroupByKeys(games, PlatformOf, DistinctKeys(games, PlatformOf));
    var i := KeyIndex(games, PlatformOf, g);
    FilterMembers(sections, SectionIs(g.info.platform));
    assert sections[i] in Filter(sections, SectionIs(g.info.platform));
  }

  /** A selected section comes from a game on that platform. */
  lemma SelectedPlatformPresent(games: seq<Game>, selected: string)
    requires selected != "All"
    requires SelectSections(Api.GamesByPlatform(games), selected) != []
    ensures exists g :: g in games && g.info.platform == selected
  {
    var sections := Api.GamesByPlatform(games);
    var ks := DistinctKeys(games, PlatformOf);
    assert sections == GroupByKeys(games, PlatformOf, ks);
    var r := Filter(sections, SectionIs(selected));
    FilterMembers(sections, SectionIs(selected));
    assert r[0] in r;
    var i :| 0 <= i < |sections| && sections[i] == r[0];
    assert ks[i] == selected && ks[i] in ks;
    var a :| 0 <= a < |games| && PlatformOf(games[a]) == selected;
    assert games[a] in games;
  }

  /** Among buckets with distinct keys, at most one has a given key. */
  lemma {:induction false} AtMostOneWithKey(sections: seq<Bucket<Game>>, k: string)
    requires Distinct(Keys(sections))
    ensures |Filter(sections, SectionIs(k))| <= 1
  {
    if sections != [] {
      var rest := sections[1..];
      assert forall i :: 0 <= i < |rest| ==> Keys(rest)[i] == Keys(sections)[i + 1];
      AtMostOneWithKey(rest, k);
      if sections[0].key == k {
        forall b | b in rest
          ensures !SectionIs(k)(b)
        {
          var j :| 0 <= j < |rest| && rest[j] == b;
          assert Keys(sections)[0] != Keys(sections)[j + 1];
        }
        NoneSelected(rest, SectionIs(k));
      }
    }
  }

  lemma {:induction false} NoneSelected<T>(s: seq<T>, p: T -> bool)
    requires forall x :: x in s ==> !p(x)
    ensures Filter(s, p) == []
    decreases |s|
  {
    if s != [] {
      assert s[0] in s;
      NoneSelected(s[1..], p);
    }
  }

  /** Copies a section's games into a fresh array and sorts them there. */
  method SortedCopy(items: seq<Game>) returns (sorted: seq<Game>)
    ensures sorted == SortByAnchor(items)
  {
    var a := new Game[|items|](i requires 0 <= i < |items| => items[i]);
    assert a[..] == items;
    SortSection(a);
    sorted := a[..];
  }

  /** Sorts the games of every section, keeping the sections and their order. */
  method SortSections(sections: seq<Bucket<Game>>) returns (view: seq<Bucket<Game>>)
    ensures |view| == |sections|
    ensures forall i :: 0 <= i < |view| ==>
      view[i].key == sections[i].key && view[i].items == SortByAnchor(sections[i].items)
  {
    view := [];
    var k := 0;
    while k < |sections|
      invariant 0 <= k <= |sections| && |view| == k
      invariant forall i :: 0 <= i < k ==>
        view[i].key == sections[i].key && view[i].items == SortByAnchor(sections[i].items)
    {
      var sorted := SortedCopy(sections[k].items);
      view := view + [Bucket(sections[k].key, sorted)];
      k := k + 1;
    }
  }

  /**
   * The page: the service grouping, narrowed by the dropdown, each shown
   * section's games sorted.
   */
  method RenderTimeline(games: seq<Game>, selected: string) returns (view: seq<Bucket<Game>>)
    ensures var shown := SelectSections(Api.GamesByPlatform(games), selected);
      |view| == |shown| &&
      forall i :: 0 <= i < |view| ==>
        view[i].key == shown[i].key && view[i].items == SortByAnchor(shown[i].items)
  {
    var shown := SelectSections(Api.GamesByPlatform(games), selected);
    view := SortSections(shown);
  }
}
