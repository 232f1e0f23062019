/**
 * The backlog page: a list narrowed by category and priority dropdowns, a
 * tab with one section per category drawn from the whole backlog, and the
 * price hint on each card.
 */
module BacklogPage {
  import opened Sequences
  import opened Grouping
  import opened Rounding
  import opened Models
  import Mock
  import Api

  /** The page's two dropdowns. */
  datatype BacklogViewFilters = BacklogViewFilters(category: string, priority: string)

  /** Both dropdowns start on `"All"`. */
  const InitialBacklogFilters := BacklogViewFilters("All", "All")

  /** An item passes when each dropdown is `"All"` or equals the item's value. */
  predicate KeepsItem(f: BacklogViewFilters, b: BacklogItem)
  {
    (f.category == "All" || b.info.category == f.category) &&
    (f.priority == "All" || b.info.priority == f.priority)
  }

  function KeepsItemUnder(f: BacklogViewFilters): BacklogItem -> bool
  {
    b => KeepsItem(f, b)
  }

  /** `filteredBacklog`: the items passing both dropdowns, in the fetched order. */
  function FilteredBacklog(backlog: seq<BacklogItem>, f: BacklogViewFilters): (r: seq<BacklogItem>)
    ensures IsSubsequence(r, backlog)
    ensures forall b :: b in r <==> b in backlog && KeepsItem(f, b)
    ensures forall b :: multiset(r)[b] == if KeepsItem(f, b) then multiset(backlog)[b] else 0
  {
    FilterIsSubsequence(backlog, KeepsItemUnder(f));
    FilterMembers(backlog, KeepsItemUnder(f));
    FilterMultiplicity(backlog, KeepsItemUnder(f));
    Filter(backlog, KeepsItemUnder(f))
  }

  /** With both dropdowns on `"All"` the list is the whole backlog. */
  lemma InitialBacklogFiltersKeepAll(backlog: seq<BacklogItem>)
    ensures FilteredBacklog(backlog, InitialBacklogFilters) == backlog
  {
    FilterAll(backlog, KeepsItemUnder(InitialBacklogFilters));
  }

  /**
   * The "By Categories" tab: a section per entry of the category list, in
   * that order, each drawn from the whole backlog (the dropdowns play no
   * part) and shown even when empty.
   */
  function CategorySections(backlog: seq<BacklogItem>): (r: seq<Bucket<BacklogItem>>)
    ensures |r| == |Mock.Categories|
    ensures forall i :: 0 <= i < |r| ==>
      r[i].key == Mock.Categories[i] && r[i].items == Api.BacklogByCategory(backlog, Mock.Categories[i])
  {
    GroupByKeys(backlog, CategoryOf, Mock.Categories)
  }

  /**
   * An item whose category is listed lies in exactly one section, the one
   * for its category; an item with any other category lies in none.
   */
  lemma CategorySectionsPlacement(backlog: seq<BacklogItem>, b: BacklogItem)
    requires b in backlog
    ensures b.info.category in Mock.Categories ==>
      exists i :: 0 <= i < |Mock.Categories| && b in CategorySections(backlog)[i].items &&
        Mock.Categories[i] == b.info.category &&
        forall j :: 0 <= j < |Mock.Categories| && j != i ==> b !in CategorySections(backlog)[j].items
    ensures b.info.category !in Mock.Categories ==>
      forall j :: 0 <= j < |Mock.Categories| ==> b !in CategorySections(backlog)[j].items
  {
    assert Distinct(Mock.Categories);
    GroupByKeysPlacement(backlog, CategoryOf, Mock.Categories, b);
  }

  /** The card shows a "wait for a discount" hint only while the price is above the target. */
  predicate HasDiscountHint(b: BacklogItem)
  {
    b.info.currentPrice > b.info.wishlistPrice
  }

  /**
   * The discount to wait for, in percent: the drop from the current price to
   * the target, relative to the current price, rounded half up. It lies
   * between 0 and 100 and is the whole percentage nearest the exact ratio.
   */
  function DiscountPercent(b: BacklogItem): (r: int)
    requires HasDiscountHint(b)
    ensures 0 <= r <= 100
    ensures var c: int, w: int := b.info.currentPrice, b.info.wishlistPrice;
      -c < 2 * (c * r - 100 * (c - w)) <= c
  {
    var c: int, w: int := b.info.currentPrice, b.info.wishlistPrice;
    RoundHalfUpBetween(100 * (c - w), c, 0, 100);
    RoundHalfUp(100 * (c - w), c)
  }

  /** The first sample item, 59.99 against a target of 40.00, asks for a 33% discount. */
  lemma DiscountOfFirstSample()
    ensures HasDiscountHint(Mock.MockBacklog[0]) && DiscountPercent(Mock.MockBacklog[0]) == 33
  {
    assert RoundHalfUp(199900, 5999) == 33;
  }
}
