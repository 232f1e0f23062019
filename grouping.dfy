/**
 * Grouping a collection into keyed buckets. Two groupings occur in the
 * program: one over a fixed list of keys (a bucket per key, possibly
 * empty), and one over the distinct keys present in the data, in order of
 * first appearance (`[...new Set(items.map(key))]`).
 */
module Grouping {
  import opened Sequences

  /** One named bucket: `{ platform, games }` or a category section. */
  datatype Bucket<T> = Bucket(key: string, items: seq<T>)

  /** The element predicate "its key equals `k`". */
  function KeyIs<T>(key: T -> string, k: string): T -> bool
  {
    x => key(x) == k
  }

  /** `keys.map(k => ({ key: k, items: s.filter(x => key(x) === k) }))`. */
  function GroupByKeys<T>(s: seq<T>, key: T -> string, keys: seq<string>): seq<Bucket<T>>
  {
    seq(|keys|, i requires 0 <= i < |keys| => Bucket(keys[i], Filter(s, KeyIs(key, keys[i]))))
  }

  /** The keys of a list of buckets, in order. */
  function Keys<T>(b: seq<Bucket<T>>): (r: seq<string>)
    ensures |r| == |b| && forall i :: 0 <= i < |b| ==> r[i] == b[i].key
  {
    seq(|b|, i requires 0 <= i < |b| => b[i].key)
  }

  /** No key occurs twice. */
  ghost predicate Distinct(ks: seq<string>)
  {
    forall i, j :: 0 <= i < j < |ks| ==> ks[i] != ks[j]
  }

  /** Index of the first element whose key is `k`, or `|s|` when there is none. */
  function FirstAt<T>(s: seq<T>, key: T -> string, k: string): (n: nat)
    ensures n <= |s|
    ensures forall a :: 0 <= a < n ==> key(s[a]) != k
    ensures n < |s| ==> key(s[n]) == k
  {
    if s == [] then 0 else if key(s[0]) == k then 0 else 1 + FirstAt(s[1..], key, k)
  }

  /**
   * The keys present in `s`, each once, in order of first appearance: the
   * iteration order of a JavaScript `Set` filled from `s.map(key)`.
   */
  function DistinctKeys<T>(s: seq<T>, key: T -> string): (r: seq<string>)
    ensures Distinct(r)
    ensures forall a :: 0 <= a < |s| ==> key(s[a]) in r
    ensures forall k :: k in r ==> exists a :: 0 <= a < |s| && key(s[a]) == k
    decreases |s|
  {
    if s == [] then []
    else
      var ks := DistinctKeys(s[..|s| - 1], key);
      var k := key(s[|s| - 1]);
      if k in ks then ks else ks + [k]
  }

  /**
   * Grouping by the keys that occur: the bucket at position `i` is the
   * non-empty, input-ordered run of the elements with its key.
   */
  lemma PresentKeyBucket<T>(s: seq<T>, key: T -> string, i: nat)
    requires i < |DistinctKeys(s, key)|
    ensures var b := GroupByKeys(s, key, DistinctKeys(s, key))[i];
      b.key == DistinctKeys(s, key)[i] && b.items != [] && IsSubsequence(b.items, s) &&
      forall x :: x in b.items <==> x in s && key(x) == b.key
  {
    var ks := DistinctKeys(s, key);
    BucketContents(s, key, ks, i);
    assert ks[i] in ks;
    var a :| 0 <= a < |s| && key(s[a]) == ks[i];
    assert s[a] in GroupByKeys(s, key, ks)[i].items;
  }

  /** The position of an element's key among the keys that occur. */
  lemma KeyIndex<T>(s: seq<T>, key: T -> string, x: T) returns (i: nat)
    requires x in s
    ensures i < |DistinctKeys(s, key)| && DistinctKeys(s, key)[i] == key(x)
  {
    var ks := DistinctKeys(s, key);
    var a :| 0 <= a < |s| && s[a] == x;
    assert key(s[a]) in ks;
    i :| 0 <= i < |ks| && ks[i] == key(x);
  }

  /** Total number of elements over all buckets. */
  function SumSizes<T>(b: seq<Bucket<T>>): nat
  {
    if b == [] then 0 else |b[0].items| + SumSizes(b[1..])
  }

  /** The bucket for key `k` holds exactly the elements with that key, in input order. */
  lemma BucketContents<T>(s: seq<T>, key: T -> string, keys: seq<string>, i: nat)
    requires i < |keys|
    ensures GroupByKeys(s, key, keys)[i].key == keys[i]
    ensures IsSubsequence(GroupByKeys(s, key, keys)[i].items, s)
    ensures forall x :: x in GroupByKeys(s, key, keys)[i].items <==> x in s && key(x) == keys[i]
  {
    FilterIsSubsequence(s, KeyIs(key, keys[i]));
    FilterMembers(s, KeyIs(key, keys[i]));
  }

  /** The bucket at position `i` holds every occurrence of each element with its key, and nothing else. */
  lemma BucketMultiplicity<T>(s: seq<T>, key: T -> string, keys: seq<string>, i: nat)
    requires i < |keys|
    ensures forall x :: multiset(GroupByKeys(s, key, keys)[i].items)[x] ==
                        (if key(x) == keys[i] then multiset(s)[x] else 0)
  {
    FilterMultiplicity(s, KeyIs(key, keys[i]));
  }

  /**
   * An element of `s` lies in bucket `j` iff that bucket's key is its key;
   * with distinct keys, it therefore lies in exactly one bucket when its key
   * is listed and in none otherwise.
   */
  lemma {:induction false} GroupByKeysPlacement<T>(s: seq<T>, key: T -> string, keys: seq<string>, x: T)
    requires x in s
    ensures forall j :: 0 <= j < |keys| ==>
      (x in GroupByKeys(s, key, keys)[j].items <==> keys[j] == key(x))
    ensures key(x) !in keys ==> forall j :: 0 <= j < |keys| ==> x !in GroupByKeys(s, key, keys)[j].items
    ensures Distinct(keys) && key(x) in keys ==>
      exists j :: 0 <= j < |keys| && x in GroupByKeys(s, key, keys)[j].items &&
        forall j' :: 0 <= j' < |keys| && x in GroupByKeys(s, key, keys)[j'].items ==> j' == j
  {
    var g := GroupByKeys(s, key, keys);
    forall j | 0 <= j < |keys|
      ensures x in g[j].items <==> keys[j] == key(x)
    {
      BucketContents(s, key, keys, j);
    }
    if Distinct(keys) && key(x) in keys {
      var j :| 0 <= j < |keys| && keys[j] == key(x);
      assert x in g[j].items;
    }
  }

  /** Splitting the key list at its first key. */
  lemma GroupByKeysCons<T>(s: seq<T>, key: T -> string, keys: seq<string>)
    requires keys != []
    ensures GroupByKeys(s, key, keys) ==
      [Bucket(keys[0], Filter(s, KeyIs(key, keys[0])))] + GroupByKeys(s, key, keys[1..])
  {
  }

  /** Adding a key adds its bucket's size to the total. */
  lemma {:induction false} SumSizesSnocKey<T>(s: seq<T>, key: T -> string, keys: seq<string>, k: string)
    ensures SumSizes(GroupByKeys(s, key, keys + [k])) ==
      SumSizes(GroupByKeys(s, key, keys)) + |Filter(s, KeyIs(key, k))|
    decreases |keys|
  {
    if keys == [] {
      assert GroupByKeys(s, key, [k]) == [Bucket(k, Filter(s, KeyIs(key, k)))];
    } else {
      GroupByKeysCons(s, key, keys + [k]);
      GroupByKeysCons(s, key, keys);
      assert (keys + [k])[1..] == keys[1..] + [k];
      SumSizesSnocKey(s, key, keys[1..], k);
    }
  }

  /** Adding an element to the data adds one to the total iff its key is listed once. */
  lemma {:induction false} SumSizesSnocItem<T>(s: seq<T>, x: T, key: T -> string, keys: seq<string>)
    requires Distinct(keys)
    ensures SumSizes(GroupByKeys(s + [x], key, keys)) ==
      SumSizes(GroupByKeys(s, key, keys)) + (if key(x) in keys then 1 else 0)
    decreases |keys|
  {
    if keys != [] {
      GroupByKeysCons(s + [x], key, keys);
      GroupByKeysCons(s, key, keys);
      SumSizesSnocItem(s, x, key, keys[1..]);
      FilterSnoc(s, x, KeyIs(key, keys[0]));
      assert key(x) in keys <==> key(x) == keys[0] || key(x) in keys[1..];
      assert key(x) == keys[0] ==> key(x) !in keys[1..];
    }
  }

  /** With the distinct keys of the data, the bucket sizes add up to the data's length. */
  lemma {:induction false} DistinctKeysPartition<T>(s: seq<T>, key: T -> string)
    ensures SumSizes(GroupByKeys(s, key, DistinctKeys(s, key))) == |s|
    decreases |s|
  {
    if s != [] {
      var init, x := s[..|s| - 1], s[|s| - 1];
      assert s == init + [x];
      var ks := DistinctKeys(init, key);
      assert DistinctKeys(s, key) == if key(x) in ks then ks else ks + [key(x)];
      DistinctKeysPartition(init, key);
      SumSizesSnocItem(init, x, key, ks);
      if key(x) !in ks {
        SumSizesSnocKey(s, key, ks, key(x));
        FilterSnoc(init, x, KeyIs(key, key(x)));
        NoneWithKey(init, key, key(x));
      }
    }
  }

  /** A key that is not among the distinct keys selects nothing. */
  lemma NoneWithKey<T>(s: seq<T>, key: T -> string, k: string)
    requires k !in DistinctKeys(s, key)
    ensures Filter(s, KeyIs(key, k)) == []
  {
  }

  /** Looking up where a key first appears, in data extended by one element. */
  lemma {:induction false} FirstAtSnoc<T>(s: seq<T>, x: T, key: T -> string, k: string)
    ensures FirstAt(s + [x], key, k) ==
      if FirstAt(s, key, k) < |s| then FirstAt(s, key, k)
      else if key(x) == k then |s| else |s| + 1
    decreases |s|
  {
    if s != [] {
      assert (s + [x])[1..] == s[1..] + [x];
      FirstAtSnoc(s[1..], x, key, k);
    }
  }

  /** Every distinct key occurs in the data. */
  lemma DistinctKeysOccur<T>(s: seq<T>, key: T -> string, k: string)
    requires k in DistinctKeys(s, key)
    ensures FirstAt(s, key, k) < |s|
  {
    var a :| 0 <= a < |s| && key(s[a]) == k;
  }

  /** The distinct keys come in order of first appearance in the data. */
  lemma {:induction false} DistinctKeysOrder<T>(s: seq<T>, key: T -> string)
    ensures forall i, j :: 0 <= i < j < |DistinctKeys(s, key)| ==>
      FirstAt(s, key, DistinctKeys(s, key)[i]) < FirstAt(s, key, DistinctKeys(s, key)[j])
    decreases |s|
  {
    if s != [] {
      var init, x := s[..|s| - 1], s[|s| - 1];
      assert s == init + [x];
      DistinctKeysOrder(init, key);
      forall i, j | 0 <= i < j < |DistinctKeys(s, key)|
        ensures FirstAt(s, key, DistinctKeys(s, key)[i]) < FirstAt(s, key, DistinctKeys(s, key)[j])
      {
        DistinctKeysOrderSnoc(init, x, key, i, j);
      }
    }
  }

  /** One step of the order proof: two keys of the data extended by one element. */
  lemma DistinctKeysOrderSnoc<T>(init: seq<T>, x: T, key: T -> string, i: int, j: int)
    requires forall a, b :: 0 <= a < b < |DistinctKeys(init, key)| ==>
      FirstAt(init, key, DistinctKeys(init, key)[a]) < FirstAt(init, key, DistinctKeys(init, key)[b])
    requires 0 <= i < j < |DistinctKeys(init + [x], key)|
    ensures FirstAt(init + [x], key, DistinctKeys(init + [x], key)[i]) <
            FirstAt(init + [x], key, DistinctKeys(init + [x], key)[j])
  {
    var s := init + [x];
    assert s[..|s| - 1] == init && s[|s| - 1] == x;
    var ks := DistinctKeys(init, key);
    var r := DistinctKeys(s, key);
    assert r == if key(x) in ks then ks else ks + [key(x)];
    DistinctKeysOccur(init, key, ks[i]);
    FirstAtSnoc(init, x, key, r[i]);
    FirstAtSnoc(init, x, key, r[j]);
    if j < |ks| {
      DistinctKeysOccur(init, key, ks[j]);
    } else {
      assert forall a :: 0 <= a < |init| ==> key(init[a]) in ks;
    }
  }
}
