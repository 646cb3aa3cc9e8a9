/** Grouping of configuration items into per-category buckets. */
module Buckets {
  import opened ConfigItems

  /** The items of `items` whose category is `category`, in their input order
      (the stable filter that the bucketing loop is specified by). */
  function Filter(items: seq<Item>, category: string): (r: seq<Item>)
    ensures |r| <= |items|
    ensures forall k :: 0 <= k < |r| ==> r[k].category == category
  {
    if items == [] then []
    else
      var last := items[|items| - 1];
      Filter(items[..|items| - 1], category) + (if last.category == category then [last] else [])
  }

  /** The bucket of a category; a category that was never inserted has the
      empty bucket, as a missing key of a Go map yields a nil slice. */
  function Bucket(categorized: map<string, seq<Item>>, category: string): (b: seq<Item>)
    ensures category in categorized ==> b == categorized[category]
    ensures category !in categorized ==> b == []
  {
    if category in categorized then categorized[category] else []
  }

  /** The loop of printConfigDoc that appends each item to its category's bucket. */
  method Categorize(items: seq<Item>) returns (categorized: map<string, seq<Item>>)
    ensures forall c :: Bucket(categorized, c) == Filter(items, c)
    ensures forall c :: c in categorized <==> Filter(items, c) != []
  {
    categorized := map[];
    for i := 0 to |items|
      invariant forall c :: Bucket(categorized, c) == Filter(items[..i], c)
      invariant forall c :: c in categorized <==> Filter(items[..i], c) != []
    {
      var item := items[i];
      ghost var before := categorized;
      categorized := categorized[item.category := Bucket(categorized, item.category) + [item]];
      assert items[..i + 1][..i] == items[..i];
      forall c ensures Bucket(categorized, c) == Filter(items[..i + 1], c) {
        if c != item.category {
          assert Bucket(categorized, c) == Bucket(before, c);
        }
      }
    }
    assert items[..|items|] == items;
  }

  lemma {:induction false} FilterAppend(a: seq<Item>, b: seq<Item>, category: string)
    ensures Filter(a + b, category) == Filter(a, category) + Filter(b, category)
  {
    if b != [] {
      var b' := b[..|b| - 1];
      assert (a + b)[..|a + b| - 1] == a + b';
      FilterAppend(a, b', category);
    } else {
      assert a + b == a;
    }
  }

  /** An item is in a bucket exactly when it is in the input with that category. */
  lemma {:induction false} FilterMembers(items: seq<Item>, category: string, x: Item)
    ensures x in Filter(items, category) <==> x in items && x.category == category
  {
    if items != [] {
      var init := items[..|items| - 1];
      FilterMembers(init, category, x);
      assert items == init + [items[|items| - 1]];
    }
  }

  /** Each item of a category lands in its bucket right after the bucket of
      the items before it: the bucket is a stable filter of the input. */
  lemma {:induction false} FilterPosition(items: seq<Item>, i: nat)
    requires i < |items|
    ensures Filter(items, items[i].category) ==
      Filter(items[..i], items[i].category) + [items[i]] + Filter(items[i + 1..], items[i].category)
  {
    var c := items[i].category;
    var pre, x, post := items[..i], items[i], items[i + 1..];
    assert items == (pre + [x]) + post;
    FilterAppend(pre + [x], post, c);
    FilterAppend(pre, [x], c);
    FilterSingle(x, c);
  }

  lemma FilterSingle(x: Item, category: string)
    ensures Filter([x], category) == if x.category == category then [x] else []
  {
    assert [x][..0] == [];
  }

  /** Two items of one category keep their relative order in the bucket. */
  lemma {:induction false} FilterKeepsOrder(items: seq<Item>, i: nat, j: nat)
    requires i < j < |items|
    requires items[i].category == items[j].category
    ensures |Filter(items[..i], items[i].category)| < |Filter(items[..j], items[j].category)|
  {
    var c := items[i].category;
    assert items[..j] == items[..i] + [items[i]] + items[i + 1..j];
    FilterAppend(items[..i] + [items[i]], items[i + 1..j], c);
    FilterAppend(items[..i], [items[i]], c);
    FilterSingle(items[i], c);
  }

  /** An item of another category leaves a bucket as it is. */
  lemma FilterSkips(a: seq<Item>, x: Item, b: seq<Item>, c: string)
    requires x.category != c
    ensures Filter(a + [x] + b, c) == Filter(a + b, c)
  {
    FilterAppend(a + [x], b, c);
    FilterAppend(a, [x], c);
    FilterSingle(x, c);
    FilterAppend(a, b, c);
  }
}
