/**
 * Grouping by key into a plain object, as the resolvers do with a reduce:
 * each key's group is created when the key first appears and then appended to.
 */
module Grouping {

  import opened Seqs


  /** The key of each item, in order. */
  function KeysOf<T>(items: seq<T>, key: T -> string): (ks: seq<string>)
    ensures |ks| == |items|
    ensures forall i :: 0 <= i < |items| ==> ks[i] == key(items[i])
  {
    seq(|items|, i requires 0 <= i < |items| => key(items[i]))
  }

  /** Whether an item has key `k`. */
  function HasKey<T>(key: T -> string, k: string): T -> bool
  {
    (x: T) => key(x) == k
  }

  /** `groups` holds exactly the items of each key, and `order` lists the keys by first appearance. */
  ghost predicate Grouped<T>(items: seq<T>, key: T -> string, order: seq<string>, groups: map<string, seq<T>>)
  {
    && order == Dedupe(KeysOf(items, key))
    && (forall k :: k in groups <==> k in order)
    && (forall k :: k in groups ==> groups[k] == Filter(items, HasKey(key, k)))
  }

  /** A key seen for the first time goes to the end of the key order. */
  lemma GroupOrderStep<T>(items: seq<T>, item: T, key: T -> string, order: seq<string>, order': seq<string>)
    requires order == Dedupe(KeysOf(items, key))
    requires order' == if key(item) in order then order else order + [key(item)]
    ensures order' == Dedupe(KeysOf(items + [item], key))
  {
    KeysOfSnoc(items, item, key);
    DedupeSnoc(KeysOf(items, key), key(item));
  }

  /** Appending the item to its key's group keeps every group exact. */
  lemma GroupContentsStep<T>(items: seq<T>, item: T, key: T -> string, groups: map<string, seq<T>>, groups': map<string, seq<T>>)
    requires forall k :: k in groups ==> groups[k] == Filter(items, HasKey(key, k))
    requires key(item) !in groups ==> Filter(items, HasKey(key, key(item))) == []
    requires groups' == groups[key(item) := (if key(item) in groups then groups[key(item)] else []) + [item]]
    ensures forall k :: k in groups' ==> groups'[k] == Filter(items + [item], HasKey(key, k))
  {
    forall k | k in groups'
      ensures groups'[k] == Filter(items + [item], HasKey(key, k))
    {
      FilterAppend(items, [item], HasKey(key, k));
      FilterOne(item, HasKey(key, k));
    }
  }

  /** The groups and the key order gain the same key. */
  lemma GroupDomainStep<T>(item: T, key: T -> string, order: seq<string>, groups: map<string, seq<T>>,
                           order': seq<string>, groups': map<string, seq<T>>)
    requires forall k :: k in groups <==> k in order
    requires order' == if key(item) in groups then order else order + [key(item)]
    requires groups' == groups[key(item) := (if key(item) in groups then groups[key(item)] else []) + [item]]
    ensures forall k :: k in groups' <==> k in order'
  {
  }

  /** Appending an item to its key's group, creating the group first if needed, keeps the grouping exact. */
  lemma GroupStep<T>(items: seq<T>, item: T, key: T -> string, order: seq<string>, groups: map<string, seq<T>>,
                     order': seq<string>, groups': map<string, seq<T>>)
    requires Grouped(items, key, order, groups)
    requires order' == if key(item) in groups then order else order + [key(item)]
    requires groups' == groups[key(item) := (if key(item) in groups then groups[key(item)] else []) + [item]]
    ensures Grouped(items + [item], key, order', groups')
  {
    GroupOrderStep(items, item, key, order, order');
    if key(item) !in groups {
      NoKeyNoItems(items, key, key(item));
    }
    GroupContentsStep(items, item, key, groups, groups');
    GroupDomainStep(item, key, order, groups, order', groups');
  }

  /**
   * Groups items by key into a plain object, creating a group the first
   * time its key appears and appending to it after. The keys come out in
   * order of first appearance, and each group holds exactly the items with
   * its key, in input order.
   */
  method GroupByKey<T(==)>(items: seq<T>, key: T -> string) returns (order: seq<string>, groups: map<string, seq<T>>)
    ensures order == Dedupe(KeysOf(items, key))
    ensures forall k :: k in groups <==> k in order
    ensures forall k :: k in groups ==> groups[k] == Filter(items, HasKey(key, k))
  {
    order := [];
    groups := map[];
    var i := 0;
    ghost var done: seq<T> := [];
    while i < |items|
      invariant 0 <= i <= |items|
      invariant done == items[..i]
      invariant Grouped(done, key, order, groups)
    {
      var item := items[i];
      var k := key(item);
      var order' := if k in groups then order else order + [k];
      var groups' := groups[k := (if k in groups then groups[k] else []) + [item]];
      GroupStep(done, item, key, order, groups, order', groups');
      TakeOneMore(items, i);
      order, groups := order', groups';
      done := done + [item];
      i := i + 1;
    }
    assert done == items;
  }

  lemma KeysOfSnoc<T>(items: seq<T>, x: T, key: T -> string)
    ensures KeysOf(items + [x], key) == KeysOf(items, key) + [key(x)]
  {
  }

  /** No item has a key that is not among the deduplicated keys. */
  lemma NoKeyNoItems<T>(items: seq<T>, key: T -> string, k: string)
    requires k !in Dedupe(KeysOf(items, key))
    ensures Filter(items, HasKey(key, k)) == []
  {
    forall j | 0 <= j < |items| ensures !HasKey(key, k)(items[j]) {
      assert KeysOf(items, key)[j] == key(items[j]);
    }
    FilterDropsAll(items, HasKey(key, k));
  }

  /** An item occurs in the group of its own key as often as in the input, and in no other group. */
  lemma GroupHoldsItsItems<T>(items: seq<T>, key: T -> string, k: string, x: T)
    ensures multiset(Filter(items, HasKey(key, k)))[x] == if key(x) == k then multiset(items)[x] else 0
  {
    FilterCount(items, HasKey(key, k), x);
  }
}
