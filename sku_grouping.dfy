/** Grouping line items by SKU, as `_.groupBy(items, 'sku')` does in the
    `init` helper (uti/utisli.util.js:42-43): the result is an object keyed by
    SKU whose entries keep the items in input order, its keys in the order in
    which they were first met. */
module SkuGrouping {
  import opened LineItems

  /** An object keyed by SKU: the map of groups and the order of its keys. */
  datatype Grouping = Grouping(keys: seq<string>, groups: map<string, seq<LineItem>>)

  /** One step of the grouping: append to the SKU's group, or open a new one. */
  function Insert(g: Grouping, li: LineItem): Grouping
  {
    if li.sku in g.groups then g.(groups := g.groups[li.sku := g.groups[li.sku] + [li]])
    else Grouping(g.keys + [li.sku], g.groups[li.sku := [li]])
  }

  function GroupBy(items: seq<LineItem>): Grouping
  {
    if |items| == 0 then Grouping([], map[])
    else Insert(GroupBy(items[..|items| - 1]), items[|items| - 1])
  }

  /** The SKUs that occur among `items`. */
  function Skus(items: seq<LineItem>): set<string>
  {
    if |items| == 0 then {}
    else Skus(items[..|items| - 1]) + {items[|items| - 1].sku}
  }

  /** The items with SKU `k`, in input order. */
  function WithSku(items: seq<LineItem>, k: string): seq<LineItem>
  {
    if |items| == 0 then []
    else WithSku(items[..|items| - 1], k)
         + (if items[|items| - 1].sku == k then [items[|items| - 1]] else [])
  }

  lemma {:induction false} SkusAreTheItemSkus(items: seq<LineItem>)
    ensures forall k :: k in Skus(items) <==> exists i :: 0 <= i < |items| && items[i].sku == k
  {
    var n := |items|;
    if n > 0 {
      SkusAreTheItemSkus(items[..n - 1]);
      forall k | k in Skus(items)
        ensures exists i :: 0 <= i < n && items[i].sku == k
      {
        if k in Skus(items[..n - 1]) {
          var i :| 0 <= i < n - 1 && items[..n - 1][i].sku == k;
          assert items[i].sku == k;
        } else {
          assert items[n - 1].sku == k;
        }
      }
      forall k | exists i :: 0 <= i < n && items[i].sku == k
        ensures k in Skus(items)
      {
        var i :| 0 <= i < n && items[i].sku == k;
        if i < n - 1 {
          assert items[..n - 1][i].sku == k;
        }
      }
    }
  }

  /** A SKU has a non-empty list of items exactly when it occurs; every item
      listed carries that SKU. */
  lemma {:induction false} WithSkuNonEmpty(items: seq<LineItem>, k: string)
    ensures |WithSku(items, k)| > 0 <==> k in Skus(items)
    ensures forall j :: 0 <= j < |WithSku(items, k)| ==> WithSku(items, k)[j].sku == k
  {
    if |items| > 0 {
      WithSkuNonEmpty(items[..|items| - 1], k);
    }
  }

  /** The grouping partitions the items by SKU: one group per SKU that occurs
      and no other, each key listed once, and each group holding exactly the
      items with its SKU, in input order. */
  lemma {:induction false} GroupByPartitions(items: seq<LineItem>)
    ensures forall k :: k in GroupBy(items).groups <==> k in Skus(items)
    ensures forall k :: k in GroupBy(items).keys <==> k in GroupBy(items).groups
    ensures forall i, j :: 0 <= i < j < |GroupBy(items).keys| ==>
              GroupBy(items).keys[i] != GroupBy(items).keys[j]
    ensures forall k :: k in GroupBy(items).groups ==>
              GroupBy(items).groups[k] == WithSku(items, k) && |GroupBy(items).groups[k]| > 0
  {
    var n := |items|;
    if n > 0 {
      var prefix, li := items[..n - 1], items[n - 1];
      GroupByPartitions(prefix);
      var g := GroupBy(prefix);
      forall k ensures |WithSku(items, k)| > 0 <==> k in Skus(items) {
        WithSkuNonEmpty(items, k);
      }
      if li.sku !in g.groups {
        WithSkuNonEmpty(prefix, li.sku);
        assert WithSku(prefix, li.sku) == [];
      }
    }
  }

  /** The grouping loop (lodash's `groupBy` over the collected items). */
  method GroupLineItems(items: seq<LineItem>) returns (g: Grouping)
    ensures g == GroupBy(items)
  {
    g := Grouping([], map[]);
    var n := 0;
    while n < |items|
      invariant 0 <= n <= |items|
      invariant g == GroupBy(items[..n])
    {
      var li := items[n];
      if li.sku in g.groups {
        g := g.(groups := g.groups[li.sku := g.groups[li.sku] + [li]]);
      } else {
        g := Grouping(g.keys + [li.sku], g.groups[li.sku := [li]]);
      }
      assert items[..n + 1][..n] == items[..n];
      n := n + 1;
    }
    assert items[..n] == items;
  }
}
