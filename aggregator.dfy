/** The `init` helper of uti/utisli.util.js:25-65: it extends every line item
    of every order in place, groups the collected items by SKU, reduces each
    group to one composed item and stores the composed items and the declared
    value for carriage on the document model. */
module Aggregator {
  import opened Wrappers
  import opened LineItems
  import opened SkuGrouping
  import opened Document

  /** `result.f += _.get(element, f, 0)`. An accumulator without the field
      (`undefined`, and `NaN` after the first addition) stays without a number. */
  function AddField(acc: Option<real>, x: Option<real>): Option<real>
  {
    match acc
    case None => None
    case Some(a) => Some(a + OrZero(x))
  }

  /** The reduce callback: adds an element's price, weight and quantity into
      the accumulator and keeps the accumulator's other fields. */
  function Merge(acc: LineItem, element: LineItem): LineItem
  {
    acc.(price := AddField(acc.price, element.price),
         weight := AddField(acc.weight, element.weight),
         quantity := AddField(acc.quantity, element.quantity))
  }

  /** `_.reduce(group, callback)` without a seed: the first element is the
      accumulator, the others are merged into it in order. */
  function Reduce(group: seq<LineItem>): LineItem
    requires |group| > 0
  {
    if |group| == 1 then group[0]
    else Merge(Reduce(group[..|group| - 1]), group[|group| - 1])
  }

  /** A field of a reduced group is the sum of that field over the group
      (missing values counting as 0), provided the first element has it; if
      the first element lacks it, the composed item has no number there.
      Every other field comes from the first element. */
  lemma {:induction false} ReduceSums(group: seq<LineItem>)
    requires |group| > 0
    ensures Reduce(group).price
         == if group[0].price.Some? then Some(Total(group, Price)) else None
    ensures Reduce(group).weight
         == if group[0].weight.Some? then Some(Total(group, Weight)) else None
    ensures Reduce(group).quantity
         == if group[0].quantity.Some? then Some(Total(group, Quantity)) else None
    ensures Reduce(group).sku == group[0].sku
    ensures Reduce(group).smeIndicator == group[0].smeIndicator
    ensures Reduce(group).id == group[0].id && Reduce(group).version == group[0].version
  {
    var n := |group|;
    if n > 1 {
      ReduceSums(group[..n - 1]);
    } else {
      assert Total(group[..0], Price) == 0.0;
      assert Total(group[..0], Weight) == 0.0;
      assert Total(group[..0], Quantity) == 0.0;
    }
  }

  /** The reduce loop over one group. */
  method ReduceGroup(group: seq<LineItem>) returns (acc: LineItem)
    requires |group| > 0
    ensures acc == Reduce(group)
  {
    acc := group[0];
    var n := 1;
    while n < |group|
      invariant 1 <= n <= |group|
      invariant acc == Reduce(group[..n])
    {
      var element := group[n];
      acc := acc.(price := AddField(acc.price, element.price),
                  weight := AddField(acc.weight, element.weight),
                  quantity := AddField(acc.quantity, element.quantity));
      assert group[..n + 1][..n] == group[..n];
      n := n + 1;
    }
    assert group[..n] == group;
  }

  /** `_.omit(item, '_id', '__v')`. */
  function Omit(li: LineItem): (r: LineItem)
    ensures r.id.None? && r.version.None?
    ensures r == li.(id := r.id, version := r.version)
  {
    li.(id := None, version := None)
  }

  /** `Math.round`: the integer nearest to x, halves rounded up. */
  function RoundHalfUp(x: real): (r: int)
    ensures r as real - 0.5 <= x < r as real + 0.5
  {
    (x + 0.5).Floor
  }

  /** The composed items, one per key of the grouping, in key order. */
  function ComposeKeys(keys: seq<string>, groups: map<string, seq<LineItem>>): seq<LineItem>
    requires forall k :: k in keys ==> k in groups && |groups[k]| > 0
  {
    seq(|keys|, i requires 0 <= i < |keys| => Omit(Reduce(groups[keys[i]])))
  }

  /** `declaredValueForCarriage`: each composed price is rounded and then the
      rounded values are added up. */
  function DeclaredTotal(composed: seq<LineItem>): int
  {
    if |composed| == 0 then 0
    else DeclaredTotal(composed[..|composed| - 1])
         + RoundHalfUp(OrZero(composed[|composed| - 1].price))
  }

  /** The loop over the groups: reduce, round a copy of the price for the
      total, strip the database fields, collect. */
  method ComposeGroups(keys: seq<string>, groups: map<string, seq<LineItem>>)
    returns (composed: seq<LineItem>, total: int)
    requires forall k :: k in keys ==> k in groups && |groups[k]| > 0
    ensures composed == ComposeKeys(keys, groups)
    ensures total == DeclaredTotal(composed)
  {
    composed, total := [], 0;
    var i := 0;
    while i < |keys|
      invariant 0 <= i <= |keys|
      invariant composed == ComposeKeys(keys[..i], groups)
      invariant total == DeclaredTotal(composed)
    {
      var composedLineItem := ReduceGroup(groups[keys[i]]);
      var composedLineItemPrice := RoundHalfUp(OrZero(composedLineItem.price));
      var next := composed + [Omit(composedLineItem)];
      assert next[..|next| - 1] == composed;
      composed := next;
      total := total + composedLineItemPrice;
      i := i + 1;
    }
    assert keys[..i] == keys;
  }

  /** The composed items of a list of collected items: grouped by SKU, each
      group reduced and stripped of its database fields. */
  function Compose(items: seq<LineItem>): seq<LineItem>
  {
    GroupByPartitions(items);
    ComposeKeys(GroupBy(items).keys, GroupBy(items).groups)
  }

  /** The document model after one run of the helper. */
  function InitSpec(m: DocumentModel): DocumentModel
  {
    var orders := ExtendOrders(m.orders, m.additionalInfo.smeIndicator);
    var composed := Compose(AllItems(orders));
    m.(orders := orders,
       lineItems := Some(composed),
       additionalInfo := m.additionalInfo.(declaredValueForCarriage := Amount(DeclaredTotal(composed))))
  }

  /** The items of SKU k after extension are the extended items of SKU k. */
  lemma {:induction false} WithSkuOfExtended(items: seq<LineItem>, sme: string, k: string)
    ensures WithSku(ExtendItems(items, sme), k) == ExtendItems(WithSku(items, k), sme)
  {
    var n := |items|;
    if n > 0 {
      assert ExtendItems(items, sme)[..n - 1] == ExtendItems(items[..n - 1], sme);
      WithSkuOfExtended(items[..n - 1], sme, k);
      var tail := if items[n - 1].sku == k then [items[n - 1]] else [];
      ExtendItemsAppend(WithSku(items[..n - 1], k), tail, sme);
    }
  }

  lemma SkusOfExtended(items: seq<LineItem>, sme: string)
    ensures Skus(ExtendItems(items, sme)) == Skus(items)
  {
    forall k ensures k in Skus(ExtendItems(items, sme)) <==> k in Skus(items) {
      WithSkuOfExtended(items, sme, k);
      WithSkuNonEmpty(items, k);
      WithSkuNonEmpty(ExtendItems(items, sme), k);
    }
  }

  /** The i-th composed item of extended items is the i-th SKU's group:
      the unrounded sums of the extended price and weight and the sum of the
      quantities over the original items of that SKU (no quantity if the
      first of them has none), the indicator, and no `_id` or `__v`. */
  lemma ComposedItemSums(original: seq<LineItem>, sme: string, i: nat)
    requires i < |Compose(ExtendItems(original, sme))|
    ensures var composed := Compose(ExtendItems(original, sme));
      var group := WithSku(original, composed[i].sku);
      composed[i].sku == GroupBy(ExtendItems(original, sme)).keys[i]
      && |group| > 0
      && composed[i].price == Some(ExtendedTotal(group, Price))
      && composed[i].weight == Some(ExtendedTotal(group, Weight))
      && composed[i].quantity
         == (if group[0].quantity.Some? then Some(ExtendedTotal(group, Quantity)) else None)
      && composed[i].smeIndicator == Some(sme)
      && composed[i].id.None? && composed[i].version.None?
  {
    var items := ExtendItems(original, sme);
    GroupByPartitions(items);
    var g := GroupBy(items);
    var k := g.keys[i];
    var extended := g.groups[k];
    WithSkuNonEmpty(items, k);
    assert extended[0].sku == k;
    ReduceSums(extended);
    WithSkuOfExtended(original, sme, k);
    var group := WithSku(original, k);
    assert extended == ExtendItems(group, sme);
    TotalOfExtended(group, sme, Price);
    TotalOfExtended(group, sme, Weight);
    TotalOfExtended(group, sme, Quantity);
    assert extended[0] == Extend(group[0], sme);
  }

  /** The composed items of the extended items are listed in the grouping's
      key order: one per SKU that occurs among the original items, none for
      any other, no SKU twice. */
  lemma ComposedSkus(original: seq<LineItem>, sme: string)
    ensures var composed := Compose(ExtendItems(original, sme));
      (forall i :: 0 <= i < |composed| ==>
         composed[i].sku == GroupBy(ExtendItems(original, sme)).keys[i])
      && (forall k :: k in Skus(original) <==> exists i :: 0 <= i < |composed| && composed[i].sku == k)
      && (forall i, j :: 0 <= i < j < |composed| ==> composed[i].sku != composed[j].sku)
  {
    var items := ExtendItems(original, sme);
    GroupByPartitions(items);
    SkusOfExtended(original, sme);
    var g := GroupBy(items);
    var composed := Compose(items);
    forall i | 0 <= i < |composed|
      ensures composed[i].sku == g.keys[i]
    {
      var k := g.keys[i];
      WithSkuNonEmpty(items, k);
      assert g.groups[k][0].sku == k;
      ReduceSums(g.groups[k]);
    }
    forall k | k in Skus(original)
      ensures exists i :: 0 <= i < |composed| && composed[i].sku == k
    {
      var i :| 0 <= i < |g.keys| && g.keys[i] == k;
      assert composed[i].sku == k;
    }
  }

  /** The composed items of the extended items partition them by SKU: one
      composed item per SKU that occurs among the original items, none for
      any other, no SKU twice; each holds its SKU's sums. */
  lemma ComposedBySku(original: seq<LineItem>, sme: string)
    ensures var composed := Compose(ExtendItems(original, sme));
      (forall k :: k in Skus(original) <==> exists i :: 0 <= i < |composed| && composed[i].sku == k)
      && (forall i, j :: 0 <= i < j < |composed| ==> composed[i].sku != composed[j].sku)
      && (forall i :: 0 <= i < |composed| ==>
            var group := WithSku(original, composed[i].sku);
            |group| > 0
            && composed[i].price == Some(ExtendedTotal(group, Price))
            && composed[i].weight == Some(ExtendedTotal(group, Weight))
            && composed[i].quantity
               == (if group[0].quantity.Some? then Some(ExtendedTotal(group, Quantity)) else None)
            && composed[i].smeIndicator == Some(sme)
            && composed[i].id.None? && composed[i].version.None?)
  {
    ComposedSkus(original, sme);
    var composed := Compose(ExtendItems(original, sme));
    forall i | 0 <= i < |composed|
      ensures var group := WithSku(original, composed[i].sku);
            |group| > 0
            && composed[i].price == Some(ExtendedTotal(group, Price))
            && composed[i].weight == Some(ExtendedTotal(group, Weight))
            && composed[i].quantity
               == (if group[0].quantity.Some? then Some(ExtendedTotal(group, Quantity)) else None)
            && composed[i].smeIndicator == Some(sme)
            && composed[i].id.None? && composed[i].version.None?
    {
      ComposedItemSums(original, sme, i);
    }
  }

  /** What one run of the helper does to the document model: every line item
      of every order is extended in place and carries the indicator; the
      composed items are those of the collected extended items (see
      ComposedBySku); the declared value is the sum of the rounded composed
      prices, while each composed price stays unrounded; nothing else changes. */
  lemma InitAggregatesBySku(m: DocumentModel)
    ensures InitSpec(m).addresses == m.addresses
    ensures InitSpec(m).additionalInfo
         == m.additionalInfo.(declaredValueForCarriage := InitSpec(m).additionalInfo.declaredValueForCarriage)
    ensures |InitSpec(m).orders| == |m.orders|
    ensures forall i :: 0 <= i < |m.orders| ==>
              |InitSpec(m).orders[i].lineItems| == |m.orders[i].lineItems|
    ensures forall i, j :: 0 <= i < |m.orders| && 0 <= j < |m.orders[i].lineItems| ==>
              InitSpec(m).orders[i].lineItems[j]
              == Extend(m.orders[i].lineItems[j], m.additionalInfo.smeIndicator)
    ensures InitSpec(m).lineItems
         == Some(Compose(ExtendItems(AllItems(m.orders), m.additionalInfo.smeIndicator)))
    ensures InitSpec(m).additionalInfo.declaredValueForCarriage
         == Amount(DeclaredTotal(InitSpec(m).lineItems.value))
  {
    AllItemsOfExtended(m.orders, m.additionalInfo.smeIndicator);
  }

  /** The helper's inner loop over one order's line items: each item is
      extended in place and a copy of it is pushed onto `pushed`. */
  method ExtendAndCollect(items: seq<LineItem>, sme: string, pushed: seq<LineItem>)
    returns (extended: seq<LineItem>, collected: seq<LineItem>)
    ensures extended == ExtendItems(items, sme)
    ensures collected == pushed + extended
  {
    extended, collected := items, pushed;
    var j := 0;
    while j < |extended|
      invariant 0 <= j <= |extended| == |items|
      invariant extended[..j] == ExtendItems(items[..j], sme)
      invariant extended[j..] == items[j..]
      invariant collected == pushed + extended[..j]
    {
      extended := extended[j := Extend(extended[j], sme)];
      assert extended[j + 1..] == items[j + 1..];
      collected := collected + [extended[j]];
      assert extended[..j + 1] == extended[..j] + [extended[j]];
      j := j + 1;
    }
    assert extended[..j] == extended;
  }

  /** The document model while it is being rendered: the helper's `data`.
      The helper updates its orders in place and writes the composed items
      and the declared value onto it. */
  class SliData {
    var addresses: Addresses
    var additionalInfo: AdditionalInfo
    var orders: seq<Order>
    var lineItems: Option<seq<LineItem>>

    function Model(): DocumentModel
      reads this
    {
      DocumentModel(addresses, additionalInfo, orders, lineItems)
    }

    constructor (m: DocumentModel)
      ensures Model() == m
    {
      addresses := m.addresses;
      additionalInfo := m.additionalInfo;
      orders := m.orders;
      lineItems := m.lineItems;
    }

    /** The helper body. */
    method Init()
      modifies this
      ensures Model() == InitSpec(old(Model()))
    {
      var sme := additionalInfo.smeIndicator;
      var groupedLineItems: seq<LineItem> := [];
      var i := 0;
      while i < |orders|
        invariant 0 <= i <= |orders| == |old(orders)|
        invariant orders[..i] == ExtendOrders(old(orders)[..i], sme)
        invariant orders[i..] == old(orders)[i..]
        invariant groupedLineItems == AllItems(orders[..i])
        invariant sme == additionalInfo.smeIndicator == old(additionalInfo).smeIndicator
        invariant addresses == old(addresses) && additionalInfo == old(additionalInfo)
        invariant lineItems == old(lineItems)
      {
        var items, collected := ExtendAndCollect(orders[i].lineItems, sme, groupedLineItems);
        groupedLineItems := collected;
        ghost var prev := orders;
        orders := orders[i := orders[i].(lineItems := items)];
        assert orders[..i] == prev[..i];
        assert orders[i + 1..] == prev[i + 1..] == old(orders)[i + 1..];
        assert orders[..i + 1] == ExtendOrders(old(orders)[..i + 1], sme);
        assert orders[..i + 1][..i] == orders[..i];
        assert AllItems(orders[..i + 1]) == AllItems(orders[..i]) + items;
        i := i + 1;
      }
      assert orders == orders[..i] && old(orders) == old(orders)[..i];
      var grouped := GroupLineItems(groupedLineItems);
      GroupByPartitions(groupedLineItems);
      var composedLineItems, totalValue := ComposeGroups(grouped.keys, grouped.groups);
      assert composedLineItems == Compose(groupedLineItems);
      lineItems := Some(composedLineItems);
      additionalInfo := additionalInfo.(declaredValueForCarriage := Amount(totalValue));
    }
  }
}
