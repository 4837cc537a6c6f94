/** Orders and their line items, and the per-item step of the `init` helper
    (uti/utisli.util.js:31-40): copy the SME indicator onto the item and
    overwrite price and weight with their extended values. */
module LineItems {
  import opened Wrappers

  /** A line item as stored with an order. A field the document does not have
      is `None`; `id` and `version` stand for the database fields `_id` and `__v`. */
  datatype LineItem = LineItem(
    sku: string,
    price: Option<real>,
    weight: Option<real>,
    quantity: Option<real>,
    smeIndicator: Option<string>,
    id: Option<string>,
    version: Option<int>)

  datatype Order = Order(lineItems: seq<LineItem>)

  /** The numeric fields the helper reads and sums. */
  datatype Field = Price | Weight | Quantity

  function FieldOf(li: LineItem, f: Field): Option<real>
  {
    match f
    case Price => li.price
    case Weight => li.weight
    case Quantity => li.quantity
  }

  /** Reading a numeric field with 0 as the default for a missing one. */
  function OrZero(v: Option<real>): real
  {
    match v
    case Some(x) => x
    case None => 0.0
  }

  /** What a field of `li` is worth once extended: price and weight are
      multiplied by the quantity, the quantity stays itself; a missing
      price, weight or quantity counts as 0. */
  function ExtendedValue(li: LineItem, f: Field): real
  {
    if f == Quantity then OrZero(li.quantity)
    else OrZero(FieldOf(li, f)) * OrZero(li.quantity)
  }

  /** One pass of the helper's inner loop over a line item: the indicator is
      copied, price and weight are overwritten in place, nothing else changes. */
  function Extend(li: LineItem, sme: string): (r: LineItem)
    ensures r.smeIndicator == Some(sme)
    ensures forall f :: OrZero(FieldOf(r, f)) == ExtendedValue(li, f)
    ensures r.price.Some? && r.weight.Some?
    ensures r.sku == li.sku && r.quantity == li.quantity
    ensures r.id == li.id && r.version == li.version
  {
    li.(smeIndicator := Some(sme),
        price := Some(ExtendedValue(li, Price)),
        weight := Some(ExtendedValue(li, Weight)))
  }

  function ExtendItems(items: seq<LineItem>, sme: string): (r: seq<LineItem>)
  {
    seq(|items|, k requires 0 <= k < |items| => Extend(items[k], sme))
  }

  /** The orders after the helper has run over each of their line items. */
  function ExtendOrders(orders: seq<Order>, sme: string): seq<Order>
  {
    seq(|orders|, i requires 0 <= i < |orders| =>
      orders[i].(lineItems := ExtendItems(orders[i].lineItems, sme)))
  }

  /** The line items of all orders, order by order (the list the helper pushes to). */
  function AllItems(orders: seq<Order>): seq<LineItem>
  {
    if |orders| == 0 then []
    else AllItems(orders[..|orders| - 1]) + orders[|orders| - 1].lineItems
  }

  /** The sum of a field over `items`, missing values counting as 0. */
  function Total(items: seq<LineItem>, f: Field): real
  {
    if |items| == 0 then 0.0
    else Total(items[..|items| - 1], f) + OrZero(FieldOf(items[|items| - 1], f))
  }

  /** The sum of the extended values of a field over `items`. */
  function ExtendedTotal(items: seq<LineItem>, f: Field): real
  {
    if |items| == 0 then 0.0
    else ExtendedTotal(items[..|items| - 1], f) + ExtendedValue(items[|items| - 1], f)
  }

  lemma ExtendItemsAppend(a: seq<LineItem>, b: seq<LineItem>, sme: string)
    ensures ExtendItems(a + b, sme) == ExtendItems(a, sme) + ExtendItems(b, sme)
  {
  }

  /** Extending every order and then collecting the items gives the same list
      as collecting the original items and extending each. */
  lemma {:induction false} AllItemsOfExtended(orders: seq<Order>, sme: string)
    ensures AllItems(ExtendOrders(orders, sme)) == ExtendItems(AllItems(orders), sme)
  {
    var n := |orders|;
    if n > 0 {
      var ext := ExtendOrders(orders, sme);
      assert ext[..n - 1] == ExtendOrders(orders[..n - 1], sme);
      AllItemsOfExtended(orders[..n - 1], sme);
      ExtendItemsAppend(AllItems(orders[..n - 1]), orders[n - 1].lineItems, sme);
    }
  }

  /** Summing a field over extended items is summing the extended values. */
  lemma {:induction false} TotalOfExtended(items: seq<LineItem>, sme: string, f: Field)
    ensures Total(ExtendItems(items, sme), f) == ExtendedTotal(items, f)
  {
    var n := |items|;
    if n > 0 {
      assert ExtendItems(items, sme)[..n - 1] == ExtendItems(items[..n - 1], sme);
      TotalOfExtended(items[..n - 1], sme, f);
    }
  }

  /** The extension overwrites in place and is not idempotent: applied a
      second time it multiplies price and weight by the quantity again. */
  lemma ExtendTwice(li: LineItem, sme: string)
    ensures OrZero(Extend(Extend(li, sme), sme).price)
         == OrZero(li.price) * OrZero(li.quantity) * OrZero(li.quantity)
    ensures OrZero(Extend(Extend(li, sme), sme).weight)
         == OrZero(li.weight) * OrZero(li.quantity) * OrZero(li.quantity)
  {
  }
}
