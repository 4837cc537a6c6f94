/** Worked cases of the `init` helper (uti/utisli.util.js:25-65) on small
    inputs. */
module AggregatorExamples {
  import opened Wrappers
  import opened LineItems
  import opened SkuGrouping
  import opened Aggregator

  /** A line item with a price and a quantity and database fields set. */
  function Item(sku: string, price: real, quantity: real): LineItem
  {
    LineItem(sku, Some(price), None, Some(quantity), None, Some("id"), Some(0))
  }

  /** Two orders each holding SKU "A" at price 10, quantities 2 and 3: one
      composed item of price 50 and quantity 5, declared value 50. */
  lemma SameSkuAcrossOrders()
    ensures var c := Compose(ExtendItems(AllItems([Order([Item("A", 10.0, 2.0)]),
                                                   Order([Item("A", 10.0, 3.0)])]), "No"));
      |c| == 1 && c[0].sku == "A" && c[0].price == Some(50.0) && c[0].quantity == Some(5.0)
      && c[0].id.None? && DeclaredTotal(c) == 50
  {
    var a1, a2 := Item("A", 10.0, 2.0), Item("A", 10.0, 3.0);
    var orders := [Order([a1]), Order([a2])];
    assert orders[..1] == [Order([a1])];
    assert AllItems(orders[..1]) == [a1];
    assert AllItems(orders) == [a1, a2];
    var e1, e2 := Extend(a1, "No"), Extend(a2, "No");
    var items := ExtendItems([a1, a2], "No");
    assert items == [e1, e2];
    assert e1.price == Some(20.0) && e2.price == Some(30.0);
    assert items[..1] == [e1];
    var g1 := Grouping(["A"], map["A" := [e1]]);
    assert GroupBy([e1]) == g1;
    assert GroupBy(items) == Insert(g1, e2);
    assert [e1] + [e2] == [e1, e2];
    assert map["A" := [e1]]["A" := [e1, e2]] == map["A" := [e1, e2]];
    assert GroupBy(items) == Grouping(["A"], map["A" := [e1, e2]]);
    assert [e1, e2][..1] == [e1];
    assert Reduce([e1]) == e1;
    var c := Compose(items);
    assert c == [Omit(Merge(e1, e2))];
    assert c[..0] == [];
  }

  /** One item of SKU "B" at price 9.6: the composed item keeps the price
      9.6 and the declared value is 10. */
  lemma PriceRoundedOnlyInTotal()
    ensures var c := Compose(ExtendItems([Item("B", 9.6, 1.0)], "No"));
      |c| == 1 && c[0].price == Some(9.6) && DeclaredTotal(c) == 10
  {
  }

  /** Two SKUs at 0.5 each: the declared value is 1 + 1 = 2, not the
      rounded sum of the prices, which is 1. */
  lemma RoundThenSum()
    ensures var c := Compose(ExtendItems([Item("A", 0.5, 1.0), Item("B", 0.5, 1.0)], "No"));
      |c| == 2 && DeclaredTotal(c) == 2 && RoundHalfUp(OrZero(c[0].price) + OrZero(c[1].price)) == 1
  {
    var a, b := Item("A", 0.5, 1.0), Item("B", 0.5, 1.0);
    var ea, eb := Extend(a, "No"), Extend(b, "No");
    var items := ExtendItems([a, b], "No");
    assert items == [ea, eb];
    assert ea.price == Some(0.5) && eb.price == Some(0.5);
    assert items[..1] == [ea];
    var g1 := Grouping(["A"], map["A" := [ea]]);
    assert GroupBy([ea]) == g1;
    assert "B" !in g1.groups;
    assert GroupBy(items) == Insert(g1, eb);
    assert GroupBy(items) == Grouping(["A", "B"], map["A" := [ea], "B" := [eb]]);
    var c := Compose(items);
    assert c == [Omit(ea), Omit(eb)];
    assert c[..1] == [Omit(ea)];
    assert c[..1][..0] == [];
    assert RoundHalfUp(0.5) == 1;
  }
}
