/** `createUtiSli` (uti/utisli.util.js:180-233) up to the point where the
    document model is handed to the renderer: a failed order query is passed
    on, an empty order list is rejected with the order-not-found message, and
    otherwise the model is composed and the `init` helper runs over it. */
module SliPipeline {
  import opened Wrappers
  import opened LineItems
  import opened SkuGrouping
  import opened Document
  import opened Aggregator
  import opened Composer

  /** Why no letter is produced. */
  datatype SliError =
    | OrderNotFound(message: string)
    | QueryFailed(cause: string)

  /** The outcome of the order query is an input; the result is the model
      the template is rendered from. */
  method CreateUtiSli(fetched: Result<seq<Order>, string>, bulk: Bulk, cfg: Config)
    returns (r: Result<DocumentModel, SliError>)
    ensures fetched.Failure? ==> r == Failure(QueryFailed(fetched.error))
    ensures fetched.Success? && |fetched.value| == 0 ==>
              r == Failure(OrderNotFound(cfg.orderNotFoundMessage))
    ensures fetched.Success? && |fetched.value| > 0 ==>
              r == Success(InitSpec(AddData(fetched.value, bulk, cfg)))
  {
    if fetched.Failure? {
      return Failure(QueryFailed(fetched.error));
    }
    var orders := fetched.value;
    if |orders| == 0 {
      return Failure(OrderNotFound(cfg.orderNotFoundMessage));
    }
    var inputData := new SliData(AddData(orders, bulk, cfg));
    inputData.Init();
    r := Success(inputData.Model());
  }

  /** The model handed to the renderer: the destination and its
      instructions as composed, every line item of every order and every
      composed item marked with SME indicator "No", the orders extended in
      place, the composed items those of the extended items, the declared
      value the sum of their rounded prices. */
  lemma RenderInputOfOrders(orders: seq<Order>, bulk: Bulk, cfg: Config)
    ensures var m := InitSpec(AddData(orders, bulk, cfg));
      m.additionalInfo.countryOfUltimateDestination == bulk.destinationCountry
      && ParseInstruction(m.additionalInfo.instructionsToForwarder)
         == Some(InstructionVarsFor(bulk.destinationCountry, cfg.customerCareEmail))
      && m.addresses.ultimateConsignee == GetConsigneeByCountryCode(cfg, bulk.destinationCountry)
      && |m.orders| == |orders|
      && (forall i, j :: 0 <= i < |orders| && 0 <= j < |orders[i].lineItems| ==>
            m.orders[i].lineItems[j] == Extend(orders[i].lineItems[j], "No")
            && m.orders[i].lineItems[j].smeIndicator == Some("No"))
      && m.lineItems == Some(Compose(ExtendItems(AllItems(orders), "No")))
      && (forall i :: 0 <= i < |m.lineItems.value| ==> m.lineItems.value[i].smeIndicator == Some("No"))
      && m.additionalInfo.declaredValueForCarriage == Amount(DeclaredTotal(m.lineItems.value))
  {
    var d := AddData(orders, bulk, cfg);
    InitAggregatesBySku(d);
    ComposedBySku(AllItems(orders), "No");
  }

  /** Running the helper a second time extends the already extended items
      again: price and weight are multiplied by the quantity twice. */
  lemma InitTwiceCompounds(m: DocumentModel, i: nat, j: nat)
    requires i < |m.orders| && j < |m.orders[i].lineItems|
    ensures var li, twice := m.orders[i].lineItems[j], InitSpec(InitSpec(m)).orders[i].lineItems[j];
      OrZero(twice.price) == OrZero(li.price) * OrZero(li.quantity) * OrZero(li.quantity)
      && OrZero(twice.weight) == OrZero(li.weight) * OrZero(li.quantity) * OrZero(li.quantity)
  {
  }
}
