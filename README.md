# Shipper's Letter of Instruction: data shaping, modelled in Dafny

This project models the data-shaping core of `uti/utisli.util.js`, the module
that produces the Shipper's Letter of Instruction (SLI) for an air-freight
bulk shipment. It covers the path from the fetched orders to the document
model that the HTML template is rendered from:

- `createUtiSli` passes a failed order query on, and rejects an empty order
  list with the order-not-found message (`SliPipeline.CreateUtiSli`).
- `addData` builds a fresh document model. Its computed fields are the
  country of ultimate destination, the ultimate consignee (CCL for GB, TOLL
  for AU, a blank address otherwise) and the instructions to the forwarder.
  The instructions are a fixed sentence filled with the airport, importer,
  importer phone and contact e-mail of the destination, with GB's values for
  any unknown country (module `Composer`).
- The `init` template helper, an imperative method on the model object
  (`Aggregator.SliData.Init`), works in four steps:
  - It overwrites every line item of every order in place: the SME
    indicator is copied on, and price and weight become their extended
    values.
  - It groups copies of the items by SKU (`SkuGrouping`).
  - It reduces each group, with the first element as the accumulator.
  - It strips `_id` and `__v`, and writes the composed items and the
    declared value for carriage. The declared value is the sum of the
    rounded composed prices; each composed price itself stays unrounded.

Amounts are `real`. `Math.round(x)` is `Floor(x + 0.5)`. A missing numeric
field is `None`. The reduce adds into the accumulator's own field. When that
field is missing, JavaScript computes `undefined + n`, which is `NaN`. The
model keeps such a field as `None`, so a composed quantity is absent exactly
when the first item of its SKU has no quantity.

Two behaviours of the code are worth stating outright:

- Only a local copy of each composed price is rounded
  (`uti/utisli.util.js:55-57`). The composed item keeps its unrounded price,
  and only the declared value is built from rounded prices.
- The helper overwrites the orders' own line items in place
  (`uti/utisli.util.js:33-35`), so the orders of the model change too. The
  model states the new orders in `SliData.Init` and `InitAggregatesBySku`.

Files: `wrappers.dfy` (Option, Result), `line_items.dfy`, `document.dfy`,
`sku_grouping.dfy`, `aggregator.dfy`, `aggregator_examples.dfy`,
`composer.dfy`, `sli_pipeline.dfy`.

## Model

| member | source | states |
|---|---|---|
| LineItems.Extend | uti/utisli.util.js:33-35 | the item carries the indicator; price and weight hold price × quantity and weight × quantity, a missing field counting as 0; SKU, quantity, `_id`, `__v` unchanged |
| LineItems.AllItemsOfExtended | uti/utisli.util.js:31-40 | the copies pushed while the orders are extended are exactly the extended items of all orders, order by order |
| LineItems.TotalOfExtended | uti/utisli.util.js:34-50 | summing a field over extended items equals summing the extended values (price × quantity, weight × quantity, quantity) of the original items |
| LineItems.ExtendTwice | uti/utisli.util.js:33-35 | the extension is not idempotent: a second application multiplies price and weight by the quantity again |
| SkuGrouping.SkusAreTheItemSkus | uti/utisli.util.js:43 | vocabulary of the model, not an operation of the source: the set of SKUs that the grouping contracts are stated over; a SKU is among the SKUs of the items exactly when some item carries it |
| SkuGrouping.WithSkuNonEmpty | uti/utisli.util.js:43 | vocabulary of the model, not an operation of the source: the per-SKU filter that each group is compared with; the items of a SKU are non-empty exactly when the SKU occurs, and all carry that SKU |
| SkuGrouping.GroupByPartitions | uti/utisli.util.js:42-43 | grouping by SKU is a partition: one group per occurring SKU and no other, keys listed once, each group exactly the items of its SKU in input order |
| SkuGrouping.GroupLineItems | uti/utisli.util.js:43 | the grouping loop computes the grouping specified by `GroupBy` |
| Aggregator.ReduceSums | uti/utisli.util.js:46-53 | a reduced group's price, weight and quantity are the sums over the group (missing values 0) when the first element has that field, and absent otherwise; SKU, indicator and database fields come from the first element |
| Aggregator.ReduceGroup | uti/utisli.util.js:47-53 | the reduce loop yields the reduction specified by `Reduce` |
| Aggregator.Omit | uti/utisli.util.js:59 | the composed item has no `_id` and no `__v`, and is otherwise unchanged |
| Aggregator.RoundHalfUp | uti/utisli.util.js:57 | `Math.round` gives the nearest integer, halves rounded up |
| Aggregator.ComposeGroups | uti/utisli.util.js:45-61 | the loop over the groups yields the composed items in key order and the sum of their rounded prices |
| Aggregator.WithSkuOfExtended | uti/utisli.util.js:31-43 | the extended items of a SKU are the extensions of that SKU's original items |
| Aggregator.ComposedItemSums | uti/utisli.util.js:45-59 | each composed item is its SKU's group: unrounded sums of extended price and weight, the quantity sum (absent if the SKU's first item has none), the indicator, no `_id`/`__v` |
| Aggregator.ComposedSkus | uti/utisli.util.js:43-61 | the composed items follow the grouping's key order: exactly one per SKU occurring among the original items, none for any other SKU, no SKU twice |
| Aggregator.ComposedBySku | uti/utisli.util.js:31-61 | exactly one composed item per SKU occurring among all line items of all orders, no SKU lost or repeated, each holding its SKU's sums |
| Aggregator.InitAggregatesBySku | uti/utisli.util.js:25-65 | one run of the helper extends every order's line items in place, replaces `lineItems` by the composed items, sets the declared value to the sum of the rounded composed prices, and changes nothing else |
| Aggregator.ExtendAndCollect | uti/utisli.util.js:32-39 | the inner loop over one order's line items extends each item in place and appends exactly the extended items, in order, to the collected list |
| Aggregator.SliData.Init | uti/utisli.util.js:25-65 | the helper's loops take the model object from its old state to `InitSpec` of it |
| AggregatorExamples.SameSkuAcrossOrders | uti/utisli.util.js:46-53 | SKU "A" at price 10 in two orders with quantities 2 and 3 composes to price 50, quantity 5, declared value 50 |
| AggregatorExamples.PriceRoundedOnlyInTotal | uti/utisli.util.js:55-60 | one item of price 9.6 keeps price 9.6 while the declared value is 10 |
| AggregatorExamples.RoundThenSum | uti/utisli.util.js:55-60 | two SKUs at 0.5 give a declared value of 2, while rounding the sum of the prices would give 1 |
| Composer.GetConsigneeByCountryCode | uti/utisli.util.js:68-88 | GB resolves to the CCL address, AU to the TOLL address, any other code to the all-blank address |
| Composer.InstructionVarsFor | uti/utisli.util.js:97-119 | AU gives Sydney/Toll/+61 2 9364 5555; GB and every unknown country give Heathrow/CCL/+44 208 231 0900; the contact e-mail is always the configured one |
| Composer.IndexOf | uti/utisli.util.js:112-115 | vocabulary of the model, not an operation of the source (which only fills the template): a search used to read the sentence back; the index found is the first occurrence of the separator at or after the start, and none is reported only when there is none |
| Composer.SplitJoin | uti/utisli.util.js:112-115 | vocabulary of the model, not an operation of the source: a fact about the split used to read the sentence back; text joined at a separator whose first character does not occur in the left part splits back into the same two parts |
| Composer.InstructionRoundTrip | uti/utisli.util.js:112-115 | the sentence carries exactly the substituted values: reading the airport, importer, phone and e-mail back out of it returns them |
| Composer.InstructionVarsUnambiguous | uti/utisli.util.js:97-110 | the values of both countries can be read back from the sentence, whatever the e-mail address |
| Composer.Instruction | uti/utisli.util.js:112-119 | the destination's instruction sentence reads back as that destination's variables (GB's for unknown countries) |
| Composer.AddData | uti/utisli.util.js:96-173 | the fresh model has the bulk's destination as country of ultimate destination, that country's consignee and instructions, a blank declared value, indicator "No", the input orders unchanged and no composed items |
| SliPipeline.CreateUtiSli | uti/utisli.util.js:180-193 | a failed query is passed on; an empty order list fails with the order-not-found message before anything is composed; otherwise the result is the composed model after one run of the helper |
| SliPipeline.RenderInputOfOrders | uti/utisli.util.js:96-193 | the rendered model has every line item of every order and every composed item marked "No", the orders extended, the composed items of all orders' items and the declared value as the sum of their rounded prices |
| SliPipeline.InitTwiceCompounds | uti/utisli.util.js:24-35 | running the helper twice on the same model multiplies each price and weight by the quantity twice |

## Left out

- Reading the template file, Handlebars compilation, the wkhtmltopdf stream and its buffer, the `SLI_<timestamp>.pdf` file name and the Q promise plumbing are not modelled. They are file I/O, an external renderer with an opaque binary output, and a clock.
- The global `handlebars.registerHelper` registration is not modelled; the helper body is the method `SliData.Init`. How often the template invokes the helper is decided by the template file, which is not part of this model. The model runs it once, and `InitTwiceCompounds` shows the effect of a second run. The comment at `uti/utisli.util.js:24` ("Call before each order") suggests the template may call the helper once per order. In that case each price and weight would be multiplied by the quantity once per order.
- The order query is not modelled; its outcome (orders or an error) is an input. `config`, `constants`, the CCL and TOLL address constants and the order-not-found message are fields of a `Config` parameter, because their definitions are not part of this model.
- How `errorHandling.rejectDbErrPromise` wraps an error is not part of this model. The result keeps the original cause or message.
- The roughly 25 fixed literal customs fields of `addData` are not modelled, because they are constants with no logic. Only the computed fields, the consignees and the blank declared value are kept.
- `uti/index.js` (persisting the file and stamping the bulk) and `utils/base64toPDF.js` (a command-line base64 decoder) are not modelled. They are orchestration over foreign services and file I/O.
- IEEE floating point is not modelled: amounts are exact reals. `NaN` and `undefined` in an accumulator are both "no number".
- JavaScript objects list integer-like keys first, in ascending order, and then the other keys. The model orders SKU groups by first occurrence. So the `lineItems` order fixed by `SliData.Init`, `InitAggregatesBySku`, `ComposeGroups` and `CreateUtiSli` differs from the source when some SKUs are integer-like: SKUs "B" then "7" give [7, B] in the source and [B, 7] in the model. Only the partition, the per-SKU sums and the declared value do not depend on that order.
- Only the fields the helper reads or writes are modelled on line items and orders. A field holding `null` is treated like a missing one (JavaScript adds to a `null` accumulator as to 0, where the model keeps it without a number). A line item without a SKU is not modelled (lodash would group it under the key `"undefined"`).
- `_.get` lookups of country codes that name inherited object members (such as `"constructor"`) or contain path separators are not modelled. Country codes are treated as plain table keys.
