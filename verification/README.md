# Order and order-line service: a Dafny model

This project models the core of an order-management service written in Java with
Spring. Orders own a list of line items. Each line copies its unit price from a product
catalogue and caches `price * quantity`, and each order caches the sum of its line
totals. The service has three parts, all modelled here:

- the pricing step, which copies catalogue prices into lines and recomputes totals;
- the order-detail view, which combines an account's orders with the address,
  product and shipment services;
- the find-then-act commands that update and delete orders and create, update and
  delete line items.

Everything is modelled with immutable datatypes and pure functions. Prices are exact
`real`s. Ids and quantities are unbounded `int`s, and timestamps are opaque `int`s.
The repositories and remote clients become explicit parameters:

- the order table is a `map` from order number to order;
- the line-item table is a `map` keyed by (line id, order id);
- the store queries and the three remote lookups are function values.

Files, one module each:

- `wrappers.dfy`: `Option`, standing for Java's nullable references.
- `line_items.dfy`: the order-line entity, its constructors and setters.
- `orders.dfy`: the order entity, its total, and adding and removing lines.
- `records.dfy`: the plain records `Address`, `Product`, `OrderLineSummary`,
  `Shipment` and `OrderDetail`.
- `gateways.dfy`: the address, product and shipment lookups, and the address
  client's fallback.
- `pricing.dfy`: the service's private `setPrice` and `setPrices`.
- `order_details.dfy`: `getOrderDetails` and `getOrderLineSummaries`.
- `commands.dfy`: `updateOrder`, `deleteOrder`, `createOrderLineItem`,
  `updateOrderLineItem` and `deleteOrderLineItem`.

Three facts about the code shape the model:

- Pricing dereferences the catalogue's answer without a null check
  (service/OrderOrderLineService.java:174-175). A known product is therefore a
  precondition of `Pricing.SetPrice` and `Pricing.SetPrices`.
- The order-detail view builds one shipment entry per fetched line item
  (service/OrderOrderLineService.java:141-151). Two lines with the same shipment
  therefore give two entries.
- The shipment lookup is total. Its answer is used without a null check
  (service/OrderOrderLineService.java:142-147), and the shipment client's fallback
  is commented out (external/ShipmentClient.java:16-21).

## Model

| member | source | states |
|---|---|---|
| LineItems.SetTotalPrice | src/main/java/com/solstice/orderorderlines/model/OrderLineItem.java:107-109 | the cached line total becomes price times quantity; every other field is kept |
| LineItems.GetTotalPrice | src/main/java/com/solstice/orderorderlines/model/OrderLineItem.java:94-97 | the value read is price times quantity whatever the cache held, and the line is left with that value cached |
| LineItems.GetTotalPriceIgnoresCache | src/main/java/com/solstice/orderorderlines/model/OrderLineItem.java:94-97 | two lines that differ only in a stale cached total read the same total and are left identical |
| LineItems.SetQuantity | src/main/java/com/solstice/orderorderlines/model/OrderLineItem.java:80-83 | the quantity is replaced and the total becomes price times the new quantity; id, product, price and shipment are kept |
| LineItems.SetPrice | src/main/java/com/solstice/orderorderlines/model/OrderLineItem.java:89-92 | the price is replaced and the total becomes the new price times quantity; id, product, quantity and shipment are kept |
| LineItems.SetPriceSetQuantityCommute | src/main/java/com/solstice/orderorderlines/model/OrderLineItem.java:80-92 | setting price then quantity gives the same line as quantity then price |
| LineItems.NewLineItem | src/main/java/com/solstice/orderorderlines/model/OrderLineItem.java:45-52 | the priced constructor stores its four arguments, leaves the id at 0 and caches price times quantity |
| LineItems.NewUnpricedLineItem | src/main/java/com/solstice/orderorderlines/model/OrderLineItem.java:54-58 | the constructor without a price leaves price and cached total at 0, so the line reads a total of 0 |
| LineItems.PricingUnpricedLine | src/main/java/com/solstice/orderorderlines/model/OrderLineItem.java:54-58 | pricing an unpriced line gives the same line the priced constructor builds |
| LineItems.SetId | src/main/java/com/solstice/orderorderlines/model/OrderLineItem.java:64-66 | only the id changes; price, quantity and cached total are kept, and so is consistency |
| LineItems.SetProductId | src/main/java/com/solstice/orderorderlines/model/OrderLineItem.java:72-74 | only the product reference changes; price, quantity and cached total are kept |
| LineItems.SetShipmentId | src/main/java/com/solstice/orderorderlines/model/OrderLineItem.java:103-105 | only the shipment reference changes; price, quantity and cached total are kept |
| Orders.LinesTotalConcat | src/main/java/com/solstice/orderorderlines/model/Order.java:109-114 | the order sum over two concatenated line lists is the sum of their sums |
| Orders.LinesTotalAppend | src/main/java/com/solstice/orderorderlines/model/Order.java:94-97 | appending a line adds exactly that line's total to the sum |
| Orders.LinesTotalIgnoresCache | src/main/java/com/solstice/orderorderlines/model/Order.java:109-114 | the order sum does not depend on the lines' cached totals |
| Orders.Refresh | src/main/java/com/solstice/orderorderlines/model/Order.java:112 | reading each line's total while summing leaves every line consistent, otherwise unchanged, and the sum unchanged |
| Orders.SetTotalPrice | src/main/java/com/solstice/orderorderlines/model/Order.java:109-114 | the cached order total becomes the sum of the line totals, 0 with no list; header kept, lines kept up to their caches |
| Orders.GetTotalPrice | src/main/java/com/solstice/orderorderlines/model/Order.java:104-107 | the value read is the sum over the current lines (0 with no list), never the cached field |
| Orders.GetTotalPriceIgnoresCache | src/main/java/com/solstice/orderorderlines/model/Order.java:104-107 | an order with a stale cached total reads the same total as with a fresh one |
| Orders.NewOrder | src/main/java/com/solstice/orderorderlines/model/Order.java:44-51 | the constructor stores account, date, address and lines, leaves the order number at 0 and caches the lines' sum |
| Orders.OrderTotalScenario | src/test/java/com/solstice/orderorderlines/service/OrderOrderLineServiceUnitTests.java:496-530 | the tests' first order (3 at 25 and 8 at 40) totals 395 |
| Orders.SetOrderLineItems | src/main/java/com/solstice/orderorderlines/model/Order.java:89-92 | the list is replaced wholesale and the total becomes the new list's sum; header kept |
| Orders.AddOrderLineItem | src/main/java/com/solstice/orderorderlines/model/Order.java:94-97 | the line is appended at the end and the new total is the old computed total plus that line's total |
| Orders.AddOrderLineItemAppends | src/main/java/com/solstice/orderorderlines/model/Order.java:94-97 | on a consistent order, adding keeps every existing line exactly and puts the new line, unchanged, last |
| Orders.FirstIndex | src/main/java/com/solstice/orderorderlines/model/Order.java:100 | the index found holds the line and no earlier index does |
| Orders.RemoveFirst | src/main/java/com/solstice/orderorderlines/model/Order.java:100 | removal takes off at most one occurrence: the multiset loses exactly one copy when present, nothing otherwise |
| Orders.LinesTotalRemoveFirst | src/main/java/com/solstice/orderorderlines/model/Order.java:99-102 | removing a present line lowers the sum by its total; removing an absent one changes nothing |
| Orders.RemoveOrderLineItem | src/main/java/com/solstice/orderorderlines/model/Order.java:99-102 | the first occurrence is removed and the total is recomputed over the remaining lines; header kept |
| Orders.SetOrderNumber | src/main/java/com/solstice/orderorderlines/model/Order.java:57-59 | only the order number changes; lines and cached total are kept |
| Orders.SetAccountId | src/main/java/com/solstice/orderorderlines/model/Order.java:65-67 | only the account id changes; lines and cached total are kept |
| Orders.SetOrderDate | src/main/java/com/solstice/orderorderlines/model/Order.java:73-75 | only the order date changes; lines and cached total are kept |
| Orders.SetShippingAddressId | src/main/java/com/solstice/orderorderlines/model/Order.java:81-83 | only the shipping address id changes; lines and cached total are kept |
| Gateways.WithAddressFallback | src/main/java/com/solstice/orderorderlines/external/AccountAddressClient.java:21-23 | a failed account call is answered with the blank address; a successful one with the service's answer |
| Gateways.ProductName | src/main/java/com/solstice/orderorderlines/service/OrderOrderLineService.java:184 | the product's name, or the empty string when the catalogue has no product |
| Pricing.SetPrice | src/main/java/com/solstice/orderorderlines/service/OrderOrderLineService.java:173-176 | the line takes its product's catalogue price and a consistent total; id, product, quantity and shipment are kept |
| Pricing.PriceLines | src/main/java/com/solstice/orderorderlines/service/OrderOrderLineService.java:166-169 | every line is priced in place and in order; the lines' sum equals the reference sum of catalogue price times quantity |
| Pricing.SetPrices | src/main/java/com/solstice/orderorderlines/service/OrderOrderLineService.java:165-171 | every line carries its product's price and the order total equals the sum of catalogue price times quantity; header kept |
| Pricing.SetPriceIdempotent | src/main/java/com/solstice/orderorderlines/service/OrderOrderLineService.java:173-176 | pricing a priced line again changes nothing |
| Pricing.SetPricesIdempotent | src/main/java/com/solstice/orderorderlines/service/OrderOrderLineService.java:165-171 | pricing a priced order again changes nothing |
| OrderDetails.OrderLineSummaries | src/main/java/com/solstice/orderorderlines/service/OrderOrderLineService.java:178-190 | one summary per line, in order; entry i has line i's quantity and its product's name, or the empty string |
| OrderDetails.ShippedWith | src/main/java/com/solstice/orderorderlines/service/OrderOrderLineService.java:145-148 | the filter keeps exactly the lines with the given shipment id, each with its multiplicity |
| OrderDetails.ShippedWithConcat | src/main/java/com/solstice/orderorderlines/service/OrderOrderLineService.java:145-148 | the filter preserves order: it distributes over concatenation |
| OrderDetails.BuildShipments | src/main/java/com/solstice/orderorderlines/service/OrderOrderLineService.java:140-151 | one entry per line; entry i is the shipment answer for line i, carrying the summaries of exactly the lines whose shipment id equals that answer's id |
| OrderDetails.DetailOf | src/main/java/com/solstice/orderorderlines/service/OrderOrderLineService.java:134-159 | a detail carries the order number, the address for (account id, shipping address id), the computed total, per-line summaries and per-line shipments of the re-read lines |
| OrderDetails.DetailsOf | src/main/java/com/solstice/orderorderlines/service/OrderOrderLineService.java:132-160 | one detail per order, in the same order |
| OrderDetails.GetOrderDetails | src/main/java/com/solstice/orderorderlines/service/OrderOrderLineService.java:128-163 | as many details as the account query returns orders, in its order, each with number, address and total of its order; none for an account without orders |
| OrderDetails.DetailsOfConcat | src/main/java/com/solstice/orderorderlines/service/OrderOrderLineService.java:132-160 | details of concatenated order lists are the concatenated details |
| OrderDetails.AddressOutageGivesBlankAddress | src/main/java/com/solstice/orderorderlines/service/OrderOrderLineService.java:134-135 | with the account service down, every order still gets a detail, with the blank address |
| OrderDetails.UnknownProductsGiveEmptyNames | src/main/java/com/solstice/orderorderlines/service/OrderOrderLineService.java:182-184 | when the catalogue answers null for every product, every line still gets a summary, with an empty name |
| OrderDetails.NoLinesNoShipments | src/main/java/com/solstice/orderorderlines/service/OrderOrderLineService.java:137-151 | an order whose re-read line list is empty gets no summaries and no shipments |
| OrderDetails.SameShipmentSameEntry | src/main/java/com/solstice/orderorderlines/service/OrderOrderLineService.java:141-151 | entries are per line, not per distinct shipment: two lines with the same shipment id get identical entries, given that the shipment service answers one id alike on each call |
| OrderDetails.EntryGroupsItsOwnLine | src/main/java/com/solstice/orderorderlines/service/OrderOrderLineService.java:141-151 | when the shipment service answers the id asked for, a line's entry groups that line's own summary |
| Commands.UpdateOrder | src/main/java/com/solstice/orderorderlines/service/OrderOrderLineService.java:66-75 | a null payload or unknown id answers None and stores nothing; otherwise the priced payload, renumbered to the path id, replaces that order and nothing else |
| Commands.DeleteOrder | src/main/java/com/solstice/orderorderlines/service/OrderOrderLineService.java:77-83 | an unknown id answers None and deletes nothing; otherwise the order as it was is answered and only its key is removed |
| Commands.DeleteAfterUpdate | src/main/java/com/solstice/orderorderlines/service/OrderOrderLineService.java:66-83 | deleting an order just updated answers the updated order and removes only its key |
| Commands.CreateOrderLineItem | src/main/java/com/solstice/orderorderlines/service/OrderOrderLineService.java:89-99 | an unknown order answers None and stores nothing; otherwise exactly one priced line is appended to that order, its total grows by that line's total, and no other order changes |
| Commands.UpdateOrderLineItem | src/main/java/com/solstice/orderorderlines/service/OrderOrderLineService.java:101-113 | an unknown (line, order) pair answers None and stores nothing; otherwise the priced payload is given the order id as its id and stored under (order id, order id) |
| Commands.UpdateOrderLineItemIntended | src/main/java/com/solstice/orderorderlines/service/OrderOrderLineService.java:101-113 | corrected form: the priced payload keeps the line id and replaces exactly the line found |
| Commands.UpdatesAgreeWhenIdsCoincide | src/main/java/com/solstice/orderorderlines/service/OrderOrderLineService.java:109 | the written and corrected updates agree whenever line id and order id coincide |
| Commands.UpdateOrderLineItemMissesTarget | src/main/java/com/solstice/orderorderlines/service/OrderOrderLineService.java:109 | updating line 2 of order 1 as written leaves line (2, 1) untouched and writes a line with id 1 under (1, 1) |
| Commands.Rebuilt | src/main/java/com/solstice/orderorderlines/model/OrderLineItem.java:15-29 | the line the lookup query builds keeps the stored line's product, quantity, price and shipment, has id 0 and a consistent total, whatever the stored id and cache were |
| Commands.DeleteOrderLineItem | src/main/java/com/solstice/orderorderlines/service/OrderOrderLineService.java:115-122 | as written: an unknown (line, order) pair answers None and deletes nothing; otherwise the rebuilt line is answered and only the key (0, order id) that its id names is removed, so a found line with a non-zero id stays exactly as it was |
| Commands.DeleteOrderLineItemIntended | src/main/java/com/solstice/orderorderlines/service/OrderOrderLineService.java:115-122 | corrected form: the same answers, and exactly the found key is removed |
| Commands.DeletesAgreeOnIdZero | src/main/java/com/solstice/orderorderlines/service/OrderOrderLineService.java:119 | the written and corrected deletes agree when the line id is 0 |
| Commands.DeleteOrderLineItemKeepsTarget | src/main/java/com/solstice/orderorderlines/service/OrderOrderLineService.java:115-122 | deleting stored line (2, 5, 3, 10.0, stale total 0.0, 7) of order 1 answers id 0 with total 30.0; as written the table is unchanged, as intended it is emptied |
| Commands.DeleteOrderLineItemRepeats | src/main/java/com/solstice/orderorderlines/service/OrderOrderLineService.java:115-122 | as written, a second delete of a line with a non-zero id finds it again and answers the same |
| Commands.DeleteOrderLineItemIntendedTwice | src/main/java/com/solstice/orderorderlines/service/OrderOrderLineService.java:115-122 | as intended, a second delete of the same line finds nothing and changes nothing |

## Left out

- HTTP controller: it maps empty and absent results to 404 and 400 responses. That is transport, and the model keeps the absent/empty distinction in `Option` and `seq` results.
- JSON parsing: payloads arrive as parsed values. The `IOException` for a malformed body is not modelled. `Commands.UpdateOrder` does keep the null payload that parsing the text `null` produces.
- Feign clients and the Hystrix fallback mechanism: they become lookup functions. `Gateways.WithAddressFallback` models the account client's one fallback.
- Failing product and shipment calls: neither client has a fallback (external/ProductClient.java:8-12, external/ShipmentClient.java:9-13). A failed call throws, and the exception aborts the whole of `getOrderDetails`, `setPrices` or the command. The lookups here are total functions and cannot express that. A catalogue answer of null is modelled: `Gateways.ProductName` gives the empty name, and pricing requires a known product.
- Changing remote answers within one request: the service calls the product service once per line for the order's summaries and again for every shipment grouping (service/OrderOrderLineService.java:182), and the shipment service once per line (:142). The model fixes each lookup for the duration of a request, so the same id always gets the same answer. OrderDetails.SameShipmentSameEntry depends on this.
- JPA persistence: identity generation, cascade and orphan removal are not modelled. Neither is the join between the order table and the line-item table. The order table and the line-item table are separate maps.
- The account query's ordering by date: the query is an input (`OrderDetails.Sources.ordersByAccount`), and its definition is not part of this model.
- `createOrder`: it prices the payload, which is `Pricing.SetPrices`, and then saves it under a generated identity, which is not modelled.
- `getOrders`, `getOrderById`, `getOrderLineItems` and `getOrdersByAccountId`: plain repository pass-throughs with no logic.
- Logging, the application bootstrap, and concurrency. The service is synchronous and single-request.
- Floating point: Java `double` rounding is replaced by exact reals.
- Integer width: 32-bit quantities and 64-bit ids are unbounded here. No arithmetic on them can wrap; only the quantity is multiplied, and that happens as a double.
- `Product.java` is not part of this model. The service reads only a product's name and price; `Records.Product` also keeps its id.
- Orders.RemoveFirst: uses value equality. Java's `List.remove` compares line items by reference, because `OrderLineItem` does not override `equals`. Among equal-valued lines, a different one may be removed than in Java. And a line equal in value to a stored line but a different object is removed by the model, while `List.remove` removes nothing.
- OrderDetails.BuildShipments: each shipment answer is a fresh value. A client that returned one shared object for several ids would have every alias show the grouping set last. The tests' mock does this.
- Commands.UpdateOrderLineItem: the re-saved line is filed under its own id within the path's order. The line-item entity does not map the order join column, so which order the saved row belongs to is not modelled.
- Commands.DeleteOrderLineItem: the delete is handed the rebuilt entity with id 0. The model follows the save convention and removes the row that id names, (0, order id). Line ids are generated, so no stored line normally has id 0, and the table stays unchanged. What the persistence layer does with an unsaved id-0 entity beyond that is not modelled.
- Order line lists that are null: adding, removing and pricing dereference the list, so those operations require it to be present.

## Findings

| source | as written | input that shows it | evidently intended | confidence | as-written member | corrected member |
|---|---|---|---|---|---|---|
| src/main/java/com/solstice/orderorderlines/service/OrderOrderLineService.java:109 | `updateOrderLineItem` gives the priced payload the order id as its own id before saving | order id 1, line id 2, with line (2, 1) stored: line (2, 1) stays as it was and a line with id 1 is written | the payload takes the line id (2) and replaces line (2, 1) | medium; not executed | Commands.UpdateOrderLineItemMissesTarget | Commands.UpdateOrderLineItemIntended |
| src/main/java/com/solstice/orderorderlines/service/OrderOrderLineService.java:119 | `deleteOrderLineItem` deletes the entity the lookup query built, which has id 0, not the stored line | order id 1, line id 2, with line (2, 1) stored: the rebuilt line is answered and line (2, 1) stays, so a second delete finds it again | the found line (2, 1) is removed | medium; not executed | Commands.DeleteOrderLineItemKeepsTarget | Commands.DeleteOrderLineItemIntended |
