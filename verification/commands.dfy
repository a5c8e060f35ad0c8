/** The service's find-then-act commands on orders and line items. The order table is
    a map from order number to order, the line-item table a map keyed by
    (line id, order id), which is how the service looks line items up. Every command
    first looks its target up; a miss answers `None` and leaves the table as it was.
    Request bodies arrive already parsed. */
module Commands {
  import opened Wrappers
  import opened LineItems
  import opened Orders
  import opened Gateways
  import opened Pricing

  type OrderStore = map<int, Order>

  /** Line items keyed by (line id, order id). */
  type LineStore = map<(int, int), LineItem>

  /** What a command answers and the table it leaves behind. */
  datatype Reply<S, T> = Reply(value: Option<T>, store: S)

  /** `after` agrees with `before` on every key other than `key`. */
  predicate UnchangedExcept<K, V(==)>(before: map<K, V>, after: map<K, V>, key: K) {
    forall k :: k in before && k != key ==> k in after && after[k] == before[k]
  }

  /** Replaces an existing order: the payload is priced from the catalogue, takes the
      path's order number whatever number it carried, and is stored under it. A null
      payload or an unknown order number answers `None` and stores nothing. */
  function UpdateOrder(products: ProductLookup, store: OrderStore, id: int, payload: Option<Order>)
    : (r: Reply<OrderStore, Order>)
    requires payload.Some? && id in store ==>
      payload.value.lines.Some? && AllPriceable(products, payload.value.lines.value)
    ensures payload.None? || id !in store ==> r.value.None? && r.store == store
    ensures payload.Some? && id in store ==>
      && r.value.Some?
      && var p := payload.value;
         var u := r.value.value;
         && u.orderNumber == id
         && u.accountId == p.accountId && u.orderDate == p.orderDate
         && u.shippingAddressId == p.shippingAddressId
         && u.lines.Some? && |u.lines.value| == |p.lines.value|
         && (forall i :: 0 <= i < |p.lines.value| ==>
               PricedFrom(products, u.lines.value[i], p.lines.value[i]))
         && u.totalPrice == CatalogueTotal(products, p.lines.value)
         && Valid(u)
         && r.store.Keys == store.Keys
         && r.store[id] == u
         && UnchangedExcept(store, r.store, id)
  {
    if payload.None? || id !in store then Reply(None, store)
    else
      var u := SetOrderNumber(SetPrices(products, payload.value), id);
      Reply(Some(u), store[id := u])
  }

  /** Deletes an order and answers the order as it was; an unknown order number
      answers `None` and deletes nothing. */
  function DeleteOrder(store: OrderStore, id: int): (r: Reply<OrderStore, Order>)
    ensures id !in store ==> r.value.None? && r.store == store
    ensures id in store ==>
      && r.value == Some(store[id])
      && r.store.Keys == store.Keys - {id}
      && UnchangedExcept(store, r.store, id)
  {
    if id !in store then Reply(None, store)
    else Reply(Some(store[id]), store - {id})
  }

  /** After a successful update, deleting the same order answers the updated order
      and leaves the other orders as they were before the update. */
  lemma DeleteAfterUpdate(products: ProductLookup, store: OrderStore, id: int, payload: Option<Order>)
    requires payload.Some? && id in store
    requires payload.value.lines.Some? && AllPriceable(products, payload.value.lines.value)
    ensures var updated := UpdateOrder(products, store, id, payload);
      && DeleteOrder(updated.store, id).value == updated.value
      && DeleteOrder(updated.store, id).store == store - {id}
  {
  }

  /** Adds a line to an existing order: the payload is priced from the catalogue,
      appended to that order's lines, the order's total grows by the line's total, and
      the priced line is the answer. An unknown order number answers `None` and stores
      nothing. */
  function CreateOrderLineItem(products: ProductLookup, store: OrderStore, orderId: int, payload: LineItem)
    : (r: Reply<OrderStore, LineItem>)
    requires orderId in store ==>
      store[orderId].lines.Some? && products(payload.productId).Some?
    ensures orderId !in store ==> r.value.None? && r.store == store
    ensures orderId in store ==>
      && r.value.Some?
      && PricedFrom(products, r.value.value, payload)
      && r.store.Keys == store.Keys
      && UnchangedExcept(store, r.store, orderId)
      && var before := store[orderId];
         var after := r.store[orderId];
         && SameHeader(after, before)
         && after.lines.Some?
         && SameLineList(after.lines.value, before.lines.value + [r.value.value])
         && after.totalPrice == TotalOf(before.lines) + Total(r.value.value)
         && Valid(after)
         && (Valid(before) ==> after.lines == Some(before.lines.value + [r.value.value]))
  {
    if orderId !in store then Reply(None, store)
    else
      var item := Pricing.SetPrice(products, payload);
      Reply(Some(item), store[orderId := AddOrderLineItem(store[orderId], item)])
  }

  /** Replaces an existing line item, as written: the payload is priced from the
      catalogue and then given the ORDER id as its own id before it is saved, so it is
      stored under (order id, order id) rather than over the line that was found. An
      unknown (line id, order id) pair answers `None` and stores nothing. */
  function UpdateOrderLineItem(products: ProductLookup, lines: LineStore, orderId: int, lineId: int, payload: LineItem)
    : (r: Reply<LineStore, LineItem>)
    requires (lineId, orderId) in lines ==> products(payload.productId).Some?
    ensures (lineId, orderId) !in lines ==> r.value.None? && r.store == lines
    ensures (lineId, orderId) in lines ==>
      && r.value.Some?
      && var u := r.value.value;
         && u.id == orderId
         && u.productId == payload.productId && u.quantity == payload.quantity
         && u.shipmentId == payload.shipmentId
         && u.price == products(payload.productId).value.price
         && Consistent(u)
         && r.store.Keys == lines.Keys + {(orderId, orderId)}
         && r.store[(orderId, orderId)] == u
         && UnchangedExcept(lines, r.store, (orderId, orderId))
  {
    if (lineId, orderId) !in lines then Reply(None, lines)
    else
      var u := SetId(Pricing.SetPrice(products, payload), orderId);
      Reply(Some(u), lines[(u.id, orderId) := u])
  }

  /** The line-item update as evidently intended: the priced payload keeps the path's
      line id and replaces exactly the line that was found. */
  function UpdateOrderLineItemIntended(products: ProductLookup, lines: LineStore, orderId: int, lineId: int, payload: LineItem)
    : (r: Reply<LineStore, LineItem>)
    requires (lineId, orderId) in lines ==> products(payload.productId).Some?
    ensures (lineId, orderId) !in lines ==> r.value.None? && r.store == lines
    ensures (lineId, orderId) in lines ==>
      && r.value.Some?
      && var u := r.value.value;
         && u.id == lineId
         && u.productId == payload.productId && u.quantity == payload.quantity
         && u.shipmentId == payload.shipmentId
         && u.price == products(payload.productId).value.price
         && Consistent(u)
         && r.store.Keys == lines.Keys
         && r.store[(lineId, orderId)] == u
         && UnchangedExcept(lines, r.store, (lineId, orderId))
  {
    if (lineId, orderId) !in lines then Reply(None, lines)
    else
      var u := SetId(Pricing.SetPrice(products, payload), lineId);
      Reply(Some(u), lines[(u.id, orderId) := u])
  }

  /** The two agree whenever the line id happens to equal the order id. */
  lemma UpdatesAgreeWhenIdsCoincide(products: ProductLookup, lines: LineStore, id: int, payload: LineItem)
    requires (id, id) in lines ==> products(payload.productId).Some?
    ensures UpdateOrderLineItem(products, lines, id, id, payload)
         == UpdateOrderLineItemIntended(products, lines, id, id, payload)
  {
  }

  /** Updating line 2 of order 1 as written leaves line 2 exactly as it was and
      writes the new line under (1, 1) instead. */
  lemma UpdateOrderLineItemMissesTarget(products: ProductLookup, found: LineItem, payload: LineItem)
    requires products(payload.productId).Some?
    ensures var r := UpdateOrderLineItem(products, map[(2, 1) := found], 1, 2, payload);
      && r.value.Some?
      && r.store.Keys == {(2, 1), (1, 1)}
      && r.store[(2, 1)] == found
      && r.value.value.id == 1
    ensures var r := UpdateOrderLineItemIntended(products, map[(2, 1) := found], 1, 2, payload);
      && r.store.Keys == {(2, 1)}
      && r.store[(2, 1)] == r.value.value
      && r.value.value.id == 2
  {
  }

  /** The line the lookup query builds for a stored line: it selects only the product,
      quantity, price and shipment columns and passes them to the priced constructor,
      so the result carries id 0 and a freshly computed total, whatever the stored line
      held. */
  function Rebuilt(found: LineItem): (d: LineItem)
    ensures d.id == 0
    ensures d.productId == found.productId && d.quantity == found.quantity
    ensures d.price == found.price && d.shipmentId == found.shipmentId
    ensures Consistent(d)
  {
    NewLineItem(found.productId, found.quantity, found.price, found.shipmentId)
  }

  /** Deletes a line item, as written: the entity handed to the delete is the one the
      lookup query rebuilt, whose id is 0, so under the same convention as the save it
      identifies the row (0, order id) and not the line that was found. The rebuilt
      line is the answer. An unknown (line id, order id) pair answers `None` and
      deletes nothing. */
  function DeleteOrderLineItem(lines: LineStore, orderId: int, lineId: int): (r: Reply<LineStore, LineItem>)
    ensures (lineId, orderId) !in lines ==> r.value.None? && r.store == lines
    ensures (lineId, orderId) in lines ==>
      && r.value == Some(Rebuilt(lines[(lineId, orderId)]))
      && r.store.Keys == lines.Keys - {(0, orderId)}
      && UnchangedExcept(lines, r.store, (0, orderId))
      && (lineId != 0 ==> (lineId, orderId) in r.store && r.store[(lineId, orderId)] == lines[(lineId, orderId)])
  {
    if (lineId, orderId) !in lines then Reply(None, lines)
    else
      var d := Rebuilt(lines[(lineId, orderId)]);
      Reply(Some(d), lines - {(d.id, orderId)})
  }

  /** The line-item delete as evidently intended: the line that was found is removed,
      and nothing else. The answer is still the rebuilt line. */
  function DeleteOrderLineItemIntended(lines: LineStore, orderId: int, lineId: int): (r: Reply<LineStore, LineItem>)
    ensures (lineId, orderId) !in lines ==> r.value.None? && r.store == lines
    ensures (lineId, orderId) in lines ==>
      && r.value == Some(Rebuilt(lines[(lineId, orderId)]))
      && r.store.Keys == lines.Keys - {(lineId, orderId)}
      && UnchangedExcept(lines, r.store, (lineId, orderId))
  {
    if (lineId, orderId) !in lines then Reply(None, lines)
    else Reply(Some(Rebuilt(lines[(lineId, orderId)])), lines - {(lineId, orderId)})
  }

  /** The two deletes agree when the line id is 0, the only id the rebuilt entity
      carries. */
  lemma DeletesAgreeOnIdZero(lines: LineStore, orderId: int)
    ensures DeleteOrderLineItem(lines, orderId, 0) == DeleteOrderLineItemIntended(lines, orderId, 0)
  {
  }

  /** Deleting line 2 of order 1 as written answers the rebuilt line (id 0, total
      recomputed from a stale cache) and leaves the table as it was; the intended
      delete empties it. */
  lemma DeleteOrderLineItemKeepsTarget()
    ensures var r := DeleteOrderLineItem(map[(2, 1) := LineItem(2, 5, 3, 10.0, 0.0, 7)], 1, 2);
      && r.value == Some(LineItem(0, 5, 3, 10.0, 30.0, 7))
      && r.store == map[(2, 1) := LineItem(2, 5, 3, 10.0, 0.0, 7)]
    ensures var r := DeleteOrderLineItemIntended(map[(2, 1) := LineItem(2, 5, 3, 10.0, 0.0, 7)], 1, 2);
      && r.value == Some(LineItem(0, 5, 3, 10.0, 30.0, 7))
      && r.store == map[]
  {
  }

  /** As written, a line with a non-zero id survives its delete: a second delete finds
      it again and gives the same answer. */
  lemma DeleteOrderLineItemRepeats(lines: LineStore, orderId: int, lineId: int)
    requires (lineId, orderId) in lines && lineId != 0
    ensures var once := DeleteOrderLineItem(lines, orderId, lineId);
      && DeleteOrderLineItem(once.store, orderId, lineId).value == once.value
      && DeleteOrderLineItem(once.store, orderId, lineId).value.Some?
  {
  }

  /** Deleting the same line item twice as intended: the second call finds nothing and
      changes nothing. */
  lemma DeleteOrderLineItemIntendedTwice(lines: LineStore, orderId: int, lineId: int)
    ensures var once := DeleteOrderLineItemIntended(lines, orderId, lineId);
      && DeleteOrderLineItemIntended(once.store, orderId, lineId).value.None?
      && DeleteOrderLineItemIntended(once.store, orderId, lineId).store == once.store
  {
  }
}
