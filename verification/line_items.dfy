/** One line of an order: a product, a quantity, the unit price copied from the
    product catalogue, the shipment the line travels in, and the line total that the
    entity caches. Every accessor that can change price or quantity, and the total's
    own getter, recompute the cache as price times quantity. */
module LineItems {

  /** The order-line entity. `totalPrice` is the cached derived value; `id` is 0 until
      the store assigns one. */
  datatype LineItem = LineItem(
    id: int,
    productId: int,
    quantity: int,
    price: real,
    totalPrice: real,
    shipmentId: int)

  /** What the entity's total accessor computes: unit price times quantity. */
  function Total(item: LineItem): real {
    item.price * item.quantity as real
  }

  /** The entity invariant: the cached total agrees with price times quantity. */
  predicate Consistent(item: LineItem) {
    item.totalPrice == Total(item)
  }

  /** `a` and `b` agree on every stored field except, possibly, the cached total. */
  predicate SameExceptTotal(a: LineItem, b: LineItem) {
    && a.id == b.id
    && a.productId == b.productId
    && a.quantity == b.quantity
    && a.price == b.price
    && a.shipmentId == b.shipmentId
  }

  /** Two consistent items that agree on the stored fields are the same item. */
  lemma ConsistentDeterminedByFields(a: LineItem, b: LineItem)
    requires Consistent(a) && Consistent(b) && SameExceptTotal(a, b)
    ensures a == b
  {
  }

  /** Refreshes the cached total. */
  function SetTotalPrice(item: LineItem): (r: LineItem)
    ensures Consistent(r)
    ensures SameExceptTotal(r, item)
  {
    item.(totalPrice := Total(item))
  }

  /** Reads the total: the getter recomputes the cache first, so the value returned
      never depends on what the cache held before. The first component is the entity
      as left by the call. */
  function GetTotalPrice(item: LineItem): (r: (LineItem, real))
    ensures r.1 == item.price * item.quantity as real
    ensures r.0.totalPrice == r.1
    ensures SameExceptTotal(r.0, item)
  {
    var refreshed := SetTotalPrice(item);
    (refreshed, refreshed.totalPrice)
  }

  /** A stale cache is invisible through the getter: items that differ only in their
      cached total read the same total and are left identical. */
  lemma GetTotalPriceIgnoresCache(a: LineItem, b: LineItem)
    requires SameExceptTotal(a, b)
    ensures GetTotalPrice(a) == GetTotalPrice(b)
  {
    ConsistentDeterminedByFields(GetTotalPrice(a).0, GetTotalPrice(b).0);
  }

  /** Sets the quantity and recomputes the total with the new quantity. */
  function SetQuantity(item: LineItem, quantity: int): (r: LineItem)
    ensures r.quantity == quantity
    ensures r.totalPrice == item.price * quantity as real
    ensures Consistent(r)
    ensures r.id == item.id && r.productId == item.productId
    ensures r.price == item.price && r.shipmentId == item.shipmentId
  {
    SetTotalPrice(item.(quantity := quantity))
  }

  /** Sets the unit price and recomputes the total with the new price. */
  function SetPrice(item: LineItem, price: real): (r: LineItem)
    ensures r.price == price
    ensures r.totalPrice == price * item.quantity as real
    ensures Consistent(r)
    ensures r.id == item.id && r.productId == item.productId
    ensures r.quantity == item.quantity && r.shipmentId == item.shipmentId
  {
    SetTotalPrice(item.(price := price))
  }

  /** Setting price and quantity gives the same line in either order. */
  lemma SetPriceSetQuantityCommute(item: LineItem, price: real, quantity: int)
    ensures SetPrice(SetQuantity(item, quantity), price)
         == SetQuantity(SetPrice(item, price), quantity)
  {
  }

  /** The constructor taking a price: the total is computed at once; the id stays 0. */
  function NewLineItem(productId: int, quantity: int, price: real, shipmentId: int): (r: LineItem)
    ensures r.id == 0
    ensures r.productId == productId && r.quantity == quantity
    ensures r.price == price && r.shipmentId == shipmentId
    ensures r.totalPrice == price * quantity as real
  {
    SetTotalPrice(LineItem(0, productId, quantity, price, 0.0, shipmentId))
  }

  /** The constructor without a price: price and cached total keep their zero
      defaults, so the line reads a total of 0 until a price is set. */
  function NewUnpricedLineItem(productId: int, quantity: int, shipmentId: int): (r: LineItem)
    ensures r.id == 0
    ensures r.productId == productId && r.quantity == quantity && r.shipmentId == shipmentId
    ensures r.price == 0.0 && r.totalPrice == 0.0
    ensures Consistent(r)
    ensures GetTotalPrice(r).1 == 0.0
  {
    LineItem(0, productId, quantity, 0.0, 0.0, shipmentId)
  }

  /** Pricing an unpriced line afterwards gives the same line as the priced
      constructor. */
  lemma PricingUnpricedLine(productId: int, quantity: int, price: real, shipmentId: int)
    ensures SetPrice(NewUnpricedLineItem(productId, quantity, shipmentId), price)
         == NewLineItem(productId, quantity, price, shipmentId)
  {
  }

  /** Sets the id; nothing else, the cached total included, changes. */
  function SetId(item: LineItem, id: int): (r: LineItem)
    ensures r.id == id
    ensures r.productId == item.productId && r.quantity == item.quantity
    ensures r.price == item.price && r.shipmentId == item.shipmentId
    ensures r.totalPrice == item.totalPrice
    ensures Consistent(r) <==> Consistent(item)
  {
    item.(id := id)
  }

  /** Sets the product reference; price, quantity and total are untouched. */
  function SetProductId(item: LineItem, productId: int): (r: LineItem)
    ensures r.productId == productId
    ensures r.id == item.id && r.quantity == item.quantity
    ensures r.price == item.price && r.shipmentId == item.shipmentId
    ensures r.totalPrice == item.totalPrice
    ensures Consistent(r) <==> Consistent(item)
  {
    item.(productId := productId)
  }

  /** Sets the shipment reference; price, quantity and total are untouched. */
  function SetShipmentId(item: LineItem, shipmentId: int): (r: LineItem)
    ensures r.shipmentId == shipmentId
    ensures r.id == item.id && r.productId == item.productId
    ensures r.quantity == item.quantity && r.price == item.price
    ensures r.totalPrice == item.totalPrice
    ensures Consistent(r) <==> Consistent(item)
  {
    item.(shipmentId := shipmentId)
  }
}
