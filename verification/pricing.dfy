/** The service's pricing step: each line takes its unit price from the product
    catalogue, and the order total is recomputed afterwards. The catalogue answer is
    dereferenced without a null check, so pricing a line whose product the catalogue
    does not know is outside what the service supports; it is a precondition here. */
module Pricing {
  import opened Wrappers
  import opened LineItems
  import opened Orders
  import opened Gateways

  /** The catalogue knows the product of every line. */
  predicate AllPriceable(products: ProductLookup, lines: seq<LineItem>) {
    forall i :: 0 <= i < |lines| ==> products(lines[i].productId).Some?
  }

  /** `r` is `item` with the catalogue's unit price for its product and a consistent
      total; identity, product, quantity and shipment are kept. */
  predicate PricedFrom(products: ProductLookup, r: LineItem, item: LineItem) {
    && products(item.productId).Some?
    && r.id == item.id
    && r.productId == item.productId
    && r.quantity == item.quantity
    && r.shipmentId == item.shipmentId
    && r.price == products(item.productId).value.price
    && Consistent(r)
  }

  /** Reference sum: catalogue unit price times quantity, over the lines. */
  function CatalogueTotal(products: ProductLookup, lines: seq<LineItem>): real
    requires AllPriceable(products, lines)
    decreases |lines|
  {
    if |lines| == 0 then 0.0
    else products(lines[0].productId).value.price * lines[0].quantity as real
         + CatalogueTotal(products, lines[1..])
  }

  /** Prices one line from the catalogue. */
  function SetPrice(products: ProductLookup, item: LineItem): (r: LineItem)
    requires products(item.productId).Some?
    ensures PricedFrom(products, r, item)
    ensures r.totalPrice == products(item.productId).value.price * item.quantity as real
  {
    LineItems.SetPrice(item, products(item.productId).value.price)
  }

  /** Prices every line, in place and in order. */
  function PriceLines(products: ProductLookup, lines: seq<LineItem>): (r: seq<LineItem>)
    requires AllPriceable(products, lines)
    ensures |r| == |lines|
    ensures forall i :: 0 <= i < |lines| ==> PricedFrom(products, r[i], lines[i])
    ensures LinesTotal(r) == CatalogueTotal(products, lines)
    decreases |lines|
  {
    if |lines| == 0 then []
    else
      var rest := PriceLines(products, lines[1..]);
      var r := [SetPrice(products, lines[0])] + rest;
      assert r[1..] == rest;
      r
  }

  /** Prices every line of the order from the catalogue, then recomputes the order
      total, which becomes the catalogue price times quantity summed over the lines.
      The line list must exist: the service iterates over it. */
  function SetPrices(products: ProductLookup, o: Order): (r: Order)
    requires o.lines.Some? && AllPriceable(products, o.lines.value)
    ensures r.lines.Some? && |r.lines.value| == |o.lines.value|
    ensures forall i :: 0 <= i < |o.lines.value| ==>
      PricedFrom(products, r.lines.value[i], o.lines.value[i])
    ensures r.totalPrice == LinesTotal(r.lines.value)
    ensures r.totalPrice == CatalogueTotal(products, o.lines.value)
    ensures SameHeader(r, o)
    ensures Valid(r)
  {
    Orders.SetTotalPrice(o.(lines := Some(PriceLines(products, o.lines.value))))
  }

  /** Pricing a line that was just priced changes nothing. */
  lemma SetPriceIdempotent(products: ProductLookup, item: LineItem)
    requires products(item.productId).Some?
    ensures SetPrice(products, SetPrice(products, item)) == SetPrice(products, item)
  {
  }

  /** Re-pricing an order that was just priced changes nothing. */
  lemma SetPricesIdempotent(products: ProductLookup, o: Order)
    requires o.lines.Some? && AllPriceable(products, o.lines.value)
    ensures SetPrices(products, SetPrices(products, o)) == SetPrices(products, o)
  {
    var once := SetPrices(products, o);
    var twice := SetPrices(products, once);
    var a := once.lines.value;
    var b := twice.lines.value;
    forall i | 0 <= i < |a|
      ensures b[i] == a[i]
    {
      ConsistentDeterminedByFields(b[i], a[i]);
    }
    assert a == b;
  }
}
