/** The order-detail view of an account. For every order of the account, in the order
    the store returns them, the service resolves the shipping address, re-reads the
    order's line items from the store, summarises each line with its product's name,
    and builds one shipment entry per line, grouping under it the summaries of the
    lines that belong to that shipment. */
module OrderDetails {
  import opened Wrappers
  import opened LineItems
  import opened Orders
  import opened Records
  import opened Gateways

  /** What the view reads from outside: the store's account query (orders by date)
      and line-item query (by order number), and the three remote lookups. */
  datatype Sources = Sources(
    ordersByAccount: int -> seq<Order>,
    lineItemsOf: int -> seq<LineItem>,
    addresses: AddressLookup,
    products: ProductLookup,
    shipments: ShipmentLookup)

  /** `s` summarises `item`: the product's name, or "" when the catalogue has none, and
      the line's quantity. */
  predicate Summarises(products: ProductLookup, s: OrderLineSummary, item: LineItem) {
    && s.quantity == item.quantity
    && (products(item.productId).Some? ==> s.productName == products(item.productId).value.name)
    && (products(item.productId).None? ==> s.productName == "")
  }

  /** One summary per line, in line order. */
  function OrderLineSummaries(products: ProductLookup, lines: seq<LineItem>): (r: seq<OrderLineSummary>)
    ensures |r| == |lines|
    ensures forall i :: 0 <= i < |lines| ==> Summarises(products, r[i], lines[i])
    decreases |lines|
  {
    if |lines| == 0 then []
    else
      var rest := OrderLineSummaries(products, lines[1..]);
      var r := [OrderLineSummary(ProductName(products, lines[0].productId), lines[0].quantity)] + rest;
      assert r[1..] == rest;
      r
  }

  /** The lines that belong to the shipment with this id, in list order. */
  function ShippedWith(lines: seq<LineItem>, shipmentId: int): (r: seq<LineItem>)
    ensures |r| <= |lines|
    ensures forall x :: x in r <==> x in lines && x.shipmentId == shipmentId
    ensures forall x :: multiset(r)[x] == if x.shipmentId == shipmentId then multiset(lines)[x] else 0
    decreases |lines|
  {
    if |lines| == 0 then []
    else
      var rest := ShippedWith(lines[1..], shipmentId);
      assert lines == [lines[0]] + lines[1..];
      if lines[0].shipmentId == shipmentId then [lines[0]] + rest else rest
  }

  /** The filter is order-preserving: it distributes over concatenation. */
  lemma {:induction false} ShippedWithConcat(a: seq<LineItem>, b: seq<LineItem>, shipmentId: int)
    ensures ShippedWith(a + b, shipmentId) == ShippedWith(a, shipmentId) + ShippedWith(b, shipmentId)
    decreases |a|
  {
    if |a| == 0 {
      assert a + b == b;
    } else {
      assert (a + b)[1..] == a[1..] + b;
      ShippedWithConcat(a[1..], b, shipmentId);
    }
  }

  /** `r` is the shipment service's answer `remote`, unchanged except that it now
      carries the summaries of exactly the fetched lines whose shipment id equals the
      answer's own id. */
  predicate Grouped(products: ProductLookup, fetched: seq<LineItem>, remote: Shipment, r: Shipment) {
    && r.id == remote.id
    && r.accountId == remote.accountId
    && r.shippingAddressId == remote.shippingAddressId
    && r.shippedDate == remote.shippedDate
    && r.deliveryDate == remote.deliveryDate
    && r.lines.Some?
    && var group := ShippedWith(fetched, remote.id);
       |r.lines.value| == |group|
       && forall k :: 0 <= k < |group| ==> Summarises(products, r.lines.value[k], group[k])
  }

  /** One shipment entry per line in `items`: the shipment the line references, with
      its group of summaries drawn from `fetched`. */
  function BuildShipments(products: ProductLookup, shipments: ShipmentLookup,
                          fetched: seq<LineItem>, items: seq<LineItem>): (r: seq<Shipment>)
    ensures |r| == |items|
    ensures forall i :: 0 <= i < |items| ==>
      Grouped(products, fetched, shipments(items[i].shipmentId), r[i])
    decreases |items|
  {
    if |items| == 0 then []
    else
      var remote := shipments(items[0].shipmentId);
      var entry := remote.(lines := Some(OrderLineSummaries(products, ShippedWith(fetched, remote.id))));
      var rest := BuildShipments(products, shipments, fetched, items[1..]);
      var r := [entry] + rest;
      assert r[1..] == rest;
      r
  }

  /** The detail of one order. */
  function DetailOf(src: Sources, o: Order): (d: OrderDetail)
    ensures d.orderNumber == o.orderNumber
    ensures d.shippingAddress == src.addresses(o.accountId, o.shippingAddressId)
    ensures d.totalPrice == TotalOf(o.lines)
    ensures var fetched := src.lineItemsOf(o.orderNumber);
      && |d.lineSummaries| == |fetched|
      && (forall i :: 0 <= i < |fetched| ==> Summarises(src.products, d.lineSummaries[i], fetched[i]))
      && |d.shipments| == |fetched|
      && (forall i :: 0 <= i < |fetched| ==>
            Grouped(src.products, fetched, src.shipments(fetched[i].shipmentId), d.shipments[i]))
  {
    var address := src.addresses(o.accountId, o.shippingAddressId);
    var fetched := src.lineItemsOf(o.orderNumber);
    var shipments := BuildShipments(src.products, src.shipments, fetched, fetched);
    OrderDetail(o.orderNumber, address, Orders.GetTotalPrice(o).1,
                OrderLineSummaries(src.products, fetched), shipments)
  }

  /** The details of a sequence of orders, one per order, in the same order. */
  function DetailsOf(src: Sources, orders: seq<Order>): (r: seq<OrderDetail>)
    ensures |r| == |orders|
    ensures forall i :: 0 <= i < |orders| ==> r[i] == DetailOf(src, orders[i])
    decreases |orders|
  {
    if |orders| == 0 then []
    else
      var rest := DetailsOf(src, orders[1..]);
      var r := [DetailOf(src, orders[0])] + rest;
      assert r[1..] == rest;
      r
  }

  /** The account's order details: exactly one per order the account query returns,
      in the query's order; an account without orders gets an empty list. */
  function GetOrderDetails(src: Sources, accountId: int): (r: seq<OrderDetail>)
    ensures |r| == |src.ordersByAccount(accountId)|
    ensures src.ordersByAccount(accountId) == [] ==> r == []
    ensures forall i :: 0 <= i < |r| ==>
      var o := src.ordersByAccount(accountId)[i];
      && r[i].orderNumber == o.orderNumber
      && r[i].shippingAddress == src.addresses(o.accountId, o.shippingAddressId)
      && r[i].totalPrice == TotalOf(o.lines)
      && r[i] == DetailOf(src, o)
  {
    DetailsOf(src, src.ordersByAccount(accountId))
  }

  /** The details of a concatenation of order lists are the concatenated details. */
  lemma {:induction false} DetailsOfConcat(src: Sources, a: seq<Order>, b: seq<Order>)
    ensures DetailsOf(src, a + b) == DetailsOf(src, a) + DetailsOf(src, b)
    decreases |a|
  {
    if |a| == 0 {
      assert a + b == b;
    } else {
      assert (a + b)[1..] == a[1..] + b;
      DetailsOfConcat(src, a[1..], b);
    }
  }

  /** When the account service is down and the client's fallback answers, every
      detail still exists and carries the blank address. */
  lemma AddressOutageGivesBlankAddress(src: Sources, remote: (int, int) -> Option<Address>, accountId: int)
    requires src.addresses == WithAddressFallback(remote)
    requires forall a, b :: remote(a, b).None?
    ensures |GetOrderDetails(src, accountId)| == |src.ordersByAccount(accountId)|
    ensures forall i :: 0 <= i < |GetOrderDetails(src, accountId)| ==>
      GetOrderDetails(src, accountId)[i].shippingAddress == EmptyAddress
  {
  }

  /** When the catalogue answers null for every product, every summary has an empty
      product name and nothing is dropped. */
  lemma UnknownProductsGiveEmptyNames(src: Sources, o: Order)
    requires forall id :: src.products(id).None?
    ensures |DetailOf(src, o).lineSummaries| == |src.lineItemsOf(o.orderNumber)|
    ensures forall i :: 0 <= i < |DetailOf(src, o).lineSummaries| ==>
      DetailOf(src, o).lineSummaries[i].productName == ""
  {
  }

  /** An order whose store query returns no lines gets empty summaries and no
      shipments. */
  lemma NoLinesNoShipments(src: Sources, o: Order)
    requires src.lineItemsOf(o.orderNumber) == []
    ensures DetailOf(src, o).lineSummaries == []
    ensures DetailOf(src, o).shipments == []
  {
  }

  /** A summary is determined by the line it summarises. */
  lemma SummaryUnique(products: ProductLookup, s: OrderLineSummary, t: OrderLineSummary, item: LineItem)
    requires Summarises(products, s, item) && Summarises(products, t, item)
    ensures s == t
  {
  }

  /** A grouped shipment entry is determined by the answer it was built from. */
  lemma GroupedUnique(products: ProductLookup, fetched: seq<LineItem>, remote: Shipment, a: Shipment, b: Shipment)
    requires Grouped(products, fetched, remote, a) && Grouped(products, fetched, remote, b)
    ensures a == b
  {
    var group := ShippedWith(fetched, remote.id);
    forall k | 0 <= k < |group|
      ensures a.lines.value[k] == b.lines.value[k]
    {
      SummaryUnique(products, a.lines.value[k], b.lines.value[k], group[k]);
    }
    assert a.lines.value == b.lines.value;
  }

  /** Entries are built per line, not per distinct shipment: two lines that reference
      the same shipment yield two identical entries, given that the shipment lookup
      answers the same id alike on every call. */
  lemma SameShipmentSameEntry(src: Sources, o: Order, i: int, j: int)
    requires 0 <= i < |src.lineItemsOf(o.orderNumber)|
    requires 0 <= j < |src.lineItemsOf(o.orderNumber)|
    requires src.lineItemsOf(o.orderNumber)[i].shipmentId == src.lineItemsOf(o.orderNumber)[j].shipmentId
    ensures DetailOf(src, o).shipments[i] == DetailOf(src, o).shipments[j]
  {
    var fetched := src.lineItemsOf(o.orderNumber);
    var d := DetailOf(src, o);
    var remote := src.shipments(fetched[i].shipmentId);
    assert Grouped(src.products, fetched, remote, d.shipments[i]);
    assert Grouped(src.products, fetched, remote, d.shipments[j]);
    GroupedUnique(src.products, fetched, remote, d.shipments[i], d.shipments[j]);
  }

  /** When the shipment service answers with the shipment that was asked for, the
      entry built for a line groups that line's own summary among its lines. */
  lemma EntryGroupsItsOwnLine(src: Sources, o: Order, i: int)
    requires 0 <= i < |src.lineItemsOf(o.orderNumber)|
    requires src.shipments(src.lineItemsOf(o.orderNumber)[i].shipmentId).id
             == src.lineItemsOf(o.orderNumber)[i].shipmentId
    ensures var fetched := src.lineItemsOf(o.orderNumber);
      exists k :: 0 <= k < |DetailOf(src, o).shipments[i].lines.value|
        && Summarises(src.products, DetailOf(src, o).shipments[i].lines.value[k], fetched[i])
  {
    var fetched := src.lineItemsOf(o.orderNumber);
    var group := ShippedWith(fetched, fetched[i].shipmentId);
    assert fetched[i] in group;
    var k :| 0 <= k < |group| && group[k] == fetched[i];
    assert Summarises(src.products, DetailOf(src, o).shipments[i].lines.value[k], fetched[i]);
  }
}
