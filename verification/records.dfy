/** The plain records the service exchanges with its collaborators and returns from
    the order-detail view. Nullable strings are modelled as strings and timestamps as
    opaque integers. */
module Records {
  import opened Wrappers

  /** A shipping address as the account service returns it. */
  datatype Address = Address(
    id: int,
    street: string,
    apartment: string,
    city: string,
    state: string,
    zip: string,
    country: string)

  /** The address the account client's fallback builds when the account service
      cannot be reached: every text field blank, the id at its default 0. */
  const EmptyAddress: Address := Address(0, "", "", "", "", "", "")

  /** A catalogue product: its id, and the name and price the service reads. */
  datatype Product = Product(id: int, name: string, price: real)

  /** The externally visible projection of a line: product name and quantity. */
  datatype OrderLineSummary = OrderLineSummary(productName: string, quantity: int)

  /** A shipment as the shipment service returns it; `lines` is the grouping of line
      summaries the aggregator attaches, `None` until it does. */
  datatype Shipment = Shipment(
    id: int,
    accountId: int,
    shippingAddressId: int,
    lines: Option<seq<OrderLineSummary>>,
    shippedDate: int,
    deliveryDate: int)

  /** The composite view of one order. */
  datatype OrderDetail = OrderDetail(
    orderNumber: int,
    shippingAddress: Address,
    totalPrice: real,
    lineSummaries: seq<OrderLineSummary>,
    shipments: seq<Shipment>)
}
