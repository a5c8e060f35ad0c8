/** The remote collaborators, reduced to the lookups the service makes. A lookup is a
    plain function: the model fixes what each collaborator answers for the duration of
    one call into the service. */
module Gateways {
  import opened Wrappers
  import opened Records

  /** Address by (account id, address id). Total: the client has a fallback. */
  type AddressLookup = (int, int) -> Address

  /** Product by id; `None` when the catalogue has no answer. */
  type ProductLookup = int -> Option<Product>

  /** Shipment by id. Total: the client has no fallback, and the aggregator uses the
      answer without a null check. */
  type ShipmentLookup = int -> Shipment

  /** The account client with its fallback: a remote call that fails (`None`) is
      answered with the blank address. */
  function WithAddressFallback(remote: (int, int) -> Option<Address>): (lookup: AddressLookup)
    ensures forall accountId, addressId ::
      remote(accountId, addressId).None? ==> lookup(accountId, addressId) == EmptyAddress
    ensures forall accountId, addressId ::
      remote(accountId, addressId).Some? ==> lookup(accountId, addressId) == remote(accountId, addressId).value
  {
    (accountId, addressId) => remote(accountId, addressId).GetOr(EmptyAddress)
  }

  /** The product name shown in a line summary: the empty string when the product
      lookup has no answer. */
  function ProductName(products: ProductLookup, productId: int): (name: string)
    ensures products(productId).Some? ==> name == products(productId).value.name
    ensures products(productId).None? ==> name == ""
  {
    match products(productId)
    case Some(p) => p.name
    case None => ""
  }
}
