/** Value types shared by the order coordinator (OrderService) and the
    reservation worker (OrderItemsReserver), and the outcome of an outbound
    HTTP call. */
module Domain {

  /** A C# `decimal` amount, kept exact as a whole number of minor currency
      units (cents). */
  type Money = int

  datatype Option<T> = None | Some(value: T)

  datatype Address = Address(
    street: string,
    city: string,
    state: string,
    country: string,
    zipCode: string)

  /** Snapshot of a catalog item taken when the order is built. */
  datatype CatalogItemOrdered = CatalogItemOrdered(
    catalogItemId: int,
    productName: string,
    pictureUri: string)

  /** One line of an order; `id` is assigned by the order store (0 before). */
  datatype OrderItem = OrderItem(
    id: int,
    itemOrdered: CatalogItemOrdered,
    unitPrice: Money,
    units: int)

  /** The reduced item view carried by the warehouse event. */
  datatype OrderItemDto = OrderItemDto(id: int, name: string, units: int)

  /** The warehouse event: published by the coordinator on the "eshop" queue
      and consumed by the reservation worker. Both sides declare the same
      shape, so the message round trip is the identity in this model. */
  datatype OrderToWarehouse = OrderToWarehouse(orderId: int, items: seq<OrderItemDto>)

  /** The body posted to the delivery intake function. */
  datatype DeliveryInfoDto = DeliveryInfoDto(
    price: Money,
    shippingAddress: Address,
    items: seq<OrderItem>)

  /** What an outbound HTTP POST produced: a status code, or an exception
      from the transport before any status arrived. */
  datatype HttpResponse = Status(code: int) | TransportError

  /** `EnsureSuccessStatusCode` passes exactly for the 2xx codes: a status
      arrived and its class (the hundreds digit) is 2. */
  predicate IsSuccessStatus(r: HttpResponse): (ok: bool)
    ensures ok <==> r.Status? && r.code / 100 == 2
  {
    r.Status? && 200 <= r.code <= 299
  }
}
