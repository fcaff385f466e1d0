/** The order coordinator: `OrderService.CreateOrderAsync` and its helpers.

    The stores, the message bus and the delivery function are collaborators
    whose answers are injected (`Responses`); every call the coordinator
    issues to them with a side effect is recorded, in order, in an effect
    trace. A call that fails is still in the trace (it was issued); the calls
    after it are not. */
module Ordering {
  import opened Domain

  // ---------------------------------------------------------------------------
  // Entities read from the stores

  datatype BasketItem = BasketItem(catalogItemId: int, unitPrice: Money, quantity: int)

  datatype Basket = Basket(id: int, buyerId: string, items: seq<BasketItem>)

  /** A catalog entry. Its `price` is never used by checkout: the order keeps
      the price recorded on the basket line. */
  datatype CatalogItem = CatalogItem(id: int, name: string, price: Money, pictureUri: string)

  /** The order aggregate; `id` is assigned by the order store (0 before). */
  datatype Order = Order(id: int, buyerId: string, shipToAddress: Address, orderItems: seq<OrderItem>)

  /** Name of the Service Bus queue the warehouse event is sent to. */
  const WarehouseQueue := "eshop"

  // ---------------------------------------------------------------------------
  // Injected collaborator answers, errors and effects

  /** The order store either saves the order, assigning the order id and an id
      for the item at each position, or throws. */
  datatype OrderStoreResponse = Saved(orderId: int, itemIdAt: nat -> int) | SaveFailed

  datatype BusResponse = Accepted | SendFailed

  /** Everything the collaborators answer during one checkout. */
  datatype Responses = Responses(
    basket: Option<Basket>,          // basket repository, by id with items
    catalog: seq<CatalogItem>,       // catalog repository, items listed by ids
    orderStore: OrderStoreResponse,  // order repository AddAsync
    bus: BusResponse,                // Service Bus SendMessageAsync
    delivery: HttpResponse)          // POST to the delivery processor

  /** The exception `CreateOrderAsync` ends with. */
  datatype CheckoutError =
    | BasketNotFound(basketId: int)            // Guard.Against.NullBasket
    | EmptyBasket                              // Guard.Against.EmptyBasketOnCheckout
    | CatalogItemNotFound(catalogItemId: int)  // First() finds no catalog item
    | OrderStoreFailure
    | PublishFailure
    | DeliveryFailure(response: HttpResponse)  // EnsureSuccessStatusCode

  datatype Completion = Completed | Failed(error: CheckoutError)

  datatype Effect =
    | Persist(order: Order)
    | Publish(queue: string, message: OrderToWarehouse)
    | Deliver(url: string, payload: DeliveryInfoDto)

  datatype Checkout = Checkout(result: Completion, effects: seq<Effect>)

  /** Position an effect must take in the trace. */
  function Rank(e: Effect): nat {
    match e
    case Persist(_) => 0
    case Publish(_, _) => 1
    case Deliver(_, _) => 2
  }

  // ---------------------------------------------------------------------------
  // Building the order: basket lines to order items (a LINQ Select / First)

  ghost predicate InCatalog(catalog: seq<CatalogItem>, id: int) {
    exists j :: 0 <= j < |catalog| && catalog[j].id == id
  }

  /** `catalogItems.First(c => c.Id == id)`: the position of the first catalog
      item with that id, or None where First would throw. */
  function FirstIndex(catalog: seq<CatalogItem>, id: int): (r: Option<nat>)
    ensures r.None? <==> !InCatalog(catalog, id)
    ensures r.Some? ==> r.value < |catalog| && catalog[r.value].id == id
    ensures r.Some? ==> forall j :: 0 <= j < r.value ==> catalog[j].id != id
  {
    if catalog == [] then None
    else if catalog[0].id == id then Some(0)
    else
      match FirstIndex(catalog[1..], id)
      case None => None
      case Some(j) => Some(j + 1)
  }

  /** The snapshot of a catalog item: its id and name, and its picture URI as
      composed by the URI composer. */
  function Snapshot(c: CatalogItem, composePicUri: string -> string): (r: CatalogItemOrdered)
    ensures r.catalogItemId == c.id && r.productName == c.name
    ensures r.pictureUri == composePicUri(c.pictureUri)
  {
    CatalogItemOrdered(c.id, c.name, composePicUri(c.pictureUri))
  }

  /** The order item for a basket line: no id yet, price and units from the
      line (never the catalog price), described by the catalog item. */
  function ToOrderItem(line: BasketItem, c: CatalogItem, composePicUri: string -> string): (r: OrderItem)
    ensures r.id == 0 && r.unitPrice == line.unitPrice && r.units == line.quantity
    ensures r.itemOrdered == Snapshot(c, composePicUri)
  {
    OrderItem(0, Snapshot(c, composePicUri), line.unitPrice, line.quantity)
  }

  /** What one order item must be for its basket line: price and units copied
      from the line, snapshot of the first catalog item with the line's id,
      no id yet. */
  ghost predicate BuiltFrom(item: OrderItem, line: BasketItem, catalog: seq<CatalogItem>, composePicUri: string -> string) {
    var j := FirstIndex(catalog, line.catalogItemId);
    && j.Some?
    && item.id == 0
    && item.unitPrice == line.unitPrice
    && item.units == line.quantity
    && item.itemOrdered == Snapshot(catalog[j.value], composePicUri)
  }

  datatype ItemsResult = Items(items: seq<OrderItem>) | Unresolved(catalogItemId: int)

  /** `basket.Items.Select(...).ToList()`: one order item per basket line, in
      basket order, or the catalog id of the first line First fails on. */
  function BuildOrderItems(lines: seq<BasketItem>, catalog: seq<CatalogItem>, composePicUri: string -> string): (r: ItemsResult)
    ensures r.Items? <==> forall i :: 0 <= i < |lines| ==> InCatalog(catalog, lines[i].catalogItemId)
    ensures r.Items? ==> |r.items| == |lines|
    ensures r.Items? ==> forall i :: 0 <= i < |lines| ==> BuiltFrom(r.items[i], lines[i], catalog, composePicUri)
    ensures r.Unresolved? ==>
      exists i :: 0 <= i < |lines| && lines[i].catalogItemId == r.catalogItemId
        && !InCatalog(catalog, lines[i].catalogItemId)
        && forall k :: 0 <= k < i ==> InCatalog(catalog, lines[k].catalogItemId)
  {
    if lines == [] then Items([])
    else
      match FirstIndex(catalog, lines[0].catalogItemId)
      case None => Unresolved(lines[0].catalogItemId)
      case Some(j) =>
        var head := ToOrderItem(lines[0], catalog[j], composePicUri);
        match BuildOrderItems(lines[1..], catalog, composePicUri)
        case Unresolved(id) =>
          assert forall k :: 1 <= k < |lines| ==> lines[k] == lines[1..][k - 1];
          Unresolved(id)
        case Items(rest) =>
          assert forall k :: 1 <= k < |lines| ==> lines[k] == lines[1..][k - 1];
          Items([head] + rest)
  }

  /** `Order.Total()`: the sum of unit price times units over the items. */
  function Total(items: seq<OrderItem>): (t: Money)
    ensures items == [] ==> t == 0
  {
    if items == [] then 0 else items[0].unitPrice * items[0].units + Total(items[1..])
  }

  /** The order as the store leaves it: order id and item ids assigned,
      nothing else changed. */
  function WithIds(order: Order, orderId: int, itemIdAt: nat -> int): (r: Order)
    ensures r.id == orderId && r.buyerId == order.buyerId && r.shipToAddress == order.shipToAddress
    ensures |r.orderItems| == |order.orderItems|
    ensures forall i :: 0 <= i < |order.orderItems| ==>
      r.orderItems[i] == order.orderItems[i].(id := itemIdAt(i))
  {
    Order(orderId, order.buyerId, order.shipToAddress,
          seq(|order.orderItems|, i requires 0 <= i < |order.orderItems| => order.orderItems[i].(id := itemIdAt(i))))
  }

  // ---------------------------------------------------------------------------
  // The warehouse event and the delivery payload

  /** The reduced view of one order item: its id, product name and units. */
  function ItemDto(item: OrderItem): (d: OrderItemDto)
    ensures d.id == item.id && d.name == item.itemOrdered.productName && d.units == item.units
  {
    OrderItemDto(item.id, item.itemOrdered.productName, item.units)
  }

  /** The item list of the warehouse event: one DTO per order item, in order. */
  function WarehouseItems(items: seq<OrderItem>): (r: seq<OrderItemDto>)
    ensures |r| == |items|
    ensures forall i :: 0 <= i < |items| ==>
      r[i].id == items[i].id && r[i].name == items[i].itemOrdered.productName && r[i].units == items[i].units
  {
    seq(|items|, i requires 0 <= i < |items| => ItemDto(items[i]))
  }

  /** `new OrderToWarehouse(orderItemsDto, orderId)`: the event names the
      order and describes each of its items, in order. */
  function WarehouseEvent(orderId: int, items: seq<OrderItem>): (e: OrderToWarehouse)
    ensures e.orderId == orderId && |e.items| == |items|
    ensures forall i :: 0 <= i < |items| ==> e.items[i] == ItemDto(items[i])
  {
    OrderToWarehouse(orderId, WarehouseItems(items))
  }

  // ---------------------------------------------------------------------------
  // CreateOrderAsync as a function of the collaborators' answers

  /** The checks that pass before anything is written: the basket exists, it
      has lines, and every line names a catalog item. */
  ghost predicate Validated(env: Responses) {
    && env.basket.Some?
    && |env.basket.value.items| > 0
    && forall i :: 0 <= i < |env.basket.value.items| ==>
         InCatalog(env.catalog, env.basket.value.items[i].catalogItemId)
  }

  function CreateOrderSpec(basketId: int, shippingAddress: Address, env: Responses,
                           composePicUri: string -> string, deliveryUrl: string): (r: Checkout)
    // a missing or empty basket is rejected before any effect
    ensures env.basket.None? ==> r == Checkout(Failed(BasketNotFound(basketId)), [])
    ensures env.basket.Some? && env.basket.value.items == [] ==> r == Checkout(Failed(EmptyBasket), [])
    // no effect unless every validation passed
    ensures r.effects != [] <==> Validated(env)
    // effects come in the order persist, publish, deliver, each at most once
    ensures |r.effects| <= 3
    ensures forall i :: 0 <= i < |r.effects| ==> Rank(r.effects[i]) == i
    // a failing step is the last one issued
    ensures r.result == Failed(OrderStoreFailure) <==> Validated(env) && env.orderStore.SaveFailed?
    ensures r.result == Failed(OrderStoreFailure) ==> |r.effects| == 1
    ensures r.result == Failed(PublishFailure) <==> Validated(env) && env.orderStore.Saved? && env.bus.SendFailed?
    ensures r.result == Failed(PublishFailure) ==> |r.effects| == 2
    ensures r.result.Failed? && r.result.error.DeliveryFailure? ==> |r.effects| == 3 && !IsSuccessStatus(env.delivery)
    ensures r.result.Completed? <==>
      Validated(env) && env.orderStore.Saved? && env.bus.Accepted? && IsSuccessStatus(env.delivery)
    ensures r.result.Completed? ==> |r.effects| == 3
  {
    match env.basket
    case None => Checkout(Failed(BasketNotFound(basketId)), [])
    case Some(basket) =>
      if |basket.items| == 0 then Checkout(Failed(EmptyBasket), [])
      else
        match BuildOrderItems(basket.items, env.catalog, composePicUri)
        case Unresolved(id) => Checkout(Failed(CatalogItemNotFound(id)), [])
        case Items(items) =>
          var order := Order(0, basket.buyerId, shippingAddress, items);
          match env.orderStore
          case SaveFailed => Checkout(Failed(OrderStoreFailure), [Persist(order)])
          case Saved(orderId, itemIdAt) =>
            var saved := WithIds(order, orderId, itemIdAt);
            var published := [Persist(order), Publish(WarehouseQueue, WarehouseEvent(saved.id, saved.orderItems))];
            if env.bus.SendFailed? then Checkout(Failed(PublishFailure), published)
            else
              var delivered := published + [Deliver(deliveryUrl, DeliveryInfoDto(Total(saved.orderItems), shippingAddress, saved.orderItems))];
              if IsSuccessStatus(env.delivery) then Checkout(Completed, delivered)
              else Checkout(Failed(DeliveryFailure(env.delivery)), delivered)
  }

  // ---------------------------------------------------------------------------
  // The service itself, over its read-only collaborators

  class OrderService {
    /** `IUriComposer.ComposePicUri`, whose code is not part of this model. */
    const composePicUri: string -> string
    /** `BaseUrlConfiguration.DeliveryProcessorFunc`. */
    const deliveryProcessorUrl: string

    constructor (composePicUri: string -> string, deliveryProcessorUrl: string)
      ensures this.composePicUri == composePicUri && this.deliveryProcessorUrl == deliveryProcessorUrl
    {
      this.composePicUri := composePicUri;
      this.deliveryProcessorUrl := deliveryProcessorUrl;
    }

    method CreateOrder(basketId: int, shippingAddress: Address, env: Responses)
      returns (result: Completion, effects: seq<Effect>)
      ensures Checkout(result, effects) == CreateOrderSpec(basketId, shippingAddress, env, composePicUri, deliveryProcessorUrl)
    {
      effects := [];
      if env.basket.None? {
        return Failed(BasketNotFound(basketId)), effects;
      }
      var basket := env.basket.value;
      if |basket.items| == 0 {
        return Failed(EmptyBasket), effects;
      }
      var built := BuildOrderItems(basket.items, env.catalog, composePicUri);
      if built.Unresolved? {
        return Failed(CatalogItemNotFound(built.catalogItemId)), effects;
      }
      var order := Order(0, basket.buyerId, shippingAddress, built.items);

      effects := effects + [Persist(order)];
      if env.orderStore.SaveFailed? {
        return Failed(OrderStoreFailure), effects;
      }
      order := WithIds(order, env.orderStore.orderId, env.orderStore.itemIdAt);

      var published, publish := SendToWarehouse(order.id, order.orderItems, env.bus);
      effects := effects + [publish];
      if !published {
        return Failed(PublishFailure), effects;
      }

      var delivered, deliver := SendToDeliveryProcessor(shippingAddress, order.orderItems, Total(order.orderItems), env.delivery);
      effects := effects + [deliver];
      if !delivered {
        return Failed(DeliveryFailure(env.delivery)), effects;
      }
      result := Completed;
    }

    /** Builds the event for the persisted order and sends it to the queue. */
    method SendToWarehouse(orderId: int, items: seq<OrderItem>, bus: BusResponse)
      returns (sent: bool, effect: Effect)
      ensures sent == bus.Accepted?
      ensures effect == Publish(WarehouseQueue, WarehouseEvent(orderId, items))
    {
      var orderItemsDto := ItemDtos(items);
      effect := Publish(WarehouseQueue, OrderToWarehouse(orderId, orderItemsDto));
      sent := bus.Accepted?;
    }

    /** The `ForEach` that appends one DTO per order item. */
    method ItemDtos(items: seq<OrderItem>) returns (dtos: seq<OrderItemDto>)
      ensures |dtos| == |items|
      ensures forall i :: 0 <= i < |items| ==>
        dtos[i].id == items[i].id && dtos[i].name == items[i].itemOrdered.productName && dtos[i].units == items[i].units
    {
      dtos := [];
      var i := 0;
      while i < |items|
        invariant 0 <= i <= |items|
        invariant |dtos| == i
        invariant forall k :: 0 <= k < i ==> dtos[k] == ItemDto(items[k])
      {
        dtos := dtos + [OrderItemDto(items[i].id, items[i].itemOrdered.productName, items[i].units)];
        i := i + 1;
      }
    }

    /** Posts the delivery payload; a non-2xx answer or a transport error is
        a failure. */
    method SendToDeliveryProcessor(shippingAddress: Address, items: seq<OrderItem>, price: Money, response: HttpResponse)
      returns (delivered: bool, effect: Effect)
      ensures delivered <==> IsSuccessStatus(response)
      ensures effect == Deliver(deliveryProcessorUrl, DeliveryInfoDto(price, shippingAddress, items))
    {
      var deliveryInfoDto := DeliveryInfoDto(price, shippingAddress, items);
      effect := Deliver(deliveryProcessorUrl, deliveryInfoDto);
      delivered := IsSuccessStatus(response);
    }
  }
}
