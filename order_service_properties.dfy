/** What the effects of one checkout carry, stated in terms of the basket,
    the catalog and the order store's answer. */
module OrderingProperties {
  import opened Domain
  import opened Ordering

  /** The sum of unit price times quantity over the basket lines. */
  function BasketTotal(lines: seq<BasketItem>): Money {
    if lines == [] then 0 else lines[0].unitPrice * lines[0].quantity + BasketTotal(lines[1..])
  }

  predicate SameAmounts(a: OrderItem, b: OrderItem) {
    a.unitPrice == b.unitPrice && a.units == b.units
  }

  /** Total depends only on the prices and units, position by position. */
  lemma {:induction false} TotalOfSameAmounts(a: seq<OrderItem>, b: seq<OrderItem>)
    requires |a| == |b|
    requires forall i :: 0 <= i < |a| ==> SameAmounts(a[i], b[i])
    ensures Total(a) == Total(b)
    decreases |a|
  {
    if a != [] {
      assert forall i :: 0 <= i < |a| - 1 ==> a[1..][i] == a[i + 1] && b[1..][i] == b[i + 1];
      TotalOfSameAmounts(a[1..], b[1..]);
    }
  }

  /** With no negative price or quantity, an order never totals below 0. */
  lemma {:induction false} TotalNonNegative(items: seq<OrderItem>)
    requires forall i :: 0 <= i < |items| ==> items[i].unitPrice >= 0 && items[i].units >= 0
    ensures Total(items) >= 0
    decreases |items|
  {
    if items != [] {
      assert forall i :: 0 <= i < |items| - 1 ==> items[1..][i] == items[i + 1];
      TotalNonNegative(items[1..]);
    }
  }

  /** The total of order items built from basket lines is the basket total. */
  lemma {:induction false} TotalOfBuiltItems(items: seq<OrderItem>, lines: seq<BasketItem>)
    requires |items| == |lines|
    requires forall i :: 0 <= i < |items| ==>
      items[i].unitPrice == lines[i].unitPrice && items[i].units == lines[i].quantity
    ensures Total(items) == BasketTotal(lines)
    decreases |items|
  {
    if items != [] {
      assert forall i :: 0 <= i < |items| - 1 ==> items[1..][i] == items[i + 1] && lines[1..][i] == lines[i + 1];
      TotalOfBuiltItems(items[1..], lines[1..]);
    }
  }

  /** The persisted order: buyer from the basket, the given address, and one
      item per basket line in basket order, priced from the line and
      described by the first matching catalog item. */
  lemma PersistedOrderFollowsBasket(basketId: int, shippingAddress: Address, env: Responses,
                                    composePicUri: string -> string, deliveryUrl: string)
    requires CreateOrderSpec(basketId, shippingAddress, env, composePicUri, deliveryUrl).effects != []
    ensures var r := CreateOrderSpec(basketId, shippingAddress, env, composePicUri, deliveryUrl);
      var order := r.effects[0].order;
      var lines := env.basket.value.items;
      && r.effects[0].Persist?
      && order.id == 0
      && order.buyerId == env.basket.value.buyerId
      && order.shipToAddress == shippingAddress
      && |order.orderItems| == |lines|
      && forall i :: 0 <= i < |lines| ==> BuiltFrom(order.orderItems[i], lines[i], env.catalog, composePicUri)
  {
  }

  /** The warehouse event is published only after the order was saved; it
      carries the id the store assigned and, per basket line in order, the
      assigned item id, the catalog item's name and the line's quantity. */
  lemma WarehouseEventProjectsOrder(basketId: int, shippingAddress: Address, env: Responses,
                                    composePicUri: string -> string, deliveryUrl: string)
    requires |CreateOrderSpec(basketId, shippingAddress, env, composePicUri, deliveryUrl).effects| >= 2
    ensures var r := CreateOrderSpec(basketId, shippingAddress, env, composePicUri, deliveryUrl);
      var evt := r.effects[1].message;
      var lines := env.basket.value.items;
      && env.orderStore.Saved?
      && r.effects[1] == Publish(WarehouseQueue, evt)
      && evt.orderId == env.orderStore.orderId
      && |evt.items| == |lines|
      && forall i :: 0 <= i < |lines| ==>
           var j := FirstIndex(env.catalog, lines[i].catalogItemId);
           && j.Some?
           && evt.items[i] == OrderItemDto(env.orderStore.itemIdAt(i), env.catalog[j.value].name, lines[i].quantity)
  {
  }

  /** The delivery payload is posted only after persist and publish; its
      price is the order total, which is the basket total, and it carries
      the shipping address and the saved order's items. */
  lemma DeliveryPayloadCarriesTotal(basketId: int, shippingAddress: Address, env: Responses,
                                    composePicUri: string -> string, deliveryUrl: string)
    requires |CreateOrderSpec(basketId, shippingAddress, env, composePicUri, deliveryUrl).effects| == 3
    ensures var r := CreateOrderSpec(basketId, shippingAddress, env, composePicUri, deliveryUrl);
      var payload := r.effects[2].payload;
      && env.orderStore.Saved? && env.bus.Accepted?
      && r.effects[2] == Deliver(deliveryUrl, payload)
      && payload.shippingAddress == shippingAddress
      && payload.items == WithIds(r.effects[0].order, env.orderStore.orderId, env.orderStore.itemIdAt).orderItems
      && payload.price == Total(payload.items)
      && payload.price == Total(r.effects[0].order.orderItems)
      && payload.price == BasketTotal(env.basket.value.items)
  {
    var r := CreateOrderSpec(basketId, shippingAddress, env, composePicUri, deliveryUrl);
    PersistedOrderFollowsBasket(basketId, shippingAddress, env, composePicUri, deliveryUrl);
    var items := r.effects[2].payload.items;
    var lines := env.basket.value.items;
    assert forall i :: 0 <= i < |items| ==> items[i].unitPrice == lines[i].unitPrice && items[i].units == lines[i].quantity;
    TotalOfBuiltItems(items, lines);
    TotalOfSameAmounts(items, r.effects[0].order.orderItems);
  }

  /** A failed delivery call leaves the order persisted and the event
      published: it is reported after both were issued. */
  lemma DeliveryFailureAfterPersistAndPublish(basketId: int, shippingAddress: Address, env: Responses,
                                              composePicUri: string -> string, deliveryUrl: string)
    requires Validated(env) && env.orderStore.Saved? && env.bus.Accepted? && !IsSuccessStatus(env.delivery)
    ensures var r := CreateOrderSpec(basketId, shippingAddress, env, composePicUri, deliveryUrl);
      && r.result == Failed(DeliveryFailure(env.delivery))
      && |r.effects| == 3
      && r.effects[0].Persist? && r.effects[1].Publish? && r.effects[2].Deliver?
  {
  }

  /** A basket line whose catalog item is missing fails the checkout with no
      effect, naming the first line that does not resolve. */
  lemma UnresolvedLineFailsWithoutEffects(basketId: int, shippingAddress: Address, env: Responses,
                                          composePicUri: string -> string, deliveryUrl: string, i: nat)
    requires env.basket.Some? && i < |env.basket.value.items|
    requires !InCatalog(env.catalog, env.basket.value.items[i].catalogItemId)
    ensures var r := CreateOrderSpec(basketId, shippingAddress, env, composePicUri, deliveryUrl);
      && r.effects == []
      && r.result.Failed? && r.result.error.CatalogItemNotFound?
      && exists k :: 0 <= k <= i && env.basket.value.items[k].catalogItemId == r.result.error.catalogItemId
  {
  }

  /** One basket line of two units of catalog item 7 at 10.00. */
  lemma CheckoutScenario(composePicUri: string -> string, deliveryUrl: string, orderId: int, itemIdAt: nat -> int)
    ensures
      var address := Address("1 Main St", "Springfield", "IL", "US", "62704");
      var basket := Basket(1, "buyer", [BasketItem(7, 1000, 2)]);
      var catalog := [CatalogItem(7, "Widget", 1500, "/pics/7.png")];
      var env := Responses(Some(basket), catalog, Saved(orderId, itemIdAt), Accepted, Status(200));
      var r := CreateOrderSpec(1, address, env, composePicUri, deliveryUrl);
      var item := OrderItem(itemIdAt(0), CatalogItemOrdered(7, "Widget", composePicUri("/pics/7.png")), 1000, 2);
      r == Checkout(Completed, [
        Persist(Order(0, "buyer", address, [item.(id := 0)])),
        Publish(WarehouseQueue, OrderToWarehouse(orderId, [OrderItemDto(itemIdAt(0), "Widget", 2)])),
        Deliver(deliveryUrl, DeliveryInfoDto(2000, address, [item]))])
  {
    var address := Address("1 Main St", "Springfield", "IL", "US", "62704");
    var basket := Basket(1, "buyer", [BasketItem(7, 1000, 2)]);
    var catalog := [CatalogItem(7, "Widget", 1500, "/pics/7.png")];
    var item := OrderItem(itemIdAt(0), CatalogItemOrdered(7, "Widget", composePicUri("/pics/7.png")), 1000, 2);
    assert FirstIndex(catalog, 7) == Some(0);
    assert basket.items[1..] == [];
    assert BuildOrderItems(basket.items[1..], catalog, composePicUri) == Items([]);
    assert [item.(id := 0)] + [] == [item.(id := 0)];
    assert BuildOrderItems(basket.items, catalog, composePicUri) == Items([item.(id := 0)]);
    var saved := WithIds(Order(0, "buyer", address, [item.(id := 0)]), orderId, itemIdAt);
    assert saved.orderItems == [item];
    assert WarehouseItems(saved.orderItems) == [OrderItemDto(itemIdAt(0), "Widget", 2)];
    assert [item][1..] == [];
    assert Total([item]) == 2000;
  }
}
