# eShopOnWeb order fan-out and warehouse reservation, in Dafny

This project models two pieces of the eShopOnWeb checkout pipeline and proves
properties about them.

1. The **order coordinator**, `OrderService.CreateOrderAsync`. It loads the
   basket and rejects a missing or empty one. It turns each basket line into an
   `OrderItem` that snapshots the matching catalog item. Then it persists the
   order, publishes a warehouse event on the `eshop` queue, and posts a
   delivery payload to the delivery function, strictly in that order.
2. The **reservation worker**, `OrderItemsReserver.Run`. It writes the
   warehouse event to the blob `Order - {OrderId}.json` in container
   `eshop-warehouse`. The write runs under Polly's `RetryAsync(3)`, wrapped by a
   `FallbackAsync` that posts only the order id to an escalation endpoint.

The collaborators are the stores, the bus, the HTTP endpoints and the URI
composer. Their answers are inputs. Every call the model issues with a side
effect is recorded in an effect trace or log, in order.

Files:

- `domain.dfy` (`Domain`): the shared values `Address`, `CatalogItemOrdered`,
  `OrderItem`, `OrderItemDto`, `OrderToWarehouse`, `DeliveryInfoDto`, and HTTP
  responses. Money (`decimal`) is an `int` count of minor currency units.
- `order_service.dfy` (`Ordering`): the basket and catalog entities, the
  LINQ `Select`/`First` mapping as functions, and `CreateOrderSpec`, the
  function of the collaborators' answers that states what one checkout does.
  The class `OrderService` holds the read-only collaborators. Its methods model
  `CreateOrderAsync` step by step, together with its helpers and the `ForEach`
  loop. Each method is proved against the functions.
- `order_service_properties.dfy` (`OrderingProperties`): what the persisted
  order, the event and the delivery payload carry, stated in basket terms. It
  also holds the checkout scenario of one line of two units at 10.00.
- `formatting.dfy` (`Formatting`): decimal rendering of an `int`, as string
  interpolation writes it in a culture whose negative sign is '-', and the
  parser that undoes it.
- `order_items_reserver.dfy` (`Reservation`): blob names and payloads, the
  blob store (`BlobService`, a class whose containers and blobs change in
  place), one execution of the primary action, and the invocation as a state
  machine `Received → Persisting(n) → Persisted | Escalating → Escalated |
  FatallyFailed` (`Step`, `Drive`). The class `OrderItemsReserver` runs that
  machine with a `while` loop.
- `order_items_reserver_properties.dfy` (`ReservationProperties`): a closed
  form `Expected` of one invocation, proved equal to the state machine. The
  retry, fallback, redelivery and blob-key properties follow from it.

Three facts about the code shape the model:

- **Retry bound.** `RetryAsync(3)` is one execution plus three retries, so
  `MaxExecutions = 4`.
- **Redelivery.** `UploadAsync(Stream)` has no overwrite flag and fails when
  the blob already exists. So a redelivered event that was already stored
  fails every execution and escalates (`ExistingBlobForcesEscalation`,
  `RedeliveryAfterSuccess`).
- **Queue name.** The event goes to the queue `eshop`.

## Model

| member | source | states |
|---|---|---|
| `Ordering.FirstIndex` | src/ApplicationCore/Services/OrderService.cs:67 | `First` finds the first catalog item with the line's id; None exactly when no catalog item has that id |
| `Ordering.Snapshot` | src/ApplicationCore/Services/OrderService.cs:68 | the snapshot keeps the catalog item's id and name, and its picture URI as the URI composer gives it |
| `Ordering.ToOrderItem` | src/ApplicationCore/Services/OrderService.cs:68-69 | a new order item has no id yet, takes price and units from the basket line and not the catalog, and holds the catalog item's snapshot |
| `Ordering.BuildOrderItems` | src/ApplicationCore/Services/OrderService.cs:65-71 | succeeds iff every basket line resolves; then exactly one order item per line in basket order, with price and units from the line and the snapshot of the first matching catalog item; otherwise it names the first line that fails to resolve |
| `Ordering.WithIds` | src/ApplicationCore/Services/OrderService.cs:75-77 | saving assigns the order id and the item ids and changes nothing else in the order |
| `Ordering.Total` | src/ApplicationCore/Services/OrderService.cs:79 | an order with no items totals 0; what it adds up to is stated by `TotalOfBuiltItems` |
| `OrderingProperties.TotalNonNegative` | src/ApplicationCore/Services/OrderService.cs:79 | with no negative price or quantity, the order total is not negative |
| `Ordering.ItemDto` | src/ApplicationCore/Services/OrderService.cs:117-122 | the DTO of an item keeps its id, product name and units |
| `Ordering.WarehouseItems` | src/ApplicationCore/Services/OrderService.cs:116-122 | one DTO per order item, in order, with item id, product name and units |
| `Ordering.WarehouseEvent` | src/ApplicationCore/Services/OrderService.cs:124-126 | the event carries the given order id and one DTO per order item, in order |
| `Domain.IsSuccessStatus` | src/ApplicationCore/Services/OrderService.cs:92 | `EnsureSuccessStatusCode` passes iff a status arrived and its class is 2xx; a transport error never passes |
| `Ordering.CreateOrderSpec` | src/ApplicationCore/Services/OrderService.cs:54-80 | a missing or empty basket fails with an empty trace; the trace is non-empty iff validation passed; effects are persist, publish, deliver in that order, each at most once; a failing step is the last issued; completion iff every step succeeded |
| `Ordering.OrderService.CreateOrder` | src/ApplicationCore/Services/OrderService.cs:54-80 | the stepwise coordinator returns the completion and the trace that `CreateOrderSpec` gives |
| `Ordering.OrderService.SendToWarehouse` | src/ApplicationCore/Services/OrderService.cs:114-127 | sends the event with the given order id and the projected items to the `eshop` queue; succeeds iff the bus accepts |
| `Ordering.OrderService.ItemDtos` | src/ApplicationCore/Services/OrderService.cs:116-122 | the appending loop yields one DTO per item, in order, with id, product name and units |
| `Ordering.OrderService.SendToDeliveryProcessor` | src/ApplicationCore/Services/OrderService.cs:82-93 | posts price, address and items to the delivery URL; succeeds iff the answer is 2xx |
| `OrderingProperties.TotalOfSameAmounts` | src/ApplicationCore/Services/OrderService.cs:79 | the total depends only on prices and units position by position, so assigning ids leaves it unchanged |
| `OrderingProperties.TotalOfBuiltItems` | src/ApplicationCore/Services/OrderService.cs:69 | order items priced from the basket lines total the sum of unit price times quantity over the basket |
| `OrderingProperties.PersistedOrderFollowsBasket` | src/ApplicationCore/Services/OrderService.cs:65-75 | the persisted order has the basket's buyer, the given address and one item per line in basket order, built from that line |
| `OrderingProperties.WarehouseEventProjectsOrder` | src/ApplicationCore/Services/OrderService.cs:114-126 | the event is published only after a save; it carries the assigned order id and, per line in order, the assigned item id, the catalog name and the quantity |
| `OrderingProperties.DeliveryPayloadCarriesTotal` | src/ApplicationCore/Services/OrderService.cs:79-90 | the payload is posted only after persist and publish; its price is the order total, which equals the basket total; it carries the shipping address and the saved items |
| `OrderingProperties.DeliveryFailureAfterPersistAndPublish` | src/ApplicationCore/Services/OrderService.cs:92 | a non-2xx delivery answer fails the checkout after persist and publish were both issued, with no rollback |
| `OrderingProperties.UnresolvedLineFailsWithoutEffects` | src/ApplicationCore/Services/OrderService.cs:67-68 | a line with no catalog item fails the checkout before any effect, naming a line at or before it |
| `OrderingProperties.CheckoutScenario` | src/ApplicationCore/Services/OrderService.cs:54-126 | two units of item 7 at 10.00 give a persisted order, an event with units 2, and a delivery payload priced 20.00 |
| `Formatting.IntToString` | src/OrderItemsReserver/OrderItemsReserver.cs:40 | the interpolated id starts with '-' iff it is negative, followed by decimal digits with no leading zero except for 0 |
| `Formatting.IntToStringRoundTrip` | src/OrderItemsReserver/OrderItemsReserver.cs:40 | parsing the interpolated order id gives the id back |
| `Formatting.IntToStringInjective` | src/OrderItemsReserver/OrderItemsReserver.cs:40 | distinct ids interpolate to distinct strings |
| `Reservation.BlobKey` | src/OrderItemsReserver/OrderItemsReserver.cs:40 | the blob name starts with `Order - ` and has room for the id and `.json` |
| `ReservationProperties.BlobKeyRoundTrip` | src/OrderItemsReserver/OrderItemsReserver.cs:40 | the order id can be read back from the blob name |
| `Reservation.WarehouseBlob` | src/OrderItemsReserver/OrderItemsReserver.cs:38-40 | the order's blob is its key in container `eshop-warehouse` |
| `Reservation.Serialize` | src/OrderItemsReserver/OrderItemsReserver.cs:42-43 | the blob content carries the whole event it was serialized from |
| `Reservation.CreateContainer` | src/OrderItemsReserver/OrderItemsReserver.cs:39 | afterwards the container exists unless the call failed; blobs are untouched |
| `Reservation.UploadBlob` | src/OrderItemsReserver/OrderItemsReserver.cs:45 | the upload succeeds iff there is no fault, the container exists and the blob is absent; it never overwrites, and a failed upload writes nothing |
| `Reservation.AttemptEffects` | src/OrderItemsReserver/OrderItemsReserver.cs:37-45 | every execution first ensures the `eshop-warehouse` container and never escalates |
| `Reservation.BlobAttempt` | src/OrderItemsReserver/OrderItemsReserver.cs:35-46 | one execution succeeds iff it meets no fault and the order's blob is absent; on success the blob holds the serialized event |
| `Reservation.Step` | src/OrderItemsReserver/OrderItemsReserver.cs:21-32 | each transition strictly decreases the progress measure, so a run ends |
| `Reservation.Drive` | src/OrderItemsReserver/OrderItemsReserver.cs:32 | driving the machine always ends in a terminal phase |
| `Reservation.Reserve` | src/OrderItemsReserver/OrderItemsReserver.cs:19-33 | one invocation, from the store it starts on, always ends in a terminal phase; `ReserveMatchesExpected` gives its whole outcome |
| `Reservation.BlobService.CreateIfNotExists` | src/OrderItemsReserver/OrderItemsReserver.cs:39 | the store's new state is the one `CreateContainer` gives |
| `Reservation.BlobService.Upload` | src/OrderItemsReserver/OrderItemsReserver.cs:45 | the store's new state is the one `UploadBlob` gives |
| `Reservation.OrderItemsReserver.Run` | src/OrderItemsReserver/OrderItemsReserver.cs:19-33 | the loop ends in the configuration that `Reserve` gives (phase, executions, log, store), and returns its signal |
| `Reservation.OrderItemsReserver.SendToWarehouseBlob` | src/OrderItemsReserver/OrderItemsReserver.cs:35-46 | result, appended calls and new store are those of `BlobAttempt` |
| `Reservation.OrderItemsReserver.SendMessageToLogicApp` | src/OrderItemsReserver/OrderItemsReserver.cs:48-57 | logs one escalation carrying only the order id; succeeds iff the answer is 2xx |
| `ReservationProperties.FirstOkFrom` | src/OrderItemsReserver/OrderItemsReserver.cs:26-32 | the first execution that can succeed, or the bound when none can |
| `ReservationProperties.DriveFromAttempt` | src/OrderItemsReserver/OrderItemsReserver.cs:26-32 | after n failed executions, the machine ends where the closed form says |
| `ReservationProperties.ReserveMatchesExpected` | src/OrderItemsReserver/OrderItemsReserver.cs:21-32 | on every input, the state machine and the closed form `Expected` agree |
| `ReservationProperties.AttemptsLogUploads` | src/OrderItemsReserver/OrderItemsReserver.cs:37-45 | in the calls of any number of executions, each upload comes right after ensuring the container |
| `ReservationProperties.ExecutionsBoundedAndRetryOnlyAfterFailure` | src/OrderItemsReserver/OrderItemsReserver.cs:26-32 | 1 to 4 executions; every execution before the last failed; fewer than 4 only if the last succeeded |
| `ReservationProperties.PrimarySuccessSkipsFallback` | src/OrderItemsReserver/OrderItemsReserver.cs:30-32 | if some execution can succeed, the run completes by the primary action with no escalation and the event stored |
| `ReservationProperties.ExhaustionEscalatesOnce` | src/OrderItemsReserver/OrderItemsReserver.cs:21-30 | if every execution fails, all 4 run, and then exactly one escalation with the order id is sent, as the last call; nothing is stored |
| `ReservationProperties.FallbackIsOutermost` | src/OrderItemsReserver/OrderItemsReserver.cs:30 | an escalation is only ever the last call, after all 4 executions |
| `ReservationProperties.CompletionSignals` | src/OrderItemsReserver/OrderItemsReserver.cs:21-56 | completion by primary iff some execution can succeed; by fallback iff all fail and escalation is 2xx; fatal iff all fail and escalation is not 2xx |
| `ReservationProperties.UploadsFollowContainerCreation` | src/OrderItemsReserver/OrderItemsReserver.cs:39-45 | in a run, every upload writes the whole serialized event under the order's key, right after ensuring the container |
| `ReservationProperties.OutcomeDependsOnlyOnOrderId` | src/OrderItemsReserver/OrderItemsReserver.cs:24 | two events with the same order id end alike and escalate with the same body |
| `ReservationProperties.ExistingBlobForcesEscalation` | src/OrderItemsReserver/OrderItemsReserver.cs:45 | when the order's blob already exists, all 4 executions fail, the run does not complete by the primary action, and the blobs are untouched |
| `ReservationProperties.RedeliveryAfterSuccess` | src/OrderItemsReserver/OrderItemsReserver.cs:45 | a second delivery of an event already stored leaves the first record in place and reaches the fallback |
| `ReservationProperties.BlobKeyInjective` | src/OrderItemsReserver/OrderItemsReserver.cs:38-40 | the blob name and container depend only on the order id, and equal names mean equal ids |

## Left out

- src/DeliveryOrderProcessor/DeliveryOrderProcessor.cs `Run`: reading the request body, JSON parsing and the MongoDB insert are I/O. Only its DTO shapes are used.
- Failures of the basket and catalog reads (`GetBySpecAsync`, `ListAsync`) are not modelled. Their answers are inputs, and the catalog answer is used as returned; `CatalogItemsSpecification` is not part of this model.
- `IUriComposer.ComposePicUri`, the `Guard` extensions, the `Order`/`OrderItem` constructors and id assignment are not shown. They become a function-valued field, the two guard checks, plain datatype construction, and the ids in the order store's answer.
- `Order.Total()` is not shown. It is modelled as the sum of unit price times units. Decimal arithmetic is exact in minor units; decimal overflow and amounts finer than one minor unit are not modelled.
- `Order.OrderDate` (it reads the clock) is not modelled.
- JSON serialization (System.Text.Json on the bus, Newtonsoft.Json for the blob, JSON content for both POSTs) is abstract. Blob content is the event it encodes. The message round trip between the two `OrderToWarehouse` declarations is the identity.
- Service Bus, Blob Storage and `HttpClient` clients, connection strings and environment settings are left out. Only the queue name, container name, blob name, URLs and the calls' outcomes remain.
- The blob name is interpolated with the current culture. The model renders a negative order id with '-', so it assumes a culture whose negative sign is '-' (order ids assigned by the store are positive).
- C# `int` is 32 bits wide. Order ids, item ids and units are unbounded integers here.
- `Task.Run`, the cancellation token, async scheduling and concurrent worker invocations are not modelled; one invocation runs to its end.
- Polly is modelled only in this instantiation (any exception handled, three retries, the fallback outermost), not as a generic policy. No delay between retries is configured, so the model has no notion of time.
- Transient storage faults are one of: container creation fails, or the upload fails and writes nothing. An upload that commits but whose response is lost is not modelled.
- Broker redelivery and dead-lettering after a fatal failure happen outside the worker. The model gives the signal and the final store, and `RedeliveryAfterSuccess` covers a second delivery.
