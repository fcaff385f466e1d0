/** The reservation worker: `OrderItemsReserver.Run`, which writes the
    warehouse event to blob storage under Polly's `RetryAsync(3)` wrapped by
    a `FallbackAsync` that posts the order id to the escalation endpoint.

    One invocation is a state machine
      Received -> Persisting(0) -> ... -> Persisting(3) -> Escalating -> Escalated | FatallyFailed
    that leaves Persisting(n) for Persisted as soon as an execution of the
    primary action succeeds. The blob store is shared state that survives
    invocations; whether each execution meets a transient fault is injected. */
module Reservation {
  import opened Domain
  import Formatting

  // ---------------------------------------------------------------------------
  // Names and payloads

  const ContainerName := "eshop-warehouse"

  /** `RetryAsync(3)`: three retries after the first execution. */
  const RetryCount: nat := 3
  const MaxExecutions: nat := 1 + RetryCount

  const KeyPrefix := "Order - "
  const KeySuffix := ".json"

  /** `$"Order - {order.OrderId}.json"`: the fixed prefix, the order id in
      decimal, the fixed suffix. `BlobKeyRoundTrip` reads the id back. */
  function BlobKey(orderId: int): (key: string)
    ensures KeyPrefix <= key && |key| > |KeyPrefix| + |KeySuffix|
  {
    KeyPrefix + Formatting.IntToString(orderId) + KeySuffix
  }

  /** Reads the order id back from a blob name of the form above. */
  function OrderIdOfKey(key: string): Option<int> {
    if |key| >= |KeyPrefix| + |KeySuffix| && key[..|KeyPrefix|] == KeyPrefix && key[|key| - |KeySuffix|..] == KeySuffix
    then Formatting.ParseInt(key[|KeyPrefix|..|key| - |KeySuffix|])
    else None
  }

  datatype BlobRef = BlobRef(container: string, name: string)

  /** The blob an order is written to: its key, in the warehouse container. */
  function WarehouseBlob(orderId: int): (b: BlobRef)
    ensures b.container == ContainerName && b.name == BlobKey(orderId)
  {
    BlobRef(ContainerName, BlobKey(orderId))
  }

  /** The UTF-8 JSON serialization of the whole event. The serializer itself
      is not part of this model; the content carries the event it encodes. */
  datatype BlobContent = Json(evt: OrderToWarehouse)

  function Serialize(evt: OrderToWarehouse): (c: BlobContent)
    ensures c.evt == evt
  {
    Json(evt)
  }

  /** `new { OrderId = orderId }`: the escalation body has no other field. */
  datatype EscalationBody = EscalationBody(orderId: int)

  // ---------------------------------------------------------------------------
  // The blob store

  /** A transient failure the storage service raises during one execution of
      the primary action: at container creation or at upload. */
  datatype Fault = NoFault | ContainerFault | UploadFault

  /** The fault met by execution `i`; past the end of the list, none. */
  function FaultAt(faults: seq<Fault>, i: nat): Fault {
    if i < |faults| then faults[i] else NoFault
  }

  datatype StoreState = StoreState(containers: set<string>, blobs: map<BlobRef, BlobContent>)

  datatype StoreStep = StoreStep(ok: bool, store: StoreState)

  /** `CreateIfNotExistsAsync`: afterwards the container exists, unless the
      call failed, which changes nothing. */
  function CreateContainer(s: StoreState, container: string, fault: Fault): (r: StoreStep)
    ensures r.ok <==> fault != ContainerFault
    ensures r.store.blobs == s.blobs
    ensures r.store.containers == if r.ok then s.containers + {container} else s.containers
  {
    if fault == ContainerFault then StoreStep(false, s)
    else StoreStep(true, s.(containers := s.containers + {container}))
  }

  /** `UploadAsync(stream)` without overwrite: it fails when the container is
      missing, when a blob of that name already exists, or on a transient
      fault; a failed upload writes nothing. */
  function UploadBlob(s: StoreState, blob: BlobRef, content: BlobContent, fault: Fault): (r: StoreStep)
    ensures r.ok <==> fault != UploadFault && blob.container in s.containers && blob !in s.blobs
    ensures r.store.containers == s.containers
    ensures r.store.blobs == if r.ok then s.blobs[blob := content] else s.blobs
  {
    if fault == UploadFault || blob.container !in s.containers || blob in s.blobs then StoreStep(false, s)
    else StoreStep(true, s.(blobs := s.blobs[blob := content]))
  }

  class BlobService {
    var containers: set<string>
    var blobs: map<BlobRef, BlobContent>

    function State(): StoreState
      reads this
    {
      StoreState(containers, blobs)
    }

    constructor (initial: StoreState)
      ensures State() == initial
    {
      containers := initial.containers;
      blobs := initial.blobs;
    }

    method CreateIfNotExists(container: string, fault: Fault) returns (ok: bool)
      modifies this
      ensures StoreStep(ok, State()) == CreateContainer(old(State()), container, fault)
    {
      ok := fault != ContainerFault;
      if ok {
        containers := containers + {container};
      }
    }

    method Upload(blob: BlobRef, content: BlobContent, fault: Fault) returns (ok: bool)
      modifies this
      ensures StoreStep(ok, State()) == UploadBlob(old(State()), blob, content, fault)
    {
      ok := fault != UploadFault && blob.container in containers && blob !in blobs;
      if ok {
        blobs := blobs[blob := content];
      }
    }
  }

  // ---------------------------------------------------------------------------
  // One execution of the primary action, SendToWarehouseBlob

  datatype WorkerEffect =
    | EnsureContainer(container: string)
    | Upload(blob: BlobRef, content: BlobContent)
    | Escalate(url: string, body: EscalationBody)

  /** The calls one execution issues: container creation first, then, if that
      passed, the upload of the serialized event under the order's key. */
  function AttemptEffects(evt: OrderToWarehouse, fault: Fault): (r: seq<WorkerEffect>)
    ensures |r| > 0 && r[0] == EnsureContainer(ContainerName)
    ensures forall k :: 0 <= k < |r| ==> !r[k].Escalate?
  {
    if fault == ContainerFault then [EnsureContainer(ContainerName)]
    else [EnsureContainer(ContainerName), Upload(WarehouseBlob(evt.orderId), Serialize(evt))]
  }

  /** Whether execution `i` succeeds, given the blobs present beforehand. */
  predicate AttemptOk(evt: OrderToWarehouse, faults: seq<Fault>, blobs: map<BlobRef, BlobContent>, i: nat) {
    FaultAt(faults, i) == NoFault && WarehouseBlob(evt.orderId) !in blobs
  }

  datatype Attempt = Attempt(ok: bool, effects: seq<WorkerEffect>, store: StoreState)

  function BlobAttempt(evt: OrderToWarehouse, fault: Fault, s: StoreState): (r: Attempt)
    ensures r.ok <==> fault == NoFault && WarehouseBlob(evt.orderId) !in s.blobs
    ensures r.effects == AttemptEffects(evt, fault)
    ensures r.store.containers == if fault == ContainerFault then s.containers else s.containers + {ContainerName}
    ensures r.store.blobs == if r.ok then s.blobs[WarehouseBlob(evt.orderId) := Serialize(evt)] else s.blobs
  {
    var created := CreateContainer(s, ContainerName, fault);
    if !created.ok then Attempt(false, [EnsureContainer(ContainerName)], created.store)
    else
      var blob := WarehouseBlob(evt.orderId);
      var uploaded := UploadBlob(created.store, blob, Serialize(evt), fault);
      Attempt(uploaded.ok, [EnsureContainer(ContainerName), Upload(blob, Serialize(evt))], uploaded.store)
  }

  // ---------------------------------------------------------------------------
  // The invocation as a state machine

  datatype Phase = Received | Persisting(attempt: nat) | Persisted | Escalating | Escalated | FatallyFailed

  predicate Terminal(p: Phase) {
    p.Persisted? || p.Escalated? || p.FatallyFailed?
  }

  /** How completion was reached: by the primary action, by the fallback, or
      not at all (the fallback threw, so `Run` throws). */
  datatype Signal = CompletedByPrimary | CompletedByFallback | FatalFailure

  function SignalOf(p: Phase): Signal
    requires Terminal(p)
  {
    if p.Persisted? then CompletedByPrimary
    else if p.Escalated? then CompletedByFallback
    else FatalFailure
  }

  /** The invocation's state: phase, executions of the primary action so far,
      the calls issued, and the blob store. */
  datatype Config = Config(phase: Phase, executions: nat, log: seq<WorkerEffect>, store: StoreState)

  function Measure(p: Phase): nat {
    if p.Received? then RetryCount + 3
    else if p.Persisting? then (if p.attempt < RetryCount then RetryCount + 2 - p.attempt else 2)
    else if p.Escalating? then 1
    else 0
  }

  /** One transition. A failed execution is retried while retries remain;
      only the failure that escapes the retry stage reaches the fallback. */
  function Step(c: Config, evt: OrderToWarehouse, faults: seq<Fault>, escalation: HttpResponse, url: string): (r: Config)
    requires !Terminal(c.phase)
    ensures Measure(r.phase) < Measure(c.phase)
  {
    if c.phase.Received? then c.(phase := Persisting(0))
    else if c.phase.Persisting? then
      var n := c.phase.attempt;
      var a := BlobAttempt(evt, FaultAt(faults, n), c.store);
      var next := if a.ok then Persisted else if n < RetryCount then Persisting(n + 1) else Escalating;
      Config(next, c.executions + 1, c.log + a.effects, a.store)
    else
      var next := if IsSuccessStatus(escalation) then Escalated else FatallyFailed;
      Config(next, c.executions, c.log + [Escalate(url, EscalationBody(evt.orderId))], c.store)
  }

  function Drive(c: Config, evt: OrderToWarehouse, faults: seq<Fault>, escalation: HttpResponse, url: string): (r: Config)
    ensures Terminal(r.phase)
    decreases Measure(c.phase)
  {
    if Terminal(c.phase) then c else Drive(Step(c, evt, faults, escalation, url), evt, faults, escalation, url)
  }

  /** The configuration one invocation ends in, from the store it starts on. */
  function Reserve(evt: OrderToWarehouse, faults: seq<Fault>, escalation: HttpResponse, url: string, s0: StoreState): (r: Config)
    ensures Terminal(r.phase)
  {
    Drive(Config(Received, 0, [], s0), evt, faults, escalation, url)
  }

  // ---------------------------------------------------------------------------
  // The worker

  class OrderItemsReserver {
    const storage: BlobService
    /** The escalation endpoint, read from the "LogicApp" setting. */
    const logicAppUrl: string

    var phase: Phase
    var executions: nat
    var log: seq<WorkerEffect>

    function Current(): Config
      reads this, storage
    {
      Config(phase, executions, log, storage.State())
    }

    constructor (storage: BlobService, logicAppUrl: string)
      ensures this.storage == storage && this.logicAppUrl == logicAppUrl
      ensures phase == Received && executions == 0 && log == []
    {
      this.storage := storage;
      this.logicAppUrl := logicAppUrl;
      phase, executions, log := Received, 0, [];
    }

    /** Handles one delivered event; `faults` and `escalation` are what the
        storage service and the escalation endpoint do during this run. */
    method Run(order: OrderToWarehouse, faults: seq<Fault>, escalation: HttpResponse) returns (signal: Signal)
      modifies this, storage
      ensures Current() == Reserve(order, faults, escalation, logicAppUrl, old(storage.State()))
      ensures Terminal(phase) && signal == SignalOf(phase)
    {
      phase, executions, log := Received, 0, [];
      ghost var start := Current();
      while !Terminal(phase)
        invariant Drive(Current(), order, faults, escalation, logicAppUrl) == Drive(start, order, faults, escalation, logicAppUrl)
        decreases Measure(phase)
      {
        ghost var before := Current();
        if phase.Received? {
          phase := Persisting(0);
        } else if phase.Persisting? {
          var n := phase.attempt;
          var ok := SendToWarehouseBlob(order, FaultAt(faults, n));
          executions := executions + 1;
          phase := if ok then Persisted else if n < RetryCount then Persisting(n + 1) else Escalating;
        } else {
          var ok := SendMessageToLogicApp(order.orderId, escalation);
          phase := if ok then Escalated else FatallyFailed;
        }
        assert Current() == Step(before, order, faults, escalation, logicAppUrl);
      }
      signal := SignalOf(phase);
    }

    /** The primary action: ensure the container, then upload the event. */
    method SendToWarehouseBlob(order: OrderToWarehouse, fault: Fault) returns (ok: bool)
      modifies this`log, storage
      ensures var a := BlobAttempt(order, fault, old(storage.State()));
        ok == a.ok && log == old(log) + a.effects && storage.State() == a.store
    {
      log := log + [EnsureContainer(ContainerName)];
      var created := storage.CreateIfNotExists(ContainerName, fault);
      if !created {
        return false;
      }
      var blob := WarehouseBlob(order.orderId);
      var content := Serialize(order);
      log := log + [Upload(blob, content)];
      ok := storage.Upload(blob, content, fault);
    }

    /** The fallback action: post the order id; a non-2xx answer throws. */
    method SendMessageToLogicApp(orderId: int, response: HttpResponse) returns (ok: bool)
      modifies this`log
      ensures ok <==> IsSuccessStatus(response)
      ensures log == old(log) + [Escalate(logicAppUrl, EscalationBody(orderId))]
    {
      log := log + [Escalate(logicAppUrl, EscalationBody(orderId))];
      ok := IsSuccessStatus(response);
    }
  }
}
