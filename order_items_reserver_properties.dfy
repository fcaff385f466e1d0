/** What one invocation of the reservation worker does, stated in closed form
    (`Expected`) and proved equal to the state machine, followed by the
    retry / fallback properties that follow from it. */
module ReservationProperties {
  import opened Domain
  import opened Reservation
  import Formatting

  // ---------------------------------------------------------------------------
  // Closed-form reference

  /** The first execution in [n, MaxExecutions) that succeeds on `blobs`, or
      MaxExecutions when none does. */
  function FirstOkFrom(evt: OrderToWarehouse, faults: seq<Fault>, blobs: map<BlobRef, BlobContent>, n: nat): (k: nat)
    requires n <= MaxExecutions
    ensures n <= k <= MaxExecutions
    ensures k < MaxExecutions ==> AttemptOk(evt, faults, blobs, k)
    ensures forall i :: n <= i < k ==> !AttemptOk(evt, faults, blobs, i)
    decreases MaxExecutions - n
  {
    if n == MaxExecutions || AttemptOk(evt, faults, blobs, n) then n
    else FirstOkFrom(evt, faults, blobs, n + 1)
  }

  /** The calls issued by the first `k` executions, in order. */
  function AttemptsLog(evt: OrderToWarehouse, faults: seq<Fault>, k: nat): seq<WorkerEffect> {
    if k == 0 then [] else AttemptsLog(evt, faults, k - 1) + AttemptEffects(evt, FaultAt(faults, k - 1))
  }

  /** The containers after the first `k` executions. */
  function ContainersAfter(containers: set<string>, faults: seq<Fault>, k: nat): set<string> {
    if k == 0 then containers
    else ContainersAfter(containers, faults, k - 1) + (if FaultAt(faults, k - 1) == ContainerFault then {} else {ContainerName})
  }

  /** Executions run until the first one that succeeds, at most
      MaxExecutions of them; only when none succeeds is the escalation sent,
      once, after all of them. */
  function Expected(evt: OrderToWarehouse, faults: seq<Fault>, escalation: HttpResponse, url: string, s0: StoreState): Config {
    var k := FirstOkFrom(evt, faults, s0.blobs, 0);
    if k < MaxExecutions then
      Config(Persisted, k + 1, AttemptsLog(evt, faults, k + 1),
             StoreState(ContainersAfter(s0.containers, faults, k + 1), s0.blobs[WarehouseBlob(evt.orderId) := Serialize(evt)]))
    else
      Config(if IsSuccessStatus(escalation) then Escalated else FatallyFailed, MaxExecutions,
             AttemptsLog(evt, faults, MaxExecutions) + [Escalate(url, EscalationBody(evt.orderId))],
             StoreState(ContainersAfter(s0.containers, faults, MaxExecutions), s0.blobs))
  }

  /** From the n-th execution on, after n failed ones, the machine ends where
      the closed form says. */
  lemma {:induction false} DriveFromAttempt(c: Config, evt: OrderToWarehouse, faults: seq<Fault>,
                                            escalation: HttpResponse, url: string, s0: StoreState, n: nat)
    requires n <= RetryCount
    requires c == Config(Persisting(n), n, AttemptsLog(evt, faults, n), StoreState(ContainersAfter(s0.containers, faults, n), s0.blobs))
    requires forall i :: 0 <= i < n ==> !AttemptOk(evt, faults, s0.blobs, i)
    ensures Drive(c, evt, faults, escalation, url) == Expected(evt, faults, escalation, url, s0)
    decreases RetryCount - n
  {
    var next := Step(c, evt, faults, escalation, url);
    assert Drive(c, evt, faults, escalation, url) == Drive(next, evt, faults, escalation, url);
    var k := FirstOkFrom(evt, faults, s0.blobs, 0);
    if AttemptOk(evt, faults, s0.blobs, n) {
      assert k == n;
    } else if n < RetryCount {
      DriveFromAttempt(next, evt, faults, escalation, url, s0, n + 1);
    } else {
      assert k == MaxExecutions;
      var last := Step(next, evt, faults, escalation, url);
      assert Drive(next, evt, faults, escalation, url) == last;
    }
  }

  /** The state machine and the closed form agree on every input. */
  lemma ReserveMatchesExpected(evt: OrderToWarehouse, faults: seq<Fault>, escalation: HttpResponse, url: string, s0: StoreState)
    ensures Reserve(evt, faults, escalation, url, s0) == Expected(evt, faults, escalation, url, s0)
  {
    var c0 := Config(Received, 0, [], s0);
    var c1 := Step(c0, evt, faults, escalation, url);
    assert Drive(c0, evt, faults, escalation, url) == Drive(c1, evt, faults, escalation, url);
    DriveFromAttempt(c1, evt, faults, escalation, url, s0, 0);
  }

  lemma {:induction false} AttemptsLogHasNoEscalation(evt: OrderToWarehouse, faults: seq<Fault>, k: nat)
    ensures forall j :: 0 <= j < |AttemptsLog(evt, faults, k)| ==> !AttemptsLog(evt, faults, k)[j].Escalate?
  {
    if k > 0 {
      var prev := AttemptsLog(evt, faults, k - 1);
      var step := AttemptEffects(evt, FaultAt(faults, k - 1));
      var log: seq<WorkerEffect> := prev + step;
      AttemptsLogHasNoEscalation(evt, faults, k - 1);
      forall j | 0 <= j < |log|
        ensures !log[j].Escalate?
      {
        if j < |prev| {
          assert log[j] == prev[j];
        } else {
          assert log[j] == step[j - |prev|];
        }
      }
    }
  }

  /** Every upload in `log` writes the serialized event under the order's
      key, right after a call that ensures the container. */
  ghost predicate UploadsFollowContainer(log: seq<WorkerEffect>, evt: OrderToWarehouse) {
    forall j :: 0 <= j < |log| && log[j].Upload? ==>
      j > 0 && log[j - 1] == EnsureContainer(ContainerName) && log[j] == Upload(WarehouseBlob(evt.orderId), Serialize(evt))
  }

  lemma {:induction false} AttemptsLogUploads(evt: OrderToWarehouse, faults: seq<Fault>, k: nat)
    ensures UploadsFollowContainer(AttemptsLog(evt, faults, k), evt)
  {
    if k > 0 {
      var prev := AttemptsLog(evt, faults, k - 1);
      var step := AttemptEffects(evt, FaultAt(faults, k - 1));
      var log := prev + step;
      AttemptsLogUploads(evt, faults, k - 1);
      forall j | 0 <= j < |log| && log[j].Upload?
        ensures j > 0 && log[j - 1] == EnsureContainer(ContainerName) && log[j] == Upload(WarehouseBlob(evt.orderId), Serialize(evt))
      {
        if j < |prev| {
          assert prev[j] == log[j];
          assert j > 0 && prev[j - 1] == EnsureContainer(ContainerName);
          assert log[j - 1] == prev[j - 1];
        } else {
          assert log[j] == step[j - |prev|];
          assert log[j - 1] == step[0];
        }
      }
    }
  }

  // ---------------------------------------------------------------------------
  // Retry and fallback

  /** The primary action runs at least once and at most 1 + RetryCount times;
      every execution but the last failed, and the run stopped short of the
      bound only because the last one succeeded. */
  lemma ExecutionsBoundedAndRetryOnlyAfterFailure(evt: OrderToWarehouse, faults: seq<Fault>, escalation: HttpResponse, url: string, s0: StoreState)
    ensures var r := Reserve(evt, faults, escalation, url, s0);
      && 1 <= r.executions <= MaxExecutions
      && (forall i :: 0 <= i < r.executions - 1 ==> !AttemptOk(evt, faults, s0.blobs, i))
      && (r.executions < MaxExecutions ==> AttemptOk(evt, faults, s0.blobs, r.executions - 1))
  {
    ReserveMatchesExpected(evt, faults, escalation, url, s0);
  }

  /** If some execution can succeed, the first one that can ends the run:
      completion by the primary action, no escalation, the event stored. */
  lemma PrimarySuccessSkipsFallback(evt: OrderToWarehouse, faults: seq<Fault>, escalation: HttpResponse, url: string, s0: StoreState, i: nat)
    requires i < MaxExecutions && AttemptOk(evt, faults, s0.blobs, i)
    ensures var r := Reserve(evt, faults, escalation, url, s0);
      && SignalOf(r.phase) == CompletedByPrimary
      && 1 <= r.executions <= i + 1
      && AttemptOk(evt, faults, s0.blobs, r.executions - 1)
      && (forall j :: 0 <= j < |r.log| ==> !r.log[j].Escalate?)
      && r.store.blobs == s0.blobs[WarehouseBlob(evt.orderId) := Serialize(evt)]
  {
    ReserveMatchesExpected(evt, faults, escalation, url, s0);
    AttemptsLogHasNoEscalation(evt, faults, FirstOkFrom(evt, faults, s0.blobs, 0) + 1);
  }

  /** If every execution fails, all 1 + RetryCount run and then the
      escalation is sent exactly once, last, with the order id; nothing is
      stored. */
  lemma ExhaustionEscalatesOnce(evt: OrderToWarehouse, faults: seq<Fault>, escalation: HttpResponse, url: string, s0: StoreState)
    requires forall i :: 0 <= i < MaxExecutions ==> !AttemptOk(evt, faults, s0.blobs, i)
    ensures var r := Reserve(evt, faults, escalation, url, s0);
      && r.executions == MaxExecutions
      && |r.log| > 0
      && r.log[|r.log| - 1] == Escalate(url, EscalationBody(evt.orderId))
      && (forall j :: 0 <= j < |r.log| - 1 ==> !r.log[j].Escalate?)
      && SignalOf(r.phase) != CompletedByPrimary
      && r.store.blobs == s0.blobs
  {
    ReserveMatchesExpected(evt, faults, escalation, url, s0);
    AttemptsLogHasNoEscalation(evt, faults, MaxExecutions);
  }

  /** The fallback is the outer policy: an escalation is only ever the last
      call of a run, after every execution the retry stage allows. */
  lemma FallbackIsOutermost(evt: OrderToWarehouse, faults: seq<Fault>, escalation: HttpResponse, url: string, s0: StoreState)
    ensures var r := Reserve(evt, faults, escalation, url, s0);
      forall j :: 0 <= j < |r.log| && r.log[j].Escalate? ==>
        j == |r.log| - 1 && r.executions == MaxExecutions
  {
    ReserveMatchesExpected(evt, faults, escalation, url, s0);
    var k := FirstOkFrom(evt, faults, s0.blobs, 0);
    AttemptsLogHasNoEscalation(evt, faults, if k < MaxExecutions then k + 1 else MaxExecutions);
  }

  /** The three ways a run ends, each exactly characterized. */
  lemma CompletionSignals(evt: OrderToWarehouse, faults: seq<Fault>, escalation: HttpResponse, url: string, s0: StoreState)
    ensures var r := Reserve(evt, faults, escalation, url, s0);
      var exhausted := forall i :: 0 <= i < MaxExecutions ==> !AttemptOk(evt, faults, s0.blobs, i);
      && (SignalOf(r.phase) == CompletedByPrimary <==> !exhausted)
      && (SignalOf(r.phase) == CompletedByFallback <==> exhausted && IsSuccessStatus(escalation))
      && (SignalOf(r.phase) == FatalFailure <==> exhausted && !IsSuccessStatus(escalation))
  {
    ReserveMatchesExpected(evt, faults, escalation, url, s0);
  }

  /** Every execution ensures the container before its upload, and every
      upload writes the serialization of the whole event under the order's
      key. */
  lemma UploadsFollowContainerCreation(evt: OrderToWarehouse, faults: seq<Fault>, escalation: HttpResponse, url: string, s0: StoreState)
    ensures UploadsFollowContainer(Reserve(evt, faults, escalation, url, s0).log, evt)
  {
    ReserveMatchesExpected(evt, faults, escalation, url, s0);
    var k := FirstOkFrom(evt, faults, s0.blobs, 0);
    AttemptsLogUploads(evt, faults, if k < MaxExecutions then k + 1 else MaxExecutions);
  }

  /** Apart from the upload itself, a run depends on the event only through
      its order id: two events with the same id end alike and escalate with
      the same body. */
  lemma OutcomeDependsOnlyOnOrderId(e1: OrderToWarehouse, e2: OrderToWarehouse, faults: seq<Fault>, escalation: HttpResponse, url: string, s0: StoreState)
    requires e1.orderId == e2.orderId
    ensures var r1 := Reserve(e1, faults, escalation, url, s0);
      var r2 := Reserve(e2, faults, escalation, url, s0);
      && r1.phase == r2.phase
      && r1.executions == r2.executions
      && r1.store.containers == r2.store.containers
      && (!r1.phase.Persisted? ==> |r1.log| > 0 && |r2.log| > 0 && r1.log[|r1.log| - 1] == r2.log[|r2.log| - 1])
  {
    ReserveMatchesExpected(e1, faults, escalation, url, s0);
    ReserveMatchesExpected(e2, faults, escalation, url, s0);
    assert forall i :: AttemptOk(e1, faults, s0.blobs, i) == AttemptOk(e2, faults, s0.blobs, i);
    assert FirstOkFrom(e1, faults, s0.blobs, 0) == FirstOkFrom(e2, faults, s0.blobs, 0) by {
      FirstOkAgree(e1, e2, faults, s0.blobs, 0);
    }
  }

  lemma {:induction false} FirstOkAgree(e1: OrderToWarehouse, e2: OrderToWarehouse, faults: seq<Fault>, blobs: map<BlobRef, BlobContent>, n: nat)
    requires n <= MaxExecutions
    requires e1.orderId == e2.orderId
    ensures FirstOkFrom(e1, faults, blobs, n) == FirstOkFrom(e2, faults, blobs, n)
    decreases MaxExecutions - n
  {
    if n < MaxExecutions && !AttemptOk(e1, faults, blobs, n) {
      FirstOkAgree(e1, e2, faults, blobs, n + 1);
    }
  }

  // ---------------------------------------------------------------------------
  // Redelivery

  /** The upload never overwrites: when the order's blob already exists,
      every execution fails, the run escalates, and the blob is untouched. */
  lemma ExistingBlobForcesEscalation(evt: OrderToWarehouse, faults: seq<Fault>, escalation: HttpResponse, url: string, s0: StoreState)
    requires WarehouseBlob(evt.orderId) in s0.blobs
    ensures var r := Reserve(evt, faults, escalation, url, s0);
      && r.executions == MaxExecutions
      && SignalOf(r.phase) != CompletedByPrimary
      && r.store.blobs == s0.blobs
  {
    ExhaustionEscalatesOnce(evt, faults, escalation, url, s0);
  }

  /** A second delivery of an event already stored by the primary action
      leaves exactly the first record in place and reaches the fallback. */
  lemma RedeliveryAfterSuccess(evt: OrderToWarehouse, faults1: seq<Fault>, faults2: seq<Fault>,
                               escalation1: HttpResponse, escalation2: HttpResponse, url: string, s0: StoreState)
    requires SignalOf(Reserve(evt, faults1, escalation1, url, s0).phase) == CompletedByPrimary
    ensures var r1 := Reserve(evt, faults1, escalation1, url, s0);
      var r2 := Reserve(evt, faults2, escalation2, url, r1.store);
      && SignalOf(r2.phase) != CompletedByPrimary
      && r2.executions == MaxExecutions
      && r2.store.blobs == r1.store.blobs
      && WarehouseBlob(evt.orderId) in r2.store.blobs
      && r2.store.blobs[WarehouseBlob(evt.orderId)] == Serialize(evt)
  {
    var r1 := Reserve(evt, faults1, escalation1, url, s0);
    ReserveMatchesExpected(evt, faults1, escalation1, url, s0);
    ExistingBlobForcesEscalation(evt, faults2, escalation2, url, r1.store);
  }

  // ---------------------------------------------------------------------------
  // The blob key

  /** Reads the order id back out of a blob name. */
  lemma BlobKeyRoundTrip(orderId: int)
    ensures OrderIdOfKey(BlobKey(orderId)) == Some(orderId)
  {
    var key := BlobKey(orderId);
    var digits := Formatting.IntToString(orderId);
    assert key[..|KeyPrefix|] == KeyPrefix;
    assert key[|key| - |KeySuffix|..] == KeySuffix;
    assert key[|KeyPrefix|..|key| - |KeySuffix|] == digits;
    Formatting.IntToStringRoundTrip(orderId);
  }

  /** The blob name, in the fixed container, depends on the order id alone
      and tells order ids apart. */
  lemma BlobKeyInjective(a: int, b: int)
    ensures BlobKey(a) == BlobKey(b) <==> a == b
    ensures WarehouseBlob(a) == WarehouseBlob(b) <==> a == b
  {
    BlobKeyRoundTrip(a);
    BlobKeyRoundTrip(b);
  }
}
