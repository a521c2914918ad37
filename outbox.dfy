/** The transactional outbox of the saga services. Each service writes the events it
    must publish into an `outbox_event` table in the same transaction as its own
    change; a scheduled publisher later sends the pending ones to Kafka, marking each
    as processed on success or counting a retry on failure, and a nightly job deletes
    processed events older than seven days. The clock, the broker's outcome and the
    identity generator become parameters and fields. */
module Outbox {
  import opened Common

  /** Instants (`LocalDateTime`) as a count of seconds. */
  type Instant = int

  const SecondsPerDay: int := 86400
  /** `cleanupProcessedEvents` keeps processed events for 7 days. */
  const RetentionDays: int := 7
  /** `MAX_RETRIES` of the inventory publisher, and the default `outbox.max-retry-count`
      of the order publisher. */
  const MaxRetries: nat := 3

  /** One row of `outbox_event`. `topic` is the inventory service's column; the
      choreographed services call it `destination`. */
  datatype Event = Event(
    aggregateId: string,
    eventType: string,
    eventData: string,
    topic: string,
    createdAt: Instant,
    processed: bool,
    processedAt: Option<Instant>,
    retryCount: nat,
    errorMessage: Option<string>)

  /** The event `saveOutboxEvent` builds: unprocessed, no retries, created now. */
  function NewEvent(aggregateId: string, eventType: string, eventData: string, topic: string, now: Instant): (e: Event)
    ensures !e.processed && e.retryCount == 0 && e.processedAt.None? && e.errorMessage.None?
    ensures e.aggregateId == aggregateId && e.eventType == eventType && e.eventData == eventData && e.topic == topic
    ensures e.createdAt == now
  {
    Event(aggregateId, eventType, eventData, topic, now, false, None, 0, None)
  }

  /** `markAsProcessed`: processed from `now` on; the retry count and the last error
      message are kept. */
  function Processed(e: Event, now: Instant): (p: Event)
    ensures p.processed && p.processedAt == Some(now)
    ensures p.retryCount == e.retryCount && p.errorMessage == e.errorMessage
    ensures SamePayload(p, e)
  {
    e.(processed := true, processedAt := Some(now))
  }

  /** `incrementRetryCount` / `handlePublishError`: one more retry and the failure's
      message; whether it is processed is kept. */
  function Retried(e: Event, message: string): (r: Event)
    ensures r.retryCount == e.retryCount + 1 && r.errorMessage == Some(message)
    ensures r.processed == e.processed && r.processedAt == e.processedAt
    ensures SamePayload(r, e)
  {
    e.(retryCount := e.retryCount + 1, errorMessage := Some(message))
  }

  /** What the publisher never changes: the event's identity, payload and creation. */
  predicate SamePayload(a: Event, b: Event)
  {
    a.aggregateId == b.aggregateId && a.eventType == b.eventType && a.eventData == b.eventData &&
    a.topic == b.topic && a.createdAt == b.createdAt
  }

  // ---------------------------------------------------------------------------
  // The queries

  /** The filter of the two pending-event queries: unprocessed, and below the retry
      limit when there is one. */
  predicate Pending(e: Event, retryLimit: Option<nat>)
  {
    !e.processed && (retryLimit.None? || e.retryCount < retryLimit.value)
  }

  /** `findProcessedEventsBefore(cutoff)`: processed, and processed strictly before the
      cutoff (a row without `processedAt` never matches). */
  predicate ProcessedBefore(e: Event, cutoff: Instant)
  {
    e.processed && e.processedAt.Some? && e.processedAt.value < cutoff
  }

  /** Ascending `createdAt` along a sequence of ids of the table. */
  predicate ByCreation(t: map<nat, Event>, s: seq<nat>)
  {
    (forall k :: 0 <= k < |s| ==> s[k] in t) &&
    forall k :: 0 < k < |s| ==> t[s[k - 1]].createdAt <= t[s[k]].createdAt
  }

  /** The ids below `n` of the pending rows, in increasing order. */
  function PendingBelow(t: map<nat, Event>, n: nat, retryLimit: Option<nat>): (s: seq<nat>)
    ensures forall id :: id in s <==> id < n && id in t && Pending(t[id], retryLimit)
    ensures Distinct(s)
    ensures forall k :: 0 <= k < |s| ==> s[k] < n
  {
    if n == 0 then []
    else
      var prev := PendingBelow(t, n - 1, retryLimit);
      if n - 1 in t && Pending(t[n - 1], retryLimit) then prev + [n - 1] else prev
  }

  /** Places one id among ids already in ascending creation order. */
  function InsertByCreation(t: map<nat, Event>, id: nat, s: seq<nat>): (r: seq<nat>)
    requires id in t && forall k :: 0 <= k < |s| ==> s[k] in t
    ensures |r| == |s| + 1
    ensures forall x :: x in r <==> x == id || x in s
    ensures |r| > 0 && (r[0] == id || (|s| > 0 && r[0] == s[0]))
    ensures ByCreation(t, s) ==> ByCreation(t, r)
    ensures Distinct(s) && id !in s ==> Distinct(r)
  {
    if |s| == 0 then [id]
    else if t[id].createdAt <= t[s[0]].createdAt then [id] + s
    else
      var rest := InsertByCreation(t, id, s[1..]);
      DistinctCons(s[0], s[1..]);
      DistinctCons(s[0], rest);
      [s[0]] + rest
  }

  lemma DistinctCons(x: nat, s: seq<nat>)
    ensures Distinct([x] + s) <==> x !in s && Distinct(s)
  {
    var c := [x] + s;
    if Distinct(c) {
      forall i, j | 0 <= i < j < |s| ensures s[i] != s[j] {
        assert c[i + 1] == s[i] && c[j + 1] == s[j];
      }
      forall j | 0 <= j < |s| ensures s[j] != x {
        assert c[0] == x && c[j + 1] == s[j];
      }
    }
    if x !in s && Distinct(s) {
      forall i, j | 0 <= i < j < |c| ensures c[i] != c[j] {
        assert c[j] == s[j - 1];
        if i > 0 {
          assert c[i] == s[i - 1];
        } else {
          assert c[i] == x;
          assert s[j - 1] in s;
        }
      }
    }
  }

  /** Orders ids by creation time. */
  function SortByCreation(t: map<nat, Event>, s: seq<nat>): (r: seq<nat>)
    requires forall k :: 0 <= k < |s| ==> s[k] in t
    ensures |r| == |s|
    ensures forall x :: x in r <==> x in s
    ensures ByCreation(t, r)
    ensures Distinct(s) ==> Distinct(r)
  {
    if |s| == 0 then []
    else InsertByCreation(t, s[0], SortByCreation(t, s[1..]))
  }

  /** The rows a pending-event query returns: exactly the pending rows, each once, in
      ascending creation order. */
  function PendingEvents(t: map<nat, Event>, n: nat, retryLimit: Option<nat>): (s: seq<nat>)
    ensures forall id :: id in s <==> id < n && id in t && Pending(t[id], retryLimit)
    ensures Distinct(s) && ByCreation(t, s)
  {
    SortByCreation(t, PendingBelow(t, n, retryLimit))
  }

  /** The table after the cleanup job: the rows processed before the cutoff are gone,
      every other row is kept as it was. */
  function Retained(t: map<nat, Event>, cutoff: Instant): (r: map<nat, Event>)
    ensures forall id :: id in r <==> id in t && !ProcessedBefore(t[id], cutoff)
    ensures forall id :: id in r ==> r[id] == t[id]
  {
    map id | id in t && !ProcessedBefore(t[id], cutoff) :: t[id]
  }

  // ---------------------------------------------------------------------------
  // The table

  /** The `outbox_event` table with its identity generator. */
  class OutboxTable {
    var table: map<nat, Event>
    var nextId: nat

    /** Every id the table holds was handed out by the generator. */
    predicate Valid()
      reads this
    {
      forall id :: id in table ==> id < nextId
    }

    constructor()
      ensures Valid() && table == map[] && nextId == 0
    {
      table := map[];
      nextId := 0;
    }

    /** `save` of a new entity: it receives the next identity. */
    method Insert(e: Event) returns (id: nat)
      requires Valid()
      modifies this
      ensures Valid()
      ensures id == old(nextId) && id !in old(table)
      ensures table == old(table)[id := e] && nextId == old(nextId) + 1
    {
      id := nextId;
      table := table[id := e];
      nextId := nextId + 1;
    }

    /** `save` of an entity read from the table: its row is overwritten. */
    method Update(id: nat, e: Event)
      requires Valid() && id in table
      modifies this`table
      ensures Valid()
      ensures table == old(table)[id := e]
    {
      table := table[id := e];
    }

    /** `deleteAll`: the given rows disappear, the others are kept. */
    method DeleteAll(ids: set<nat>)
      requires Valid()
      modifies this`table
      ensures Valid()
      ensures table == map id | id in old(table) && id !in ids :: old(table)[id]
    {
      table := map id | id in table && id !in ids :: table[id];
    }

    /** The pending rows, as `findByProcessedFalse...OrderByCreatedAt` return them. */
    function FindPending(retryLimit: Option<nat>): (s: seq<nat>)
      reads this
      requires Valid()
      ensures forall id :: id in s <==> id in table && Pending(table[id], retryLimit)
      ensures Distinct(s) && ByCreation(table, s)
    {
      PendingEvents(table, nextId, retryLimit)
    }
  }

  // ---------------------------------------------------------------------------
  // The broker

  /** The outcome of one send: delivered, or the exception's message. */
  datatype SendResult = Sent | Failed(message: string)

  /** A record handed to Kafka: the explicit topic (none when the producer's own topic
      is used) and the payload. */
  datatype Message = Message(topic: Option<string>, payload: string)

  /** The Kafka producer: the outcome of the n-th send is `outcome(n)`, and the delivered
      messages are recorded in order. */
  class Broker {
    const outcome: nat -> SendResult
    var attempts: nat
    var delivered: seq<Message>

    constructor(outcome: nat -> SendResult)
      ensures this.outcome == outcome && attempts == 0 && delivered == []
    {
      this.outcome := outcome;
      attempts := 0;
      delivered := [];
    }

    method Send(m: Message) returns (r: SendResult)
      modifies this
      ensures r == outcome(old(attempts)) && attempts == old(attempts) + 1
      ensures delivered == if r.Sent? then old(delivered) + [m] else old(delivered)
    {
      r := outcome(attempts);
      attempts := attempts + 1;
      if r.Sent? {
        delivered := delivered + [m];
      }
    }
  }

  // ---------------------------------------------------------------------------
  // One publishing round

  /** The event after one publish attempt. */
  function Attempted(e: Event, r: SendResult, now: Instant): (a: Event)
    ensures r.Sent? ==> a == Processed(e, now)
    ensures r.Failed? ==> a == Retried(e, r.message)
  {
    match r
    case Sent => Processed(e, now)
    case Failed(message) => Retried(e, message)
  }

  /** The table after the first `|batch|` attempts of a round whose first send is the
      broker's `start`-th. */
  function PublishAll(t: map<nat, Event>, batch: seq<nat>, outcome: nat -> SendResult, start: nat, now: Instant)
    : (r: map<nat, Event>)
    requires forall k :: 0 <= k < |batch| ==> batch[k] in t
    ensures r.Keys == t.Keys
  {
    if |batch| == 0 then t
    else
      var prev := PublishAll(t, batch[..|batch| - 1], outcome, start, now);
      var id := batch[|batch| - 1];
      prev[id := Attempted(prev[id], outcome(start + |batch| - 1), now)]
  }

  /** The messages a round delivers: the payload of each event whose send succeeded,
      in batch order, addressed to its own topic when `routed`. */
  function Deliveries(t: map<nat, Event>, batch: seq<nat>, outcome: nat -> SendResult, start: nat, routed: bool)
    : (ms: seq<Message>)
    requires forall k :: 0 <= k < |batch| ==> batch[k] in t
    ensures |ms| <= |batch|
  {
    if |batch| == 0 then []
    else
      var id := batch[|batch| - 1];
      Deliveries(t, batch[..|batch| - 1], outcome, start, routed) +
      (if outcome(start + |batch| - 1).Sent?
       then [Message(if routed then Some(t[id].topic) else None, t[id].eventData)]
       else [])
  }

  /** A row the batch does not name keeps its value through the round. */
  lemma {:induction false} PublishAllOutside(t: map<nat, Event>, batch: seq<nat>, outcome: nat -> SendResult,
                                             start: nat, now: Instant, id: nat)
    requires forall k :: 0 <= k < |batch| ==> batch[k] in t
    requires id in t && id !in batch
    ensures PublishAll(t, batch, outcome, start, now)[id] == t[id]
    decreases |batch|
  {
    if |batch| > 0 {
      var front := batch[..|batch| - 1];
      assert id !in front && id != batch[|batch| - 1];
      PublishAllOutside(t, front, outcome, start, now, id);
    }
  }

  /** The `k`-th event of a batch of distinct events ends as its own attempt, made
      with the round's `k`-th send, whatever happened to the others. */
  lemma {:induction false} PublishAllAt(t: map<nat, Event>, batch: seq<nat>, outcome: nat -> SendResult,
                                        start: nat, now: Instant, k: nat)
    requires forall j :: 0 <= j < |batch| ==> batch[j] in t
    requires Distinct(batch) && k < |batch|
    ensures PublishAll(t, batch, outcome, start, now)[batch[k]] == Attempted(t[batch[k]], outcome(start + k), now)
    decreases |batch|
  {
    var n := |batch| - 1;
    var front := batch[..n];
    assert Distinct(front);
    if k < n {
      assert front[k] == batch[k] && batch[k] != batch[n];
      PublishAllAt(t, front, outcome, start, now, k);
    } else {
      assert batch[n] !in front;
      PublishAllOutside(t, front, outcome, start, now, batch[n]);
    }
  }

  /** Attempting a batch of distinct events changes each of them by its own attempt
      alone, and leaves every other row as it was. */
  lemma PublishAllPointwise(t: map<nat, Event>, batch: seq<nat>, outcome: nat -> SendResult,
                            start: nat, now: Instant)
    requires forall k :: 0 <= k < |batch| ==> batch[k] in t
    requires Distinct(batch)
    ensures forall k :: 0 <= k < |batch| ==>
              PublishAll(t, batch, outcome, start, now)[batch[k]] == Attempted(t[batch[k]], outcome(start + k), now)
    ensures forall id :: id in t && id !in batch ==> PublishAll(t, batch, outcome, start, now)[id] == t[id]
  {
    forall k | 0 <= k < |batch|
      ensures PublishAll(t, batch, outcome, start, now)[batch[k]] == Attempted(t[batch[k]], outcome(start + k), now)
    {
      PublishAllAt(t, batch, outcome, start, now, k);
    }
    forall id | id in t && id !in batch
      ensures PublishAll(t, batch, outcome, start, now)[id] == t[id]
    {
      PublishAllOutside(t, batch, outcome, start, now, id);
    }
  }

  /** One more attempt of a round: the next event, which no earlier attempt of the
      round touched, gets its own attempt, and its payload is delivered when sent. */
  lemma RoundStep(t: map<nat, Event>, batch: seq<nat>, k: nat, outcome: nat -> SendResult, start: nat,
                  now: Instant, routed: bool)
    requires k < |batch| && Distinct(batch)
    requires forall j :: 0 <= j < |batch| ==> batch[j] in t
    ensures var prev := PublishAll(t, batch[..k], outcome, start, now);
            prev[batch[k]] == t[batch[k]] &&
            PublishAll(t, batch[..k + 1], outcome, start, now) ==
              prev[batch[k] := Attempted(t[batch[k]], outcome(start + k), now)]
    ensures var e := t[batch[k]];
            Deliveries(t, batch[..k + 1], outcome, start, routed) ==
              Deliveries(t, batch[..k], outcome, start, routed) +
              (if outcome(start + k).Sent? then [Message(if routed then Some(e.topic) else None, e.eventData)] else [])
  {
    assert batch[..k + 1][..k] == batch[..k];
    assert batch[..k + 1][k] == batch[k];
    assert batch[k] !in batch[..k];
    PublishAllOutside(t, batch[..k], outcome, start, now, batch[k]);
  }

  /** Every retry count is at most the limit. */
  predicate RetriesBounded(t: map<nat, Event>, limit: nat)
  {
    forall id :: id in t ==> t[id].retryCount <= limit
  }

  /** A round over pending events never lowers a retry count, raises it by at most
      one, never un-processes an event, and keeps every retry count within the limit:
      an event fails at most `limit` times before the query stops returning it. */
  lemma RoundMonotone(t: map<nat, Event>, batch: seq<nat>, outcome: nat -> SendResult, start: nat, now: Instant,
                      limit: nat)
    requires forall k :: 0 <= k < |batch| ==> batch[k] in t && Pending(t[batch[k]], Some(limit))
    requires Distinct(batch)
    ensures var r := PublishAll(t, batch, outcome, start, now);
            forall id :: id in t ==>
              t[id].retryCount <= r[id].retryCount <= t[id].retryCount + 1 &&
              (t[id].processed ==> r[id] == t[id]) &&
              SamePayload(r[id], t[id])
    ensures RetriesBounded(t, limit) ==> RetriesBounded(PublishAll(t, batch, outcome, start, now), limit)
  {
    PublishAllPointwise(t, batch, outcome, start, now);
    var r := PublishAll(t, batch, outcome, start, now);
    forall id | id in t
      ensures t[id].retryCount <= r[id].retryCount <= t[id].retryCount + 1
      ensures t[id].processed ==> r[id] == t[id]
      ensures SamePayload(r[id], t[id])
      ensures t[id].retryCount <= limit ==> r[id].retryCount <= limit
    {
      if id in batch {
        var k :| 0 <= k < |batch| && batch[k] == id;
        assert r[id] == Attempted(t[id], outcome(start + k), now);
      }
    }
  }

  /** An event at the retry limit is never selected again, and so never changes. */
  lemma ExhaustedEventUntouched(t: map<nat, Event>, batch: seq<nat>, outcome: nat -> SendResult, start: nat,
                                now: Instant, limit: nat, id: nat)
    requires forall k :: 0 <= k < |batch| ==> batch[k] in t && Pending(t[batch[k]], Some(limit))
    requires Distinct(batch)
    requires id in t && t[id].retryCount >= limit
    ensures id !in batch
    ensures PublishAll(t, batch, outcome, start, now)[id] == t[id]
  {
    PublishAllPointwise(t, batch, outcome, start, now);
  }

  // ---------------------------------------------------------------------------
  // The services

  /** `OutboxEventService`: the writes and queries a service makes on its outbox. The
      inventory service's version has only `saveOutboxEvent`; the product-validation
      service's has all five operations. */
  class OutboxEventService {
    const repository: OutboxTable

    constructor(repository: OutboxTable)
      ensures this.repository == repository
    {
      this.repository := repository;
    }

    /** `saveOutboxEvent`: adds exactly one row, unprocessed, with no retries, created
        now and carrying the given fields; every existing row is kept. The generated
        id is returned. */
    method SaveOutboxEvent(aggregateId: string, eventType: string, eventData: string, topic: string, now: Instant)
      returns (id: nat)
      requires repository.Valid()
      modifies repository
      ensures repository.Valid()
      ensures id !in old(repository.table)
      ensures repository.table == old(repository.table)[id := NewEvent(aggregateId, eventType, eventData, topic, now)]
    {
      id := repository.Insert(NewEvent(aggregateId, eventType, eventData, topic, now));
    }

    /** `findUnprocessedEvents`: every unprocessed row, once, by ascending creation. */
    function FindUnprocessedEvents(): (s: seq<nat>)
      reads this, repository
      requires repository.Valid()
      ensures forall id :: id in s <==> id in repository.table && !repository.table[id].processed
      ensures Distinct(s) && ByCreation(repository.table, s)
    {
      repository.FindPending(None)
    }

    /** `findUnprocessedEventsWithRetryLimit(m)`: every unprocessed row with fewer than
        `m` retries, once, by ascending creation. */
    function FindUnprocessedEventsWithRetryLimit(maxRetryCount: nat): (s: seq<nat>)
      reads this, repository
      requires repository.Valid()
      ensures forall id :: id in s <==>
                id in repository.table && !repository.table[id].processed &&
                repository.table[id].retryCount < maxRetryCount
      ensures Distinct(s) && ByCreation(repository.table, s)
    {
      repository.FindPending(Some(maxRetryCount))
    }

    /** `markAsProcessed`: only the given row changes, and only by `Processed`. */
    method MarkAsProcessed(id: nat, now: Instant)
      requires repository.Valid() && id in repository.table
      modifies repository`table
      ensures repository.Valid()
      ensures repository.table == old(repository.table)[id := Processed(old(repository.table)[id], now)]
    {
      repository.Update(id, Processed(repository.table[id], now));
    }

    /** `incrementRetryCount`: only the given row changes, and only by `Retried`. */
    method IncrementRetryCount(id: nat, errorMessage: string)
      requires repository.Valid() && id in repository.table
      modifies repository`table
      ensures repository.Valid()
      ensures repository.table == old(repository.table)[id := Retried(old(repository.table)[id], errorMessage)]
    {
      repository.Update(id, Retried(repository.table[id], errorMessage));
    }
  }

  /** A round's state after `k` attempts of `batch`, as values: the table, the
      broker's send count and what it delivered. */
  predicate RoundState(table: map<nat, Event>, attempts: nat, delivered: seq<Message>, batch: seq<nat>, k: nat,
                       t0: map<nat, Event>, outcome: nat -> SendResult, start: nat, d0: seq<Message>,
                       now: Instant, routed: bool)
    requires k <= |batch| && forall j :: 0 <= j < |batch| ==> batch[j] in t0
  {
    table == PublishAll(t0, batch[..k], outcome, start, now) &&
    attempts == start + k &&
    delivered == d0 + Deliveries(t0, batch[..k], outcome, start, routed)
  }

  /** From the state after `k` attempts, attempting the `k`-th event with the next send
      and delivering its payload when sent gives the state after `k + 1`. */
  lemma RoundAdvance(table: map<nat, Event>, attempts: nat, delivered: seq<Message>, batch: seq<nat>, k: nat,
                     t0: map<nat, Event>, outcome: nat -> SendResult, start: nat, d0: seq<Message>,
                     now: Instant, routed: bool)
    requires k < |batch| && Distinct(batch) && forall j :: 0 <= j < |batch| ==> batch[j] in t0
    requires RoundState(table, attempts, delivered, batch, k, t0, outcome, start, d0, now, routed)
    ensures batch[k] in table && table[batch[k]] == t0[batch[k]]
    ensures var e := table[batch[k]];
            var r := outcome(attempts);
            RoundState(table[batch[k] := Attempted(e, r, now)], attempts + 1,
                       if r.Sent? then delivered + [Message(if routed then Some(e.topic) else None, e.eventData)]
                       else delivered,
                       batch, k + 1, t0, outcome, start, d0, now, routed)
  {
    RoundStep(t0, batch, k, outcome, start, now, routed);
  }

  /** The publishing loop's state after `k` attempts of `batch`. */
  predicate RoundAt(repository: OutboxTable, broker: Broker, batch: seq<nat>, k: nat, now: Instant,
                    t0: map<nat, Event>, start: nat, d0: seq<Message>, routed: bool)
    reads repository, broker
    requires k <= |batch| && forall j :: 0 <= j < |batch| ==> batch[j] in t0
  {
    RoundState(repository.table, broker.attempts, broker.delivered, batch, k, t0, broker.outcome, start, d0, now, routed)
  }

  /** The inventory service's `OutboxEventPublisher`, which updates the table itself
      and sends each payload through its producer's own topic. */
  class InventoryOutboxPublisher {
    const repository: OutboxTable
    const kafkaProducer: Broker

    constructor(repository: OutboxTable, kafkaProducer: Broker)
      ensures this.repository == repository && this.kafkaProducer == kafkaProducer
    {
      this.repository := repository;
      this.kafkaProducer := kafkaProducer;
    }

    /** `publishPendingEvents`: the batch is the pending rows below `MAX_RETRIES`, by
        creation; every one of them is attempted, one send each, whatever the earlier
        sends did, and the table and the delivered messages end as the round's. */
    method PublishPendingEvents(now: Instant)
      requires repository.Valid()
      modifies repository`table, kafkaProducer
      ensures repository.Valid()
      ensures var batch := old(repository.FindPending(Some(MaxRetries)));
              repository.table ==
                PublishAll(old(repository.table), batch, kafkaProducer.outcome, old(kafkaProducer.attempts), now) &&
              kafkaProducer.attempts == old(kafkaProducer.attempts) + |batch| &&
              kafkaProducer.delivered == old(kafkaProducer.delivered) +
                Deliveries(old(repository.table), batch, kafkaProducer.outcome, old(kafkaProducer.attempts), false)
    {
      var pendingEvents := repository.FindPending(Some(MaxRetries));
      ghost var t0 := repository.table;
      ghost var start := kafkaProducer.attempts;
      ghost var d0 := kafkaProducer.delivered;
      for k := 0 to |pendingEvents|
        invariant repository.Valid() && repository.table.Keys == t0.Keys
        invariant RoundAt(repository, kafkaProducer, pendingEvents, k, now, t0, start, d0, false)
      {
        PublishNext(pendingEvents, k, now, t0, start, d0);
      }
      assert pendingEvents[..|pendingEvents|] == pendingEvents;
    }

    /** One iteration: send the payload, then mark the event processed, or record the
        error when the send failed. */
    method PublishNext(batch: seq<nat>, k: nat, now: Instant, ghost t0: map<nat, Event>, ghost start: nat,
                       ghost d0: seq<Message>)
      requires k < |batch| && Distinct(batch) && forall j :: 0 <= j < |batch| ==> batch[j] in t0
      requires repository.Valid() && repository.table.Keys == t0.Keys
      requires RoundAt(repository, kafkaProducer, batch, k, now, t0, start, d0, false)
      modifies repository`table, kafkaProducer
      ensures repository.Valid() && repository.table.Keys == t0.Keys
      ensures RoundAt(repository, kafkaProducer, batch, k + 1, now, t0, start, d0, false)
    {
      ghost var prev := repository.table;
      RoundAdvance(prev, kafkaProducer.attempts, kafkaProducer.delivered, batch, k, t0, kafkaProducer.outcome,
                   start, d0, now, false);
      var id := batch[k];
      var event := repository.table[id];
      var sent := kafkaProducer.Send(Message(None, event.eventData));
      match sent
      case Sent =>
        MarkAsProcessed(id, now);
        assert repository.table == prev[id := Attempted(event, sent, now)];
      case Failed(message) =>
        HandlePublishError(id, message);
        assert repository.table == prev[id := Attempted(event, sent, now)];
    }

    /** `markAsProcessed`: only the given row changes, and only by `Processed`. */
    method MarkAsProcessed(id: nat, now: Instant)
      requires repository.Valid() && id in repository.table
      modifies repository`table
      ensures repository.Valid()
      ensures repository.table == old(repository.table)[id := Processed(old(repository.table)[id], now)]
    {
      repository.Update(id, Processed(repository.table[id], now));
    }

    /** `handlePublishError`: only the given row changes, and only by `Retried`. */
    method HandlePublishError(id: nat, message: string)
      requires repository.Valid() && id in repository.table
      modifies repository`table
      ensures repository.Valid()
      ensures repository.table == old(repository.table)[id := Retried(old(repository.table)[id], message)]
    {
      repository.Update(id, Retried(repository.table[id], message));
    }

    /** `cleanupProcessedEvents`: deletes exactly the rows processed more than 7 days
        before `now`; all others survive unchanged. */
    method CleanupProcessedEvents(now: Instant)
      requires repository.Valid()
      modifies repository`table
      ensures repository.Valid()
      ensures repository.table == Retained(old(repository.table), now - RetentionDays * SecondsPerDay)
    {
      var cutoffDate := now - RetentionDays * SecondsPerDay;
      var oldEvents := set id | id in repository.table && ProcessedBefore(repository.table[id], cutoffDate);
      ghost var kept := Retained(repository.table, cutoffDate);
      if oldEvents != {} {
        repository.DeleteAll(oldEvents);
      } else {
        forall id | id in repository.table
          ensures !ProcessedBefore(repository.table[id], cutoffDate)
        {
          assert id !in oldEvents;
        }
      }
      assert repository.table.Keys == kept.Keys;
    }
  }

  /** The order service's `OutboxEventPublisher`, which goes through the service and
      sends each payload to the event's own destination. */
  class OrderOutboxPublisher {
    const outboxEventService: OutboxEventService
    const kafkaTemplate: Broker
    const maxRetryCount: nat

    /** `outbox.max-retry-count`, 3 when not configured. */
    constructor(outboxEventService: OutboxEventService, kafkaTemplate: Broker, configured: Option<nat>)
      ensures this.outboxEventService == outboxEventService && this.kafkaTemplate == kafkaTemplate
      ensures maxRetryCount == if configured.Some? then configured.value else MaxRetries
    {
      this.outboxEventService := outboxEventService;
      this.kafkaTemplate := kafkaTemplate;
      maxRetryCount := if configured.Some? then configured.value else MaxRetries;
    }

    /** `publishPendingEvents`: the batch is the unprocessed rows below the configured
        retry limit, by creation; each is sent to its own destination with its payload,
        then marked processed or given one more retry, and a failure never stops the
        round or escapes it. */
    method PublishPendingEvents(now: Instant)
      requires outboxEventService.repository.Valid()
      modifies outboxEventService.repository`table, kafkaTemplate
      ensures outboxEventService.repository.Valid()
      ensures var repository := outboxEventService.repository;
              var batch := old(repository.FindPending(Some(maxRetryCount)));
              repository.table ==
                PublishAll(old(repository.table), batch, kafkaTemplate.outcome, old(kafkaTemplate.attempts), now) &&
              kafkaTemplate.attempts == old(kafkaTemplate.attempts) + |batch| &&
              kafkaTemplate.delivered == old(kafkaTemplate.delivered) +
                Deliveries(old(repository.table), batch, kafkaTemplate.outcome, old(kafkaTemplate.attempts), true)
    {
      var unprocessedEvents := outboxEventService.FindUnprocessedEventsWithRetryLimit(maxRetryCount);
      ghost var repository := outboxEventService.repository;
      ghost var t0 := repository.table;
      ghost var start := kafkaTemplate.attempts;
      ghost var d0 := kafkaTemplate.delivered;
      for k := 0 to |unprocessedEvents|
        invariant repository.Valid() && repository.table.Keys == t0.Keys
        invariant RoundAt(repository, kafkaTemplate, unprocessedEvents, k, now, t0, start, d0, true)
      {
        PublishNext(unprocessedEvents, k, now, t0, start, d0);
      }
      assert unprocessedEvents[..|unprocessedEvents|] == unprocessedEvents;
    }

    /** One iteration: `publishEvent`, then `markAsProcessed`, or `incrementRetryCount`
        with the exception's message. */
    method PublishNext(batch: seq<nat>, k: nat, now: Instant, ghost t0: map<nat, Event>, ghost start: nat,
                       ghost d0: seq<Message>)
      requires k < |batch| && Distinct(batch) && forall j :: 0 <= j < |batch| ==> batch[j] in t0
      requires outboxEventService.repository.Valid() && outboxEventService.repository.table.Keys == t0.Keys
      requires RoundAt(outboxEventService.repository, kafkaTemplate, batch, k, now, t0, start, d0, true)
      modifies outboxEventService.repository`table, kafkaTemplate
      ensures outboxEventService.repository.Valid() && outboxEventService.repository.table.Keys == t0.Keys
      ensures RoundAt(outboxEventService.repository, kafkaTemplate, batch, k + 1, now, t0, start, d0, true)
    {
      ghost var prev := outboxEventService.repository.table;
      RoundAdvance(prev, kafkaTemplate.attempts, kafkaTemplate.delivered, batch, k, t0, kafkaTemplate.outcome,
                   start, d0, now, true);
      var id := batch[k];
      var event := outboxEventService.repository.table[id];
      var sent := kafkaTemplate.Send(Message(Some(event.topic), event.eventData));
      match sent
      case Sent =>
        outboxEventService.MarkAsProcessed(id, now);
        assert outboxEventService.repository.table == prev[id := Attempted(event, sent, now)];
      case Failed(message) =>
        outboxEventService.IncrementRetryCount(id, message);
        assert outboxEventService.repository.table == prev[id := Attempted(event, sent, now)];
    }
  }
}
