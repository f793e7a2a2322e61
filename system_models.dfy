/** The event-outbox record and the webhook inbox (backend/app/models/system.py).
    Time is an `Instant`: whole seconds since the epoch, UTC. */
module SystemModels {
  import opened Wrappers
  import opened Json

  type Instant = int

  /** The three values the table's check constraint admits for `status`. */
  const Ready: string := "ready"
  const Delivered: string := "delivered"
  const Failed: string := "failed"

  /** `status IN ('ready', 'delivered', 'failed')`. */
  predicate StatusAllowed(status: string) {
    status == Ready || status == Delivered || status == Failed
  }

  /** One row of `events_outbox`. `status` is kept as the column's string so that the
      check constraint is a property of a row rather than of its type. */
  datatype EventOutbox = EventOutbox(
    id: nat,
    tenantId: nat,
    eventCode: string,
    payload: Value,
    status: string,
    readyAt: Instant,
    deliveredAt: Option<Instant>,
    failedAt: Option<Instant>,
    attempts: int,
    maxAttempts: int,
    lastAttemptAt: Option<Instant>,
    errorMessage: Option<string>,
    key: Option<string>)

  /** A row inserted with only its identity, code and payload given: the column defaults
      make it `ready` with no attempts, three attempts allowed, ready from the insert time. */
  function NewEventOutbox(id: nat, tenantId: nat, eventCode: string, now: Instant,
                          payload: Value := Obj(map[])): (e: EventOutbox)
    ensures StatusAllowed(e.status) && e.status == Ready
    ensures e.attempts == 0 && e.maxAttempts == 3 && e.readyAt == now
    ensures e.deliveredAt.None? && e.failedAt.None? && e.errorMessage.None?
  {
    EventOutbox(id, tenantId, eventCode, payload, Ready, now, None, None, 0, 3, None, None, None)
  }

  /** The keyword names the `EventOutbox(...)` constructor can assign: the table's
      columns, with `id` and `tenant_id` from the tenant base model. */
  const OutboxColumns: set<string> :=
    {"id", "tenant_id", "event_code", "payload", "status", "ready_at", "delivered_at", "failed_at",
     "attempts", "max_attempts", "last_attempt_at", "error_message", "key", "metadata_json"}

  /** The deprecated aliases are properties without a setter. */
  const OutboxAliases: set<string> := {"event_type", "retry_count", "max_retries", "next_retry_at"}

  datatype ConstructorFailure = UnknownKeyword(name: string) | ReadOnlyAttribute(name: string)

  /** The declarative constructor assigns the keywords in order: a name the class does not
      have is a TypeError, a property without a setter an AttributeError. None when every
      keyword is assigned. */
  function ConstructorFails(keywords: seq<string>): (r: Option<ConstructorFailure>)
    ensures r.None? <==> forall k :: k in keywords ==> k in OutboxColumns
    ensures r.Some? && r.value.ReadOnlyAttribute? ==> r.value.name in keywords && r.value.name in OutboxAliases
  {
    if keywords == [] then None
    else if keywords[0] in OutboxColumns then ConstructorFails(keywords[1..])
    else if keywords[0] in OutboxAliases then Some(ReadOnlyAttribute(keywords[0]))
    else Some(UnknownKeyword(keywords[0]))
  }

  /** The deprecated read-only aliases: views of `event_code`, `attempts`,
      `max_attempts` and `ready_at`. */
  function EventType(e: EventOutbox): string { e.eventCode }
  function RetryCount(e: EventOutbox): int { e.attempts }
  function MaxRetries(e: EventOutbox): int { e.maxAttempts }
  function NextRetryAt(e: EventOutbox): Instant { e.readyAt }

  /** A row of `webhook_events_inbox`; its primary key is the pair (provider, id). */
  datatype InboxRow = InboxRow(payload: Value, processedAt: Option<Instant>, createdAt: Instant)

  datatype InboxKey = InboxKey(provider: string, id: string)

  datatype InboxError = DuplicateKey(key: InboxKey)

  /** Inserting an inbound webhook event: the composite primary key refuses a second row
      for a (provider, id) pair that is already stored, and leaves the table as it was. */
  function InsertInbound(inbox: map<InboxKey, InboxRow>, provider: string, id: string,
                         payload: Value, now: Instant): (r: Result<map<InboxKey, InboxRow>, InboxError>)
    ensures r.Ok? <==> InboxKey(provider, id) !in inbox
    ensures r.Ok? ==> InboxKey(provider, id) in r.value && r.value[InboxKey(provider, id)].payload == payload
    ensures r.Ok? ==> r.value.Keys == inbox.Keys + {InboxKey(provider, id)}
    ensures r.Ok? ==> forall k :: k in inbox ==> r.value[k] == inbox[k]
  {
    var k := InboxKey(provider, id);
    if k in inbox then Err(DuplicateKey(k)) else Ok(inbox[k := InboxRow(payload, None, now)])
  }

  /** Delivering the same provider event twice stores it once: the second insert is
      refused, whatever its payload, and the table keeps the first delivery. */
  lemma InboundStoredAtMostOnce(inbox: map<InboxKey, InboxRow>, provider: string, id: string,
                                p1: Value, p2: Value, t1: Instant, t2: Instant)
    requires InsertInbound(inbox, provider, id, p1, t1).Ok?
    ensures var once := InsertInbound(inbox, provider, id, p1, t1).value;
            InsertInbound(once, provider, id, p2, t2) == Err(DuplicateKey(InboxKey(provider, id))) &&
            |once| == |inbox| + 1
  {
    var once := InsertInbound(inbox, provider, id, p1, t1).value;
    assert once.Keys == inbox.Keys + {InboxKey(provider, id)};
  }
}
