/** BookingService and the hold half of AvailabilityService
    (backend/app/services/business_phase2.py): the decisions each operation takes on the
    tables, as functions. The `Store` module applies them to the mutable database. */
module Bookings {
  import opened Wrappers
  import opened Json
  import opened Text
  import opened Validators
  import opened BusinessModels
  import opened Availability
  import SystemModels
  import OutboxWorker

  // ---------------------------------------------------------------------------
  // Booking holds
  // ---------------------------------------------------------------------------

  /** Hold time-to-live when the caller gives none, in minutes. */
  const DefaultHoldTtlMinutes: int := 15

  /** The hold `create_booking_hold` writes: it lasts `ttlMinutes` from `now`. */
  function NewHold(tenantId: Uuid, resourceId: Uuid, serviceId: Uuid, startAt: Instant, endAt: Instant,
                   now: Instant, nonce: string, ttlMinutes: int): (h: BookingHold)
    ensures h.holdUntil == now + ttlMinutes * 60
    ensures h.holdKey.tenantId == tenantId && h.holdKey.resourceId == resourceId && h.holdKey.startAt == startAt
  {
    BookingHold(tenantId, resourceId, serviceId, startAt, endAt, now + ttlMinutes * 60,
                HoldKey(tenantId, resourceId, startAt, nonce))
  }

  /** The index of the first hold of the tenant with the key, as `.first()` finds it. */
  function FindHold(holds: seq<BookingHold>, tenantId: Uuid, key: HoldKey): (r: Option<nat>)
    ensures r.Some? ==> r.value < |holds| && holds[r.value].tenantId == tenantId && holds[r.value].holdKey == key
    ensures r.Some? ==> forall k :: 0 <= k < r.value ==> !(holds[k].tenantId == tenantId && holds[k].holdKey == key)
    ensures r.None? ==> forall k :: 0 <= k < |holds| ==> !(holds[k].tenantId == tenantId && holds[k].holdKey == key)
  {
    if holds == [] then None
    else if holds[0].tenantId == tenantId && holds[0].holdKey == key then Some(0)
    else match FindHold(holds[1..], tenantId, key)
      case None => None
      case Some(k) => Some(k + 1)
  }

  function RemoveAt<T>(s: seq<T>, k: nat): (r: seq<T>)
    requires k < |s|
    ensures |r| == |s| - 1
    ensures forall i :: 0 <= i < k ==> r[i] == s[i]
    ensures forall i :: k <= i < |r| ==> r[i] == s[i + 1]
  {
    s[..k] + s[k + 1..]
  }

  /** A new hold makes every interval overlapping it unavailable on its resource until it
      expires. */
  lemma HoldBlocksOverlaps(t: Tables, h: BookingHold, startAt: Instant, endAt: Instant, now: Instant)
    requires startAt < endAt && now < h.holdUntil && Overlaps(h.startAt, h.endAt, startAt, endAt)
    ensures IsTimeAvailable(t.(holds := t.holds + [h]), h.tenantId, h.resourceId, startAt, endAt, now) == Ok(false)
  {
    HoldBlocksUntilExpiry(t.(holds := t.holds + [h]), h.tenantId, h.resourceId, startAt, endAt, now, |t.holds|);
  }

  /** Releasing a hold just created with a fresh key gives back the hold table as it was. */
  lemma ReleaseUndoesCreate(holds: seq<BookingHold>, h: BookingHold)
    requires FindHold(holds, h.tenantId, h.holdKey).None?
    ensures FindHold(holds + [h], h.tenantId, h.holdKey) == Some(|holds|)
    ensures RemoveAt(holds + [h], |holds|) == holds
  {
    FindHoldAppend(holds, h);
  }

  lemma {:induction false} FindHoldAppend(holds: seq<BookingHold>, h: BookingHold)
    requires FindHold(holds, h.tenantId, h.holdKey).None?
    ensures FindHold(holds + [h], h.tenantId, h.holdKey) == Some(|holds|)
  {
    if holds != [] {
      assert (holds + [h])[1..] == holds[1..] + [h];
      FindHoldAppend(holds[1..], h);
    }
  }

  // ---------------------------------------------------------------------------
  // Outbox emission
  // ---------------------------------------------------------------------------

  /** The keywords `_emit_event` passes to the `EventOutbox` constructor, in order. */
  const EmitKeywordsAsWritten: seq<string> :=
    ["id", "tenant_id", "event_type", "payload", "status", "retry_count", "max_retries"]

  /** `_emit_event` as written: the constructor reaches `event_type`, a read-only alias,
      and raises before any row is added; and the row it meant to write carries status
      `pending`, which the table's check constraint refuses. */
  function EmitEventAsWritten(id: nat, tenantId: Uuid, eventCode: string, payload: Value)
    : (r: Result<SystemModels.EventOutbox, ServiceError>)
    ensures r.Ok? ==> SystemModels.ConstructorFails(EmitKeywordsAsWritten).None?
  {
    var failure := SystemModels.ConstructorFails(EmitKeywordsAsWritten);
    if failure.Some? && failure.value.ReadOnlyAttribute? then
      Err(AttributeError("can't set attribute '" + failure.value.name + "'"))
    else if failure.Some? then Err(TypeError("'" + failure.value.name + "' is an invalid keyword argument"))
    else
      Ok(SystemModels.EventOutbox(id, tenantId, eventCode, payload, "pending", 0, None, None, 0, MaxRetryAttempts,
                                  None, None, None))
  }

  /** The constructor fails at the third keyword, the alias `event_type`. */
  lemma {:induction false} AsWrittenKeywordsStopAtAlias()
    ensures SystemModels.ConstructorFails(EmitKeywordsAsWritten) == Some(SystemModels.ReadOnlyAttribute("event_type"))
  {
    var kw := EmitKeywordsAsWritten;
    assert kw[0] == "id" && kw[0] in SystemModels.OutboxColumns;
    assert kw[1] == "tenant_id" && kw[1] in SystemModels.OutboxColumns;
    assert kw[2] == "event_type" && kw[2] in SystemModels.OutboxAliases;
    assert kw[2] !in SystemModels.OutboxColumns;
    assert kw[1..][1..] == kw[2..];
  }

  /** So every emission as written raises, and no outbox row is ever written. */
  lemma EmitAsWrittenAlwaysRaises(id: nat, tenantId: Uuid, eventCode: string, payload: Value)
    ensures EmitEventAsWritten(id, tenantId, eventCode, payload) == Err(AttributeError("can't set attribute '" + "event_type" + "'"))
  {
    AsWrittenKeywordsStopAtAlias();
  }

  /** Even past the constructor, the intended row would break the status constraint. */
  lemma PendingRowViolatesConstraint()
    ensures !SystemModels.StatusAllowed("pending")
  {
  }

  /** The keywords of the corrected emission: the canonical columns. */
  const EmitKeywords: seq<string> := ["id", "tenant_id", "event_code", "payload", "status", "attempts", "max_attempts"]

  /** `_emit_event` corrected: a `ready` row under the canonical column names, due at once,
      with the configured retry budget. */
  function EmitEvent(id: nat, tenantId: Uuid, eventCode: string, payload: Value, now: Instant)
    : (r: SystemModels.EventOutbox)
    ensures r.eventCode == eventCode && r.payload == payload && r.tenantId == tenantId
    ensures SystemModels.StatusAllowed(r.status) && OutboxWorker.Eligible(r, now)
    ensures r.attempts == 0 && r.maxAttempts == MaxRetryAttempts
  {
    SystemModels.NewEventOutbox(id, tenantId, eventCode, now, payload)
  }

  /** The corrected keywords are all columns, so the constructor accepts them. */
  lemma CorrectedKeywordsAccepted()
    ensures SystemModels.ConstructorFails(EmitKeywords).None?
  {
  }

  /** The emitted event the worker picks up and routes as a notification or webhook. */
  lemma CorrectedEmissionIsDelivered(id: nat, tenantId: Uuid, eventCode: string, payload: Value, now: Instant, later: Instant)
    requires now <= later
    ensures OutboxWorker.Eligible(EmitEvent(id, tenantId, eventCode, payload, now), later)
  {
  }

  /** The payload of BOOKING_CREATED and BOOKING_CONFIRMED; instants stand for their ISO
      text. */
  function BookingPayload(b: Booking): (r: Value)
    ensures r.Obj? && "booking_id" in r.fields && r.fields["booking_id"] == Str(FormatUuid(b.id))
    ensures r.Obj? && "status" in r.fields && r.fields["status"] == Str(StatusName(b.status))
  {
    Obj(map[
      "booking_id" := Str(FormatUuid(b.id)),
      "customer_id" := Str(FormatUuid(b.customerId)),
      "service_id" := Str(FormatUuid(b.snapshot.serviceId)),
      "resource_id" := Str(FormatUuid(b.resourceId)),
      "start_at" := Int(b.startAt),
      "end_at" := Int(b.endAt),
      "status" := Str(StatusName(b.status))])
  }

  // ---------------------------------------------------------------------------
  // create_booking
  // ---------------------------------------------------------------------------

  /** A request timestamp: ISO text that parses to an instant, or text that does not,
      with the parser's reason. */
  datatype Stamp = Iso(at: Instant) | Malformed(reason: string)

  /** `booking_data`: `customer_id` is None when absent or falsy; `clientGeneratedId` is
      empty when absent or falsy. */
  datatype BookingRequest = BookingRequest(
    customerId: Option<Uuid>,
    hasCustomer: bool,
    serviceId: Option<Uuid>,
    resourceId: Option<Uuid>,
    startAt: Option<Stamp>,
    endAt: Option<Stamp>,
    clientGeneratedId: string)

  const RequiredBookingFields: seq<string> := ["service_id", "resource_id", "start_at", "end_at"]

  function Presence<T>(v: Option<T>): Value {
    if v.Some? then Bool(true) else Null
  }

  /** The request as the required-fields validator sees it: only presence matters. */
  function RequestFields(req: BookingRequest): map<string, Value> {
    map["service_id" := Presence(req.serviceId), "resource_id" := Presence(req.resourceId),
        "start_at" := Presence(req.startAt), "end_at" := Presence(req.endAt)]
  }

  /** A request the validator accepts has all four required fields. */
  lemma RequiredFieldsPresent(req: BookingRequest)
    requires ValidateRequiredFields(RequestFields(req), RequiredBookingFields).Ok?
    ensures req.serviceId.Some? && req.resourceId.Some? && req.startAt.Some? && req.endAt.Some?
  {
    assert "service_id" in RequiredBookingFields && "resource_id" in RequiredBookingFields;
    assert "start_at" in RequiredBookingFields && "end_at" in RequiredBookingFields;
  }

  /** A request with all four required fields passes the required-fields check. */
  lemma RequiredFieldsAccepted(req: BookingRequest)
    requires req.serviceId.Some? && req.resourceId.Some? && req.startAt.Some? && req.endAt.Some?
    ensures ValidateRequiredFields(RequestFields(req), RequiredBookingFields).Ok?
  {
    forall f | f in RequiredBookingFields ensures !Missing(RequestFields(req), f) {
      assert f == "service_id" || f == "resource_id" || f == "start_at" || f == "end_at";
    }
  }

  /** The first service of the tenant with the id that is not deleted. */
  function FindService(services: seq<Service>, tenantId: Uuid, id: Uuid): (r: Option<Service>)
    ensures r.Some? ==> r.value in services && r.value.tenantId == tenantId && r.value.id == id && !r.value.deleted
    ensures r.None? ==> forall s :: s in services && s.tenantId == tenantId && s.id == id ==> s.deleted
  {
    if services == [] then None
    else if services[0].tenantId == tenantId && services[0].id == id && !services[0].deleted then Some(services[0])
    else FindService(services[1..], tenantId, id)
  }

  function Snapshot(s: Service): ServiceSnapshot {
    ServiceSnapshot(s.id, s.name, s.durationMin, s.priceCents, s.category)
  }

  /** The first booking of the tenant carrying the client-generated id. */
  function FindByClientId(bookings: seq<Booking>, tenantId: Uuid, clientId: string): (r: Option<Booking>)
    ensures r.Some? ==> r.value in bookings && r.value.tenantId == tenantId && r.value.clientGeneratedId == clientId
    ensures r.None? ==> forall k :: 0 <= k < |bookings| ==>
                          !(bookings[k].tenantId == tenantId && bookings[k].clientGeneratedId == clientId)
  {
    if bookings == [] then None
    else if bookings[0].tenantId == tenantId && bookings[0].clientGeneratedId == clientId then Some(bookings[0])
    else FindByClientId(bookings[1..], tenantId, clientId)
  }

  /** A confirmed or checked-in booking of the resource overlapping the interval: the
      conflict check `create_booking` makes before asking for availability. */
  predicate FirmConflict(bookings: seq<Booking>, tenantId: Uuid, resourceId: Uuid, startAt: Instant, endAt: Instant) {
    exists k :: 0 <= k < |bookings| && bookings[k].tenantId == tenantId && bookings[k].resourceId == resourceId &&
                (bookings[k].status == Confirmed || bookings[k].status == CheckedIn) &&
                Overlaps(bookings[k].startAt, bookings[k].endAt, startAt, endAt)
  }

  /** What `create_booking` decides: return the booking a retry names, or insert one. */
  datatype CreatePlan = Existing(booking: Booking) | Insert(booking: Booking)

  /** Fresh values the operation draws: the booking id, the client id generated when the
      request has none, and the id of a customer created from `customer` data. */
  datatype FreshIds = FreshIds(bookingId: Uuid, clientId: string, customerId: Uuid)

  /** `create_booking`, up to the insert. */
  function PlanCreate(t: Tables, services: seq<Service>, tenantId: Uuid, req: BookingRequest, ids: FreshIds,
                      now: Instant): (r: Result<CreatePlan, ServiceError>)
    ensures r.Ok? ==> (req.customerId.Some? || req.hasCustomer) &&
                      req.serviceId.Some? && req.resourceId.Some? && req.startAt.Some? && req.endAt.Some? &&
                      req.startAt.value.Iso? && req.endAt.value.Iso? &&
                      req.startAt.value.at < req.endAt.value.at &&
                      FindService(services, tenantId, req.serviceId.value).Some?
    ensures req.customerId.None? && !req.hasCustomer ==>
              r == Err(ValueError("Missing required field: customer_id or customer data"))
    ensures r.Ok? && r.value.Existing? ==>
              req.clientGeneratedId != "" && FindByClientId(t.bookings, tenantId, req.clientGeneratedId).Some? &&
              r.value.booking == FindByClientId(t.bookings, tenantId, req.clientGeneratedId).value
    ensures r.Ok? && r.value.Insert? ==>
              var b := r.value.booking;
              b.id == ids.bookingId && b.tenantId == tenantId && b.resourceId == req.resourceId.value &&
              b.startAt == req.startAt.value.at && b.endAt == req.endAt.value.at && b.status == Pending &&
              b.customerId == (if req.customerId.Some? then req.customerId.value else ids.customerId) &&
              b.clientGeneratedId == (if req.clientGeneratedId != "" then req.clientGeneratedId else ids.clientId) &&
              b.snapshot == Snapshot(FindService(services, tenantId, req.serviceId.value).value) &&
              !b.noShowFlag && b.canceledAt.None? && b.rescheduledFrom.None? &&
              IsTimeAvailable(t, tenantId, b.resourceId, b.startAt, b.endAt, now) == Ok(true)
  {
    if req.customerId.None? && !req.hasCustomer then Err(ValueError("Missing required field: customer_id or customer data"))
    else
      var customerId := if req.customerId.Some? then req.customerId.value else ids.customerId;
      match ValidateRequiredFields(RequestFields(req), RequiredBookingFields)
      case Err(e) => Err(e)
      case Ok(_) =>
        RequiredFieldsPresent(req);
        var startStamp := req.startAt.value;
        var endStamp := req.endAt.value;
        if startStamp.Malformed? then Err(ValueError("Invalid datetime format: " + startStamp.reason))
        else if endStamp.Malformed? then Err(ValueError("Invalid datetime format: " + endStamp.reason))
        else
          var startAt := startStamp.at;
          var endAt := endStamp.at;
          match ValidateDatetimeRange(startAt, endAt)
          case Err(e) => Err(e)
          case Ok(_) =>
            match FindService(services, tenantId, req.serviceId.value)
            case None => Err(ValueError("Service not found"))
            case Some(service) =>
              var cgid := req.clientGeneratedId;
              if cgid != "" && FindByClientId(t.bookings, tenantId, cgid).Some? then
                Ok(Existing(FindByClientId(t.bookings, tenantId, cgid).value))
              else if FirmConflict(t.bookings, tenantId, req.resourceId.value, startAt, endAt) then
                Err(ValueError("Booking time conflicts with existing booking"))
              else if IsTimeAvailable(t, tenantId, req.resourceId.value, startAt, endAt, now) != Ok(true) then
                Err(ValueError("Selected time is not available"))
              else
                Ok(Insert(Booking(ids.bookingId, tenantId, customerId, req.resourceId.value,
                                  if cgid != "" then cgid else ids.clientId, Snapshot(service),
                                  startAt, endAt, Pending, false, None, None)))
  }

  /** A request with a customer, all four required fields and two well-formed instants
      in order: what `create_booking` decides next depends only on the tables. */
  predicate CompleteRequest(req: BookingRequest) {
    (req.customerId.Some? || req.hasCustomer) &&
    req.serviceId.Some? && req.resourceId.Some? && req.startAt.Some? && req.endAt.Some? &&
    req.startAt.value.Iso? && req.endAt.value.Iso? && req.startAt.value.at < req.endAt.value.at
  }

  /** For a complete request an unknown service, a firm conflict and an unavailable slot
      are refused, each with its own message. */
  lemma PlanCreateRefusals(t: Tables, services: seq<Service>, tenantId: Uuid, req: BookingRequest, ids: FreshIds,
                           now: Instant)
    requires CompleteRequest(req)
    ensures var r := PlanCreate(t, services, tenantId, req, ids, now);
            var resourceId, s, e := req.resourceId.value, req.startAt.value.at, req.endAt.value.at;
            var found := FindService(services, tenantId, req.serviceId.value).Some?;
            var replay := req.clientGeneratedId != "" && FindByClientId(t.bookings, tenantId, req.clientGeneratedId).Some?;
            var conflict := FirmConflict(t.bookings, tenantId, resourceId, s, e);
            var available := IsTimeAvailable(t, tenantId, resourceId, s, e, now) == Ok(true);
            && (!found ==> r == Err(ValueError("Service not found")))
            && (found && !replay && conflict ==> r == Err(ValueError("Booking time conflicts with existing booking")))
            && (found && !replay && !conflict && !available ==> r == Err(ValueError("Selected time is not available")))
  {
    RequiredFieldsAccepted(req);
    assert ValidateDatetimeRange(req.startAt.value.at, req.endAt.value.at).Ok?;
  }

  /** For a complete request for a live service, a retried client id returns the stored
      booking, and a request with no firm conflict and an available slot is inserted. */
  lemma PlanCreateAccepts(t: Tables, services: seq<Service>, tenantId: Uuid, req: BookingRequest, ids: FreshIds,
                          now: Instant)
    requires CompleteRequest(req) && FindService(services, tenantId, req.serviceId.value).Some?
    ensures var r := PlanCreate(t, services, tenantId, req, ids, now);
            var resourceId, s, e := req.resourceId.value, req.startAt.value.at, req.endAt.value.at;
            var replay := req.clientGeneratedId != "" && FindByClientId(t.bookings, tenantId, req.clientGeneratedId).Some?;
            var conflict := FirmConflict(t.bookings, tenantId, resourceId, s, e);
            var available := IsTimeAvailable(t, tenantId, resourceId, s, e, now) == Ok(true);
            && (replay ==> r.Ok? && r.value.Existing?)
            && (!replay && !conflict && available ==> r.Ok? && r.value.Insert?)
  {
    RequiredFieldsAccepted(req);
    assert ValidateDatetimeRange(req.startAt.value.at, req.endAt.value.at).Ok?;
  }

  /** No two occupying bookings of one resource overlap. */
  predicate NoDoubleBooking(bs: seq<Booking>) {
    forall i, j :: 0 <= i < |bs| && 0 <= j < |bs| && i != j &&
                   bs[i].tenantId == bs[j].tenantId && bs[i].resourceId == bs[j].resourceId &&
                   Blocking(bs[i].status) && Blocking(bs[j].status) ==>
                   !Overlaps(bs[i].startAt, bs[i].endAt, bs[j].startAt, bs[j].endAt)
  }

  predicate UniqueIds(bs: seq<Booking>) {
    forall i, j :: 0 <= i < |bs| && 0 <= j < |bs| && i != j ==> bs[i].id != bs[j].id
  }

  /** Inserting the booking `create_booking` plans keeps the resource free of double
      bookings, and keeps ids unique when the fresh id is unused. */
  lemma CreateKeepsNoDoubleBooking(t: Tables, services: seq<Service>, tenantId: Uuid, req: BookingRequest,
                                   ids: FreshIds, now: Instant)
    requires NoDoubleBooking(t.bookings) && UniqueIds(t.bookings)
    requires forall k :: 0 <= k < |t.bookings| ==> t.bookings[k].id != ids.bookingId
    requires PlanCreate(t, services, tenantId, req, ids, now).Ok?
    requires PlanCreate(t, services, tenantId, req, ids, now).value.Insert?
    ensures var bs := t.bookings + [PlanCreate(t, services, tenantId, req, ids, now).value.booking];
            NoDoubleBooking(bs) && UniqueIds(bs)
  {
    var b := PlanCreate(t, services, tenantId, req, ids, now).value.booking;
    var bs := t.bookings + [b];
    forall k | 0 <= k < |t.bookings|
      ensures !BookingConflicts(t.bookings[k], tenantId, b.resourceId, b.startAt, b.endAt, None)
    {
    }
    forall i, j | 0 <= i < |bs| && 0 <= j < |bs| && i != j &&
                  bs[i].tenantId == bs[j].tenantId && bs[i].resourceId == bs[j].resourceId &&
                  Blocking(bs[i].status) && Blocking(bs[j].status)
      ensures !Overlaps(bs[i].startAt, bs[i].endAt, bs[j].startAt, bs[j].endAt)
    {
      if i == |t.bookings| {
        assert !BookingConflicts(t.bookings[j], tenantId, b.resourceId, b.startAt, b.endAt, None);
      } else if j == |t.bookings| {
        assert !BookingConflicts(t.bookings[i], tenantId, b.resourceId, b.startAt, b.endAt, None);
      }
    }
  }

  /** A retry with the same client-generated id returns the booking the first call made
      and inserts nothing. */
  lemma CreateIsIdempotent(t: Tables, services: seq<Service>, tenantId: Uuid, req: BookingRequest,
                           ids: FreshIds, ids2: FreshIds, now: Instant, later: Instant)
    requires req.clientGeneratedId != ""
    requires PlanCreate(t, services, tenantId, req, ids, now).Ok?
    requires PlanCreate(t, services, tenantId, req, ids, now).value.Insert?
    ensures var b := PlanCreate(t, services, tenantId, req, ids, now).value.booking;
            PlanCreate(t.(bookings := t.bookings + [b]), services, tenantId, req, ids2, later) == Ok(Existing(b))
  {
    var b := PlanCreate(t, services, tenantId, req, ids, now).value.booking;
    FindByClientIdAppend(t.bookings, b);
  }

  lemma {:induction false} FindByClientIdAppend(bookings: seq<Booking>, b: Booking)
    requires FindByClientId(bookings, b.tenantId, b.clientGeneratedId).None?
    ensures FindByClientId(bookings + [b], b.tenantId, b.clientGeneratedId) == Some(b)
  {
    if bookings != [] {
      assert (bookings + [b])[1..] == bookings[1..] + [b];
      FindByClientIdAppend(bookings[1..], b);
    }
  }

  /** A request for an interval a confirmed booking of the resource overlaps is refused,
      whatever else the tables hold. */
  lemma FirmConflictRefused(t: Tables, services: seq<Service>, tenantId: Uuid, req: BookingRequest,
                            ids: FreshIds, now: Instant, k: nat)
    requires req.clientGeneratedId == "" && req.resourceId.Some?
    requires req.startAt.Some? && req.startAt.value.Iso? && req.endAt.Some? && req.endAt.value.Iso?
    requires k < |t.bookings| && t.bookings[k].tenantId == tenantId && t.bookings[k].resourceId == req.resourceId.value
    requires t.bookings[k].status == Confirmed
    requires Overlaps(t.bookings[k].startAt, t.bookings[k].endAt, req.startAt.value.at, req.endAt.value.at)
    ensures PlanCreate(t, services, tenantId, req, ids, now).Err?
  {
  }

  // ---------------------------------------------------------------------------
  // get_booking and the status transitions
  // ---------------------------------------------------------------------------

  /** `get_booking`: the id is validated first, then the first booking of the tenant with
      that id is looked up; the result is its index. */
  function FindBooking(bookings: seq<Booking>, tenantId: Uuid, id: UuidArg): (r: Result<Option<nat>, ServiceError>)
    ensures r.Err? <==> ValidateUuid(id, "booking_id").Err?
    ensures r.Ok? && r.value.Some? ==>
              (r.value.value < |bookings| &&
               bookings[r.value.value].tenantId == tenantId && bookings[r.value.value].id == ValidateUuid(id, "booking_id").value)
    ensures r.Ok? && r.value.None? ==> forall k :: 0 <= k < |bookings| ==>
              !(bookings[k].tenantId == tenantId && bookings[k].id == ValidateUuid(id, "booking_id").value)
  {
    match ValidateUuid(id, "booking_id")
    case Err(e) => Err(e)
    case Ok(u) => Ok(IndexOfBooking(bookings, tenantId, u))
  }

  function IndexOfBooking(bookings: seq<Booking>, tenantId: Uuid, id: Uuid): (r: Option<nat>)
    ensures r.Some? ==> r.value < |bookings| && bookings[r.value].tenantId == tenantId && bookings[r.value].id == id
    ensures r.None? ==> forall k :: 0 <= k < |bookings| ==> !(bookings[k].tenantId == tenantId && bookings[k].id == id)
  {
    if bookings == [] then None
    else if bookings[0].tenantId == tenantId && bookings[0].id == id then Some(0)
    else match IndexOfBooking(bookings[1..], tenantId, id)
      case None => None
      case Some(k) => Some(k + 1)
  }

  /** `confirm_booking` on a found booking. */
  function Confirm(b: Booking, requirePayment: bool): (r: Result<Booking, ServiceError>)
    ensures r.Ok? <==> b.status == Pending && !requirePayment
    ensures b.status != Pending ==> r == Err(ValueError("Only pending bookings can be confirmed"))
    ensures b.status == Pending && requirePayment ==> r == Err(ValueError("Payment required to confirm booking"))
    ensures r.Ok? ==> r.value.status == Confirmed && r.value.startAt == b.startAt && r.value.endAt == b.endAt
  {
    if b.status != Pending then Err(ValueError("Only pending bookings can be confirmed"))
    else if requirePayment then Err(ValueError("Payment required to confirm booking"))
    else Ok(b.(status := Confirmed))
  }

  /** `cancel_booking` on a found booking. */
  function Cancel(b: Booking, now: Instant): (r: Result<Booking, ServiceError>)
    ensures r.Ok? <==> b.status != Canceled && b.status != Completed
    ensures r.Err? ==> r.error == ValueError("Cannot cancel booking in current status")
    ensures r.Ok? ==> r.value.status == Canceled && r.value.canceledAt == Some(now) && !Blocking(r.value.status)
  {
    if b.status == Canceled || b.status == Completed then Err(ValueError("Cannot cancel booking in current status"))
    else Ok(b.(status := Canceled, canceledAt := Some(now)))
  }

  /** `mark_no_show` on a found booking. */
  function MarkNoShow(b: Booking): (r: Result<Booking, ServiceError>)
    ensures r.Ok? <==> b.status == Confirmed || b.status == CheckedIn
    ensures r.Err? ==> r.error == ValueError("Only confirmed bookings can be marked as no-show")
    ensures r.Ok? ==> r.value.status == NoShow && r.value.noShowFlag && !Blocking(r.value.status)
  {
    if b.status != Confirmed && b.status != CheckedIn then Err(ValueError("Only confirmed bookings can be marked as no-show"))
    else Ok(b.(status := NoShow, noShowFlag := true))
  }

  /** `reschedule_booking` on a found booking; the availability check ignores the booking
      with id `exclude`, if any. */
  function RescheduleExcluding(t: Tables, b: Booking, newStart: Stamp, newEnd: Stamp, now: Instant,
                               exclude: Option<Uuid>): (r: Result<Booking, ServiceError>)
    ensures r.Ok? ==> (b.status == Confirmed || b.status == CheckedIn) && newStart.Iso? && newEnd.Iso? &&
                      newStart.at < newEnd.at &&
                      IsTimeAvailable(t, b.tenantId, b.resourceId, newStart.at, newEnd.at, now, exclude) == Ok(true) &&
                      r.value == b.(startAt := newStart.at, endAt := newEnd.at, rescheduledFrom := Some(b.id))
    ensures b.status != Confirmed && b.status != CheckedIn ==>
              r == Err(ValueError("Only confirmed bookings can be rescheduled"))
  {
    if b.status != Confirmed && b.status != CheckedIn then Err(ValueError("Only confirmed bookings can be rescheduled"))
    else if newStart.Malformed? then Err(ValueError("Invalid datetime format: " + newStart.reason))
    else if newEnd.Malformed? then Err(ValueError("Invalid datetime format: " + newEnd.reason))
    else match ValidateDatetimeRange(newStart.at, newEnd.at)
      case Err(e) => Err(e)
      case Ok(_) =>
        if IsTimeAvailable(t, b.tenantId, b.resourceId, newStart.at, newEnd.at, now, exclude) != Ok(true) then
          Err(ValueError("New time slot is not available"))
        else Ok(b.(startAt := newStart.at, endAt := newEnd.at, rescheduledFrom := Some(b.id)))
  }

  /** `reschedule_booking` as written: the booking being moved counts against itself. */
  function RescheduleAsWritten(t: Tables, b: Booking, newStart: Stamp, newEnd: Stamp, now: Instant)
    : Result<Booking, ServiceError>
  {
    RescheduleExcluding(t, b, newStart, newEnd, now, None)
  }

  /** `reschedule_booking` corrected: the booking's own current slot does not block it. */
  function Reschedule(t: Tables, b: Booking, newStart: Stamp, newEnd: Stamp, now: Instant)
    : Result<Booking, ServiceError>
  {
    RescheduleExcluding(t, b, newStart, newEnd, now, Some(b.id))
  }

  /** As written, a confirmed booking can never move to an interval that overlaps its own
      current one: its own row is a conflicting occupying booking. */
  lemma RescheduleAsWrittenRefusesOverlappingMove(t: Tables, k: nat, newStart: Instant, newEnd: Instant, now: Instant)
    requires k < |t.bookings| && Blocking(t.bookings[k].status) && newStart < newEnd
    requires Overlaps(t.bookings[k].startAt, t.bookings[k].endAt, newStart, newEnd)
    ensures RescheduleAsWritten(t, t.bookings[k], Iso(newStart), Iso(newEnd), now).Err?
  {
    var b := t.bookings[k];
    OverlapMeansUnavailable(t, b.tenantId, b.resourceId, newStart, newEnd, now, k);
  }

  /** Tables with one confirmed 10:00-11:00 booking on day 1 and a working schedule. */
  function ExampleTables(): Tables {
    Tables(
      [Booking(4, 1, 5, 2, "c", ServiceSnapshot(6, "cut", 60, 1000, ""), AtHour(1, 10), AtHour(1, 11),
               Confirmed, false, None, None)],
      [],
      [StaffProfile(3, 1, 2, true)],
      [WorkSchedule(7, 1, 3, 0, None, "regular", false, None, None)],
      [Resource(2, 1)])
  }

  /** What the availability check finds for the example booking moved to 10:30-11:30. */
  lemma ExampleMoveFacts()
    ensures var t := ExampleTables();
            var b := t.bookings[0];
            var s, e := AtHour(1, 10) + 1800, AtHour(1, 11) + 1800;
            && BookingConflicts(b, b.tenantId, b.resourceId, s, e, None)
            && !BookingConflicts(b, b.tenantId, b.resourceId, s, e, Some(b.id))
            && FirstProfile(t.staffProfiles, 1, 2, true) == Some(StaffProfile(3, 1, 2, true))
            && DayOf(s) == 1 && HourOf(s) == 10 && HourOf(e) == 11
            && FirstCovering(t.schedules, StaffProfile(3, 1, 2, true), 1) == Some(t.schedules[0])
  {
    var t := ExampleTables();
    assert FirstProfile(t.staffProfiles, 1, 2, true) == Some(StaffProfile(3, 1, 2, true));
    assert FirstCovering(t.schedules, StaffProfile(3, 1, 2, true), 1) == Some(t.schedules[0]);
  }

  /** Moving that booking half an hour later is refused as written... */
  lemma RescheduleSelfOverlapExample(now: Instant)
    ensures RescheduleAsWritten(ExampleTables(), ExampleTables().bookings[0], Iso(AtHour(1, 10) + 1800),
                                Iso(AtHour(1, 11) + 1800), now)
            == Err(ValueError("New time slot is not available"))
  {
    ExampleMoveFacts();
  }

  /** ...and accepted by the corrected reschedule. */
  lemma RescheduleExampleAccepted(now: Instant)
    ensures Reschedule(ExampleTables(), ExampleTables().bookings[0], Iso(AtHour(1, 10) + 1800),
                       Iso(AtHour(1, 11) + 1800), now).Ok?
  {
    ExampleMoveFacts();
  }

  /** Corrected rescheduling keeps the resource free of double bookings. */
  lemma RescheduleKeepsNoDoubleBooking(t: Tables, k: nat, newStart: Stamp, newEnd: Stamp, now: Instant)
    requires NoDoubleBooking(t.bookings) && UniqueIds(t.bookings) && k < |t.bookings|
    requires Reschedule(t, t.bookings[k], newStart, newEnd, now).Ok?
    ensures var bs := t.bookings[k := Reschedule(t, t.bookings[k], newStart, newEnd, now).value];
            NoDoubleBooking(bs) && UniqueIds(bs)
  {
    var b := t.bookings[k];
    var nb := Reschedule(t, b, newStart, newEnd, now).value;
    var bs := t.bookings[k := nb];
    forall j | 0 <= j < |t.bookings| && j != k
      ensures !BookingConflicts(t.bookings[j], b.tenantId, b.resourceId, nb.startAt, nb.endAt, Some(b.id))
    {
    }
    forall i, j | 0 <= i < |bs| && 0 <= j < |bs| && i != j &&
                  bs[i].tenantId == bs[j].tenantId && bs[i].resourceId == bs[j].resourceId &&
                  Blocking(bs[i].status) && Blocking(bs[j].status)
      ensures !Overlaps(bs[i].startAt, bs[i].endAt, bs[j].startAt, bs[j].endAt)
    {
      if i == k {
        assert !BookingConflicts(t.bookings[j], b.tenantId, b.resourceId, nb.startAt, nb.endAt, Some(b.id));
      } else if j == k {
        assert !BookingConflicts(t.bookings[i], b.tenantId, b.resourceId, nb.startAt, nb.endAt, Some(b.id));
      }
    }
  }

  /** Confirming, cancelling and marking a no-show keep the resource free of double
      bookings: confirmation keeps the interval, the others release it. */
  lemma StatusChangesKeepNoDoubleBooking(bs: seq<Booking>, k: nat, nb: Booking)
    requires NoDoubleBooking(bs) && UniqueIds(bs) && k < |bs|
    requires nb.id == bs[k].id && nb.tenantId == bs[k].tenantId && nb.resourceId == bs[k].resourceId
    requires (nb.startAt == bs[k].startAt && nb.endAt == bs[k].endAt && Blocking(bs[k].status)) || !Blocking(nb.status)
    ensures NoDoubleBooking(bs[k := nb]) && UniqueIds(bs[k := nb])
  {
    var bs2 := bs[k := nb];
    forall i, j | 0 <= i < |bs2| && 0 <= j < |bs2| && i != j &&
                  bs2[i].tenantId == bs2[j].tenantId && bs2[i].resourceId == bs2[j].resourceId &&
                  Blocking(bs2[i].status) && Blocking(bs2[j].status)
      ensures !Overlaps(bs2[i].startAt, bs2[i].endAt, bs2[j].startAt, bs2[j].endAt)
    {
      if i == k || j == k {
        assert Blocking(nb.status);
      }
    }
    forall i, j | 0 <= i < |bs2| && 0 <= j < |bs2| && i != j ensures bs2[i].id != bs2[j].id {
      assert bs2[i].id == bs[i].id && bs2[j].id == bs[j].id;
    }
  }

  // ---------------------------------------------------------------------------
  // get_status_precedence
  // ---------------------------------------------------------------------------

  /** `get_status_precedence`: the rank of a status name, 0 for an unknown one. */
  function StatusPrecedence(status: string): (r: nat)
    ensures r <= 6
    ensures r == 1 <==> status == StatusName(Pending)
    ensures r == 2 <==> status == StatusName(Confirmed)
    ensures r == 3 <==> status == StatusName(CheckedIn)
    ensures r == 4 <==> status == StatusName(Completed)
    ensures r == 5 <==> status == StatusName(NoShow)
    ensures r == 6 <==> status == StatusName(Canceled)
  {
    if status == "failed" then 0
    else if status == "pending" then 1
    else if status == "confirmed" then 2
    else if status == "checked_in" then 3
    else if status == "completed" then 4
    else if status == "no_show" then 5
    else if status == "canceled" then 6
    else 0
  }

  /** The ranks of the seven booking statuses are distinct; an unknown name ranks with
      `failed`. */
  lemma PrecedenceRanksStatuses(a: BookingStatus, b: BookingStatus, unknown: string)
    requires a != b
    requires forall s :: unknown != StatusName(s)
    ensures StatusPrecedence(StatusName(a)) != StatusPrecedence(StatusName(b))
    ensures StatusPrecedence(unknown) == StatusPrecedence(StatusName(Failed)) == 0
  {
    assert unknown != StatusName(Pending) && unknown != StatusName(Confirmed) && unknown != StatusName(CheckedIn);
    assert unknown != StatusName(Completed) && unknown != StatusName(NoShow) && unknown != StatusName(Canceled);
  }

  /** Every transition the service allows moves a booking to a status of higher
      precedence, so no sequence of them returns to an earlier status. */
  lemma TransitionsRaisePrecedence(b: Booking, requirePayment: bool, now: Instant)
    ensures Confirm(b, requirePayment).Ok? ==>
              StatusPrecedence(StatusName(Confirm(b, requirePayment).value.status)) > StatusPrecedence(StatusName(b.status))
    ensures Cancel(b, now).Ok? ==>
              StatusPrecedence(StatusName(Cancel(b, now).value.status)) > StatusPrecedence(StatusName(b.status))
    ensures MarkNoShow(b).Ok? ==>
              StatusPrecedence(StatusName(MarkNoShow(b).value.status)) > StatusPrecedence(StatusName(b.status))
  {
  }
}
