/** The database the availability and booking services read and write, and the hold
    cache beside it (backend/app/services/business_phase2.py). Each method commits one
    operation; its contract gives the whole new state in terms of the `Bookings` and
    `Availability` functions. */
module Store {
  import opened Wrappers
  import opened Json
  import opened Validators
  import opened BusinessModels
  import opened Availability
  import opened Bookings
  import SystemModels

  class Database {
    var bookings: seq<Booking>
    var holds: seq<BookingHold>
    /** The Redis hold cache: the keys it holds. */
    var holdCache: set<HoldCacheKey>
    var services: seq<Service>
    var resources: seq<Resource>
    var staffProfiles: seq<StaffProfile>
    var schedules: seq<WorkSchedule>
    var outbox: seq<SystemModels.EventOutbox>

    /** An empty database: no rows and an empty hold cache, so the invariant holds. */
    constructor()
      ensures bookings == [] && holds == [] && holdCache == {} && services == [] && resources == []
      ensures staffProfiles == [] && schedules == [] && outbox == []
      ensures Valid()
    {
      bookings := [];
      holds := [];
      holdCache := {};
      services := [];
      resources := [];
      staffProfiles := [];
      schedules := [];
      outbox := [];
    }

    /** The tables the availability functions read. */
    function Tables(): Tables
      reads this
    {
      BusinessModels.Tables(bookings, holds, staffProfiles, schedules, resources)
    }

    /** No two occupying bookings of a resource overlap, and booking ids are unique. */
    predicate Valid()
      reads this
    {
      NoDoubleBooking(bookings) && UniqueIds(bookings)
    }

    predicate FreshBookingId(id: Uuid)
      reads this
    {
      forall k :: 0 <= k < |bookings| ==> bookings[k].id != id
    }

    // -------------------------------------------------------------------------
    // AvailabilityService holds
    // -------------------------------------------------------------------------

    /** `create_booking_hold`: the hold goes into the cache first and then into the table;
        when the write fails (`writeError` carries the driver's message) the cache entry is
        removed again. */
    method CreateBookingHold(tenantId: Uuid, resourceId: Uuid, serviceId: Uuid, startAt: Instant, endAt: Instant,
                             now: Instant, nonce: string, writeError: Option<string>,
                             ttlMinutes: int := DefaultHoldTtlMinutes)
      returns (r: Result<BookingHold, ServiceError>)
      modifies this
      ensures var h := NewHold(tenantId, resourceId, serviceId, startAt, endAt, now, nonce, ttlMinutes);
              var available := IsTimeAvailable(old(Tables()), tenantId, resourceId, startAt, endAt, now);
              var key := HoldCacheKey(tenantId, h.holdKey);
              && (available.Err? ==> r == Err(available.error))
              && (available == Ok(false) ==> r == Err(BusinessLogicError("Time slot is not available")))
              && (available != Ok(true) ==> holds == old(holds) && holdCache == old(holdCache))
              && (available == Ok(true) && writeError.None? ==>
                    r == Ok(h) && holds == old(holds) + [h] && holdCache == old(holdCache) + {key})
              && (available == Ok(true) && writeError.Some? ==>
                    r == Err(DatabaseError("Failed to create booking hold: " + writeError.value)) &&
                    holds == old(holds) && holdCache == old(holdCache) - {key})
      ensures bookings == old(bookings) && services == old(services) && resources == old(resources)
      ensures staffProfiles == old(staffProfiles) && schedules == old(schedules) && outbox == old(outbox)
    {
      var available := IsTimeAvailable(Tables(), tenantId, resourceId, startAt, endAt, now);
      if available.Err? {
        return Err(available.error);
      }
      if !available.value {
        return Err(BusinessLogicError("Time slot is not available"));
      }
      var h := NewHold(tenantId, resourceId, serviceId, startAt, endAt, now, nonce, ttlMinutes);
      var key := HoldCacheKey(tenantId, h.holdKey);
      holdCache := holdCache + {key};
      if writeError.None? {
        holds := holds + [h];
        r := Ok(h);
      } else {
        holdCache := holdCache - {key};
        r := Err(DatabaseError("Failed to create booking hold: " + writeError.value));
      }
    }

    /** `release_booking_hold`: an unknown key is `False`; otherwise the cache entry is
        dropped before the row is deleted, and stays dropped when the delete fails. */
    method ReleaseBookingHold(tenantId: Uuid, key: HoldKey, deleteError: Option<string>)
      returns (r: Result<bool, ServiceError>)
      modifies this
      ensures var found := FindHold(old(holds), tenantId, key);
              && (found.None? ==> r == Ok(false) && holds == old(holds) && holdCache == old(holdCache))
              && (found.Some? ==> holdCache == old(holdCache) - {HoldCacheKey(tenantId, key)})
              && (found.Some? && deleteError.None? ==> r == Ok(true) && holds == RemoveAt(old(holds), found.value))
              && (found.Some? && deleteError.Some? ==>
                    r == Err(DatabaseError("Failed to release booking hold: " + deleteError.value)) &&
                    holds == old(holds))
      ensures bookings == old(bookings) && services == old(services) && resources == old(resources)
      ensures staffProfiles == old(staffProfiles) && schedules == old(schedules) && outbox == old(outbox)
    {
      var found := FindHold(holds, tenantId, key);
      if found.None? {
        return Ok(false);
      }
      holdCache := holdCache - {HoldCacheKey(tenantId, key)};
      if deleteError.None? {
        holds := RemoveAt(holds, found.value);
        r := Ok(true);
      } else {
        r := Err(DatabaseError("Failed to release booking hold: " + deleteError.value));
      }
    }

    // -------------------------------------------------------------------------
    // BookingService
    // -------------------------------------------------------------------------

    /** One transaction's writes: the new bookings table and the rows added to the outbox. */
    method Commit(newBookings: seq<Booking>, events: seq<SystemModels.EventOutbox>)
      modifies this
      ensures bookings == newBookings && outbox == old(outbox) + events
      ensures holds == old(holds) && holdCache == old(holdCache) && services == old(services)
      ensures resources == old(resources) && staffProfiles == old(staffProfiles) && schedules == old(schedules)
    {
      bookings := newBookings;
      outbox := outbox + events;
    }

    /** `create_booking` with the corrected emission: an insert commits the pending
        booking, then a BOOKING_CREATED row is written to the outbox. */
    method CreateBooking(tenantId: Uuid, req: BookingRequest, ids: FreshIds, eventId: nat, now: Instant)
      returns (r: Result<Booking, ServiceError>)
      modifies this
      ensures var plan := PlanCreate(old(Tables()), old(services), tenantId, req, ids, now);
              && (plan.Err? ==> r == Err(plan.error) && bookings == old(bookings) && outbox == old(outbox))
              && (plan.Ok? && plan.value.Existing? ==>
                    r == Ok(plan.value.booking) && bookings == old(bookings) && outbox == old(outbox))
              && (plan.Ok? && plan.value.Insert? ==>
                    r == Ok(plan.value.booking) && bookings == old(bookings) + [plan.value.booking] &&
                    outbox == old(outbox) + [EmitEvent(eventId, tenantId, "BOOKING_CREATED",
                                                       BookingPayload(plan.value.booking), now)])
      ensures old(Valid()) && old(FreshBookingId(ids.bookingId)) ==> Valid()
      ensures holds == old(holds) && holdCache == old(holdCache) && services == old(services)
      ensures resources == old(resources) && staffProfiles == old(staffProfiles) && schedules == old(schedules)
    {
      var plan := PlanCreate(Tables(), services, tenantId, req, ids, now);
      if plan.Err? {
        return Err(plan.error);
      }
      if plan.value.Existing? {
        return Ok(plan.value.booking);
      }
      if NoDoubleBooking(bookings) && UniqueIds(bookings) && FreshBookingId(ids.bookingId) {
        CreateKeepsNoDoubleBooking(Tables(), services, tenantId, req, ids, now);
      }
      var b := plan.value.booking;
      Commit(bookings + [b], [EmitEvent(eventId, tenantId, "BOOKING_CREATED", BookingPayload(b), now)]);
      r := Ok(b);
    }

    /** `confirm_booking` with the corrected emission. */
    method ConfirmBooking(tenantId: Uuid, bookingId: UuidArg, requirePayment: bool, eventId: nat, now: Instant)
      returns (r: Result<bool, ServiceError>)
      modifies this
      ensures var found := FindBooking(old(bookings), tenantId, bookingId);
              && (found.Err? ==> r == Err(found.error) && bookings == old(bookings) && outbox == old(outbox))
              && (found.Ok? && found.value.None? ==> r == Ok(false) && bookings == old(bookings) && outbox == old(outbox))
              && (found.Ok? && found.value.Some? ==>
                    var k := found.value.value;
                    var step := Confirm(old(bookings)[k], requirePayment);
                    && (step.Err? ==> r == Err(step.error) && bookings == old(bookings) && outbox == old(outbox))
                    && (step.Ok? ==> r == Ok(true) && bookings == old(bookings)[k := step.value])
                    && (step.Ok? ==> outbox == old(outbox) + [EmitEvent(eventId, tenantId, "BOOKING_CONFIRMED",
                                                                        BookingPayload(step.value), now)]))
      ensures old(Valid()) ==> Valid()
      ensures holds == old(holds) && holdCache == old(holdCache) && services == old(services)
      ensures resources == old(resources) && staffProfiles == old(staffProfiles) && schedules == old(schedules)
    {
      var found := FindBooking(bookings, tenantId, bookingId);
      if found.Err? {
        return Err(found.error);
      }
      if found.value.None? {
        return Ok(false);
      }
      var k := found.value.value;
      var step := Confirm(bookings[k], requirePayment);
      if step.Err? {
        return Err(step.error);
      }
      if Valid() {
        StatusChangesKeepNoDoubleBooking(bookings, k, step.value);
      }
      Commit(bookings[k := step.value], [EmitEvent(eventId, tenantId, "BOOKING_CONFIRMED", BookingPayload(step.value), now)]);
      r := Ok(true);
    }

    /** `cancel_booking`. */
    method CancelBooking(tenantId: Uuid, bookingId: UuidArg, now: Instant)
      returns (r: Result<Option<Booking>, ServiceError>)
      modifies this
      ensures var found := FindBooking(old(bookings), tenantId, bookingId);
              && (found.Err? ==> r == Err(found.error) && bookings == old(bookings))
              && (found.Ok? && found.value.None? ==> r == Ok(None) && bookings == old(bookings))
              && (found.Ok? && found.value.Some? ==>
                    var k := found.value.value;
                    var step := Cancel(old(bookings)[k], now);
                    && (step.Err? ==> r == Err(step.error) && bookings == old(bookings))
                    && (step.Ok? ==> r == Ok(Some(step.value)) && bookings == old(bookings)[k := step.value]))
      ensures old(Valid()) ==> Valid()
      ensures holds == old(holds) && holdCache == old(holdCache) && services == old(services) && outbox == old(outbox)
      ensures resources == old(resources) && staffProfiles == old(staffProfiles) && schedules == old(schedules)
    {
      var found := FindBooking(bookings, tenantId, bookingId);
      if found.Err? {
        return Err(found.error);
      }
      if found.value.None? {
        return Ok(None);
      }
      var k := found.value.value;
      var step := Cancel(bookings[k], now);
      if step.Err? {
        return Err(step.error);
      }
      if Valid() {
        StatusChangesKeepNoDoubleBooking(bookings, k, step.value);
      }
      bookings := bookings[k := step.value];
      r := Ok(Some(step.value));
    }

    /** `reschedule_booking`, corrected so that the booking's own slot does not block
        its move. */
    method RescheduleBooking(tenantId: Uuid, bookingId: UuidArg, newStart: Stamp, newEnd: Stamp, now: Instant)
      returns (r: Result<Option<Booking>, ServiceError>)
      modifies this
      ensures var found := FindBooking(old(bookings), tenantId, bookingId);
              && (found.Err? ==> r == Err(found.error) && bookings == old(bookings))
              && (found.Ok? && found.value.None? ==> r == Ok(None) && bookings == old(bookings))
              && (found.Ok? && found.value.Some? ==>
                    var k := found.value.value;
                    var step := Reschedule(old(Tables()), old(bookings)[k], newStart, newEnd, now);
                    && (step.Err? ==> r == Err(step.error) && bookings == old(bookings))
                    && (step.Ok? ==> r == Ok(Some(step.value)) && bookings == old(bookings)[k := step.value]))
      ensures old(Valid()) ==> Valid()
      ensures holds == old(holds) && holdCache == old(holdCache) && services == old(services) && outbox == old(outbox)
      ensures resources == old(resources) && staffProfiles == old(staffProfiles) && schedules == old(schedules)
    {
      var found := FindBooking(bookings, tenantId, bookingId);
      if found.Err? {
        return Err(found.error);
      }
      if found.value.None? {
        return Ok(None);
      }
      var k := found.value.value;
      var step := Reschedule(Tables(), bookings[k], newStart, newEnd, now);
      if step.Err? {
        return Err(step.error);
      }
      if Valid() {
        RescheduleKeepsNoDoubleBooking(Tables(), k, newStart, newEnd, now);
      }
      bookings := bookings[k := step.value];
      r := Ok(Some(step.value));
    }

    /** `mark_no_show`. */
    method MarkNoShowBooking(tenantId: Uuid, bookingId: UuidArg)
      returns (r: Result<Option<Booking>, ServiceError>)
      modifies this
      ensures var found := FindBooking(old(bookings), tenantId, bookingId);
              && (found.Err? ==> r == Err(found.error) && bookings == old(bookings))
              && (found.Ok? && found.value.None? ==> r == Ok(None) && bookings == old(bookings))
              && (found.Ok? && found.value.Some? ==>
                    var k := found.value.value;
                    var step := MarkNoShow(old(bookings)[k]);
                    && (step.Err? ==> r == Err(step.error) && bookings == old(bookings))
                    && (step.Ok? ==> r == Ok(Some(step.value)) && bookings == old(bookings)[k := step.value]))
      ensures old(Valid()) ==> Valid()
      ensures holds == old(holds) && holdCache == old(holdCache) && services == old(services) && outbox == old(outbox)
      ensures resources == old(resources) && staffProfiles == old(staffProfiles) && schedules == old(schedules)
    {
      var found := FindBooking(bookings, tenantId, bookingId);
      if found.Err? {
        return Err(found.error);
      }
      if found.value.None? {
        return Ok(None);
      }
      var k := found.value.value;
      var step := MarkNoShow(bookings[k]);
      if step.Err? {
        return Err(step.error);
      }
      if Valid() {
        StatusChangesKeepNoDoubleBooking(bookings, k, step.value);
      }
      bookings := bookings[k := step.value];
      r := Ok(Some(step.value));
    }
  }
}
