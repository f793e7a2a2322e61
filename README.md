# Tithi booking core in Dafny

This project models the core of the Tithi multi-tenant booking backend. It covers:

- **Error taxonomy** (`error_handler.dfy`): the `TithiError` family with its default codes and
  HTTP statuses, and the Problem Details body (section 3.1 of RFC 7807) that `to_dict` renders.
- **Event outbox** (`system_models.dfy`, `outbox_worker.dfy`):
  - the `events_outbox` row with its status check constraint and its read-only compatibility
    aliases;
  - the keyword constructor that refuses unknown columns and those aliases;
  - the webhook inbox keyed by (provider, id);
  - the worker that picks the oldest due `ready` rows, dispatches them by event-code prefix and
    retries with a 60-second backoff until `max_attempts`;
  - the admin requeue of an event.
- **Service validators** (`validators.dfy`): required fields, UUID parsing, `int()`-style number
  checks, the datetime range check, and the guards of `create_service` and `update_service`.
- **Availability** (`availability.dfy`):
  - hourly slot generation from work schedules, with the default 9–17 business day when a day
    has no schedule;
  - `is_time_available`, which checks firm bookings, unexpired holds and an active staff member;
  - the staff schedule check;
  - `calculate_availability`.
- **Bookings** (`bookings.dfy`, `store.dfy`):
  - booking holds with a TTL, mirrored in an abstract hold cache;
  - `create_booking`, including its `client_generated_id` idempotency and its overlap refusal;
  - confirm, cancel, reschedule and no-show;
  - the status precedence used for sorting;
  - the outbox event emitted after a booking is created or confirmed;
  - the `Store.Database` class, which holds the tables and applies each operation in place.
- **Payments** (`financial.dfy`):
  - payment intents and setup intents, idempotent on `(tenant_id, idempotency_key)`;
  - the mapping of provider statuses to payment statuses;
  - no-show fee capture, refunds and their guards, and the default payment method.
- **Promotions** (`promotions.dfy`):
  - the coupon creation schema and its cross-field validators;
  - the "exactly one of coupon or gift card" rule;
  - the coupon and gift-card validation endpoints and their discount arithmetic.

`wrappers.dfy`, `json.dfy` and `text.dfy` hold shared helpers:

- `Option` and `Result`;
- JSON values with Python truthiness;
- string helpers such as `int()`/`str()` parsing and printing, with their round trip proved.

Time is modelled as an integer count of seconds, an `Instant`; a day is 86400 of them. Every
call to `datetime.utcnow()` or `datetime.now()` inside one operation becomes a single `now`
parameter. Stripe responses, fresh UUIDs and database write failures are parameters of the
operations that use them.

Where the code and its design description disagree, the model follows the code:

- `calculate_availability` does not check that the start comes before the end.
- `cancel_booking` accepts bookings in `no_show` and `failed` status.
- Holds are checked against the wall clock, not against the booking time.

`_is_staff_available` (services/business_phase2.py:657-688) is mis-indented in the repository
and does not parse. `Availability.IsStaffAvailable` models the evidently intended reading:

- the first schedule that covers the day decides;
- a time-off schedule refuses;
- a working schedule accepts when the requested hours fall inside its work hours;
- no covering schedule refuses.

## Model

| member | source | states |
|---|---|---|
| ErrorHandler.NewTithiError | backend/app/middleware/error_handler.py:20-28 | the base error keeps its message, code and status (500 when none is given), and its details, or an empty dictionary when none are given |
| ErrorHandler.NewValidationError | backend/app/middleware/error_handler.py:45-51 | a validation error keeps its message and code, always has status 400, keeps the given field errors (none when omitted), and its details are exactly `{"field_errors": <those errors>}` |
| ErrorHandler.NewSubclassError | backend/app/middleware/error_handler.py:60-91 | the other subclasses keep their class, message, code and status code, and carry no details and no field errors |
| ErrorHandler.ToDict | backend/app/middleware/error_handler.py:30-43 | `type` is the error prefix followed by the lower-cased code; `title` is the class name; status, detail and code are the error's own; `instance`, `tenant_id` and `user_id` come from the request; a validation error's details gain `field_errors` set to its field errors, other details are passed on unchanged |
| ErrorHandler.TypeUriIdentifiesCode | backend/app/middleware/error_handler.py:33 | for upper-case codes the code is recovered from the `type` URI, so distinct codes never share a problem type |
| ErrorHandler.TitleIdentifiesClass | backend/app/middleware/error_handler.py:34 | distinct classes render distinct titles |
| ErrorHandler.SubclassDefaults | backend/app/middleware/error_handler.py:48-91 | each subclass raised with defaults carries its documented code and status: 400, 404, 401, 403, 422, 502; the base error raised without a status gets 500 whatever its code |
| ErrorHandler.ValidationBodyCarriesFieldErrors | backend/app/middleware/error_handler.py:53-57 | the rendered body lists exactly as many field errors as were raised, and an empty list when none were given |
| SystemModels.NewEventOutbox | backend/app/models/system.py:63-88 | a new outbox row is `ready`, satisfies the status constraint, has 0 attempts of 3, is due now and has no delivery, failure or error |
| SystemModels.ConstructorFails | backend/app/models/system.py:63-105 | the keyword constructor succeeds iff every keyword is a mapped column; a read-only failure names an alias that was passed |
| SystemModels.InsertInbound | backend/app/models/system.py:108-117 | an inbound webhook is stored iff its (provider, id) key is new; the stored row carries the payload and every other row is unchanged |
| SystemModels.InboundStoredAtMostOnce | backend/app/models/system.py:113-114 | a second delivery with the same (provider, id) is refused, whatever its payload |
| OutboxWorker.ForceFailHandler | backend/app/jobs/outbox_worker.py:14-26 | a handler succeeds iff the payload's `force_fail` is falsy; a non-empty payload that is not a dictionary raises |
| OutboxWorker.RouteOf | backend/app/jobs/outbox_worker.py:29-38 | an event code routes to email, webhook or analytics exactly by its prefix, and to none otherwise |
| OutboxWorker.DispatchOutcome | backend/app/jobs/outbox_worker.py:29-38 | unknown codes succeed by default; routed codes with a dictionary payload succeed iff `force_fail` is falsy |
| OutboxWorker.ProcessEvent | backend/app/jobs/outbox_worker.py:58-103 | success delivers the row; a failure or exception adds one attempt, and the row either fails (at max attempts) or is retried 60 s later; a raised message is recorded; the status stays within the constraint; the identity fields are unchanged |
| OutboxWorker.SelectBatch | backend/app/jobs/outbox_worker.py:45-55 | the batch holds only eligible rows, each once, in `ready_at` order, min(limit, eligible) of them |
| OutboxWorker.BatchIsOldestEligible | backend/app/jobs/outbox_worker.py:52-53 | no eligible row left out of the batch is older than a row in it |
| OutboxWorker.ProcessOne | backend/app/jobs/outbox_worker.py:58-103 | one loop iteration yields the processed row, and counts it only when no exception was raised |
| OutboxWorker.ProcessBatch | backend/app/jobs/outbox_worker.py:57-105 | processing the batch rows one after another leaves the table at `ApplyBatch` of the old table and counts exactly the successfully handled rows |
| OutboxWorker.ProcessReadyOutboxEvents | backend/app/jobs/outbox_worker.py:42-107 | the table is updated in place to `AfterRun` of the old table, and the returned count is that of the successfully handled rows of the batch |
| OutboxWorker.ProcessedAtMostLimit | backend/app/jobs/outbox_worker.py:53 | a run never reports more than `batch_limit` processed events |
| OutboxWorker.UnselectedRowsUntouched | backend/app/jobs/outbox_worker.py:47-51 | rows that are not due, not ready or out of attempts are left unchanged |
| OutboxWorker.RunKeepsInvariants | backend/app/jobs/outbox_worker.py:73-102 | a run keeps attempts within max_attempts and every status within the constraint |
| OutboxWorker.SelectedEventProgresses | backend/app/jobs/outbox_worker.py:58-102 | a processed row either leaves `ready`, or stays `ready` with fewer but still some attempts left, so retries terminate |
| OutboxWorker.FailingEventEndsFailed | backend/app/jobs/outbox_worker.py:73-82 | an always-failing event replayed at each retry time ends `failed` with attempts equal to max_attempts |
| OutboxWorker.TwoAttemptScenario | backend/app/jobs/outbox_worker.py:73-82 | with max_attempts 2, a failing event is first rescheduled 60 s later and then failed |
| OutboxWorker.RequeuedFailedEventNeverSelected | backend/app/blueprints/admin_dashboard_api.py:846-852 | the requeue as written marks a spent event `ready`, yet the worker never selects it again |
| OutboxWorker.RetryOutboxEvent | backend/app/blueprints/admin_dashboard_api.py:846-855 | an unknown event gives 404 `TITHI_OUTBOX_EVENT_NOT_FOUND`; otherwise only the matching row changes, by the corrected requeue: status `ready`, no error message, due now, and its attempts reset to 0 (the source does not reset attempts; see Findings) |
| OutboxWorker.RequeuedEventIsSelectable | backend/app/blueprints/admin_dashboard_api.py:850-852 | the corrected requeue makes a failed event eligible at once |
| OutboxWorker.NewEventIsDue | backend/app/models/system.py:71-76 | a freshly constructed event is eligible from its creation time on |
| OutboxWorker.AliasesFollowFields | backend/app/models/system.py:91-105 | after a retried failure the aliases report one more retry, the next retry 60 s later, and unchanged max retries and type |
| Validators.MissingFields | backend/app/services/business_phase2.py:64-68 | lists exactly the required fields that are absent or None, in the order they are required; falsy values such as 0 or "" count as present |
| Validators.ValidateRequiredFields | backend/app/services/business_phase2.py:64-68 | succeeds iff no required field is missing; otherwise the message is "Missing required fields: " followed by the comma-joined list |
| Validators.ValidateUuid | backend/app/services/business_phase2.py:70-80 | a UUID passes through unchanged; a string is accepted iff it parses, and the UUID returned is the parsed one, otherwise "Invalid UUID format for <field>"; any other value gets "Invalid type for <field>, expected UUID or string" |
| Validators.ParseFormatRoundTrip | backend/app/services/business_phase2.py:70-80 | every UUID's canonical text parses back to the same UUID |
| Validators.PyInt | backend/app/services/business_phase2.py:82-90 | `int()` keeps integers and fails only with ValueError or TypeError |
| Validators.ValidatePositiveNumber | backend/app/services/business_phase2.py:82-90 | accepts iff the value converts to an integer ≥ min_value, and returns it; an unconvertible value gives "Invalid number format for <field>" |
| Validators.NumberTextAccepted | backend/app/services/business_phase2.py:82-90 | the decimal text of a number is accepted with the same outcome as the number itself |
| Validators.ValidateDatetimeRange | backend/app/services/business_phase2.py:92-95 | accepts iff start < end |
| Validators.CreateService | backend/app/services/business_phase2.py:147-189 | missing required fields are reported first; then an `int()` failure of the price propagates, a negative price gives "Price cannot be negative", a duration the validator refuses gives its error and one above 480 minutes gives "Duration cannot exceed 8 hours"; past those checks the service is created iff the name is text, with exactly the converted price and duration, the given name, the given slug or one derived from the name, and `active` defaulting to true |
| Validators.UpdateServiceChecks | backend/app/services/business_phase2.py:210-254 | an update is accepted iff a given price validates with minimum 0 and a given duration validates with minimum 1 and is at most 480; an accepted update keeps its keys, stores the validated integers for price and duration and passes every other field on as given; a price error is reported before any duration error |
| Validators.PriceGuardsAgree | backend/app/services/business_phase2.py:153-155 | create and update accept exactly the same prices, and a negative price gives "Price cannot be negative" |
| Validators.DurationCapInclusive | backend/app/services/business_phase2.py:232-238 | an update accepts 480 minutes and refuses 481 and 0 |
| Availability.HourSlot | backend/app/services/business_phase2.py:637-651 | a slot is one hour from the given hour of the day, and is available iff no booking overlaps it |
| Availability.GetDefaultDaySlots | backend/app/services/business_phase2.py:704-719 | the loop yields the default day: eight available `default` slots from 9 to 17 |
| Availability.AppendScheduleSlots | backend/app/services/business_phase2.py:630-653 | the hour loop of one schedule appends exactly the hourly slots from its start to its end hour, each marked free when no booking overlaps it; an hour outside 0..23 is an error |
| Availability.GenerateDaySlots | backend/app/services/business_phase2.py:615-655 | the loop yields `DaySlots`: default slots with no schedule, otherwise hourly slots of each working schedule |
| Availability.GenerateAvailabilitySlots | backend/app/services/business_phase2.py:588-613 | the day-by-day loop yields `RangeSlots` over the covered days, with each day's schedules and bookings |
| Availability.GetDefaultAvailability | backend/app/services/business_phase2.py:690-702 | the loop yields eight default slots for each day of the range |
| Availability.DaySlotsLieInDay | backend/app/services/business_phase2.py:615-655 | every generated slot starts and ends inside its day, one hour long |
| Availability.WorkingSlotAvailableIffFree | backend/app/services/business_phase2.py:640-649 | a working slot is available iff no booking of that day overlaps it |
| Availability.OneScheduleSlots | backend/app/services/business_phase2.py:625-653 | one time-off schedule yields no slots; one working schedule yields one slot per work hour |
| Availability.TimeOffDayHasNoSlots | backend/app/services/business_phase2.py:626-627 | a day covered only by time off has no slots, not the default ones |
| Availability.UnscheduledDayIsDefault | backend/app/services/business_phase2.py:621-622 | a day without schedules gets the eight default slots, all available, whatever is booked |
| Availability.RangeDaysAscending | backend/app/services/business_phase2.py:596-611 | the range's slots run day by day in ascending order |
| Availability.BookingOutsideRangeIgnored | backend/app/services/business_phase2.py:603 | a booking starting outside the range's days does not change the slots |
| Availability.DefaultRangeShape | backend/app/services/business_phase2.py:697-700 | the i-th default slot of a range is hour 9 + i mod 8 of day first + i / 8 |
| Availability.FirstProfile | backend/app/services/business_phase2.py:462-466 | finds a staff profile of the tenant and resource, active when asked, or establishes that none exists |
| Availability.IsStaffAvailable | backend/app/services/business_phase2.py:657-688 | a true answer means some schedule of that staff member's tenant and profile covers the start day and is working time containing the requested hours (both directions, for the first such schedule, are Availability.StaffAvailableIff) |
| Availability.StaffAvailableIff | backend/app/services/business_phase2.py:657-688 | the staff member is available exactly when the first schedule in table order that covers the start day for that member's tenant and profile is working time whose hours contain the interval |
| Availability.IsTimeAvailable | backend/app/services/business_phase2.py:425-475 | an error iff start ≥ end, with the range message; a true answer means no pending, confirmed or checked-in booking overlaps, no unexpired hold overlaps, and an active staff profile exists for the resource |
| Availability.OverlapMeansUnavailable | backend/app/services/business_phase2.py:432-444 | a pending, confirmed or checked-in booking overlapping the interval makes it unavailable |
| Availability.HoldBlocksUntilExpiry | backend/app/services/business_phase2.py:447-459 | an overlapping hold blocks the interval until `hold_until` and not after |
| Availability.AvailabilityOnlyGrowsWithTime | backend/app/services/business_phase2.py:447-459 | an interval available now stays available later, as holds only expire |
| Availability.NoActiveStaffNoAvailability | backend/app/services/business_phase2.py:462-469 | without an active staff profile nothing is available |
| Availability.TimeOffRefuses | backend/app/services/business_phase2.py:673-678 | a covering time-off schedule makes the staff member unavailable |
| Availability.QuerySchedules | backend/app/services/business_phase2.py:387-397 | selects exactly the staff member's schedules that overlap the date range |
| Availability.QueryBookings | backend/app/services/business_phase2.py:400-408 | selects exactly the resource's firm bookings that overlap the range |
| Availability.AvailabilityOf | backend/app/services/business_phase2.py:360-418 | an unknown resource gives "Resource not found"; a resource without staff gets the default range; a resource with a staff profile gets the range slots of that profile's schedules overlapping the range and the resource's firm bookings overlapping it |
| Availability.ProfileSlotAvailability | backend/app/services/business_phase2.py:360-418 | for a resource with a staff profile, every slot lies in the requested days; on a day the profile's schedules cover it is available iff no firm booking of the resource that starts that day and meets the range overlaps it; on an uncovered day it is a default slot and available |
| Availability.CalculateAvailability | backend/app/services/business_phase2.py:360-418 | computes `AvailabilityOf` |
| Bookings.NewHold | backend/app/services/business_phase2.py:486-510 | a hold lasts ttl minutes from now, and its key records tenant, resource and start |
| Bookings.FindHold | backend/app/services/business_phase2.py:529-535 | finds the first hold with the tenant and key, or establishes that none exists |
| Bookings.HoldBlocksOverlaps | backend/app/services/business_phase2.py:477-519 | once a hold is stored, overlapping requests are unavailable until it expires |
| Bookings.ReleaseUndoesCreate | backend/app/services/business_phase2.py:527-547 | releasing a hold just created finds it and restores the previous holds |
| Bookings.EmitEventAsWritten | backend/app/services/business_phase2.py:110-123 | the as-written emission succeeds only if the constructor accepts its keywords |
| Bookings.EmitAsWrittenAlwaysRaises | backend/app/services/business_phase2.py:110-123 | the as-written emission always raises "can't set attribute 'event_type'" |
| Bookings.PendingRowViolatesConstraint | backend/app/services/business_phase2.py:118 | the status `pending` it writes violates the outbox status constraint |
| Bookings.EmitEvent | backend/app/services/business_phase2.py:110-123 | the corrected emission writes the code and payload as a ready row with 0 of 3 attempts, due at once |
| Bookings.CorrectedKeywordsAccepted | backend/app/models/system.py:68-80 | the corrected keywords are all mapped columns |
| Bookings.CorrectedEmissionIsDelivered | backend/app/jobs/outbox_worker.py:45-55 | the worker selects a correctly emitted event on its next run |
| Bookings.BookingPayload | backend/app/services/business_phase2.py:1129-1140 | the event payload names the booking by its UUID text, and its status |
| Bookings.FindService | backend/app/services/business_phase2.py:1062-1069 | finds a non-deleted service of the tenant, or establishes that none exists |
| Bookings.FindByClientId | backend/app/services/business_phase2.py:1080-1089 | finds the tenant's booking with that client id, or establishes that none exists |
| Bookings.PlanCreate | backend/app/services/business_phase2.py:1035-1127 | creation needs a customer, all required fields, parsable times with start < end and a live service; a repeated client id returns the stored booking; a new booking is pending, belongs to the tenant, has the requested interval and customer, snapshots the service, and its slot is available |
| Bookings.PlanCreateRefusals | backend/app/services/business_phase2.py:1035-1108 | for a complete, well-timed request: an unknown service gives "Service not found", a firm conflict gives "Booking time conflicts with existing booking" and an unavailable slot gives "Selected time is not available", each after the earlier checks pass |
| Bookings.PlanCreateAccepts | backend/app/services/business_phase2.py:1035-1127 | for a complete, well-timed request for a live service: a retried client id returns the stored booking, and with no firm conflict and an available slot the booking is inserted |
| Bookings.CreateKeepsNoDoubleBooking | backend/app/services/business_phase2.py:1092-1108 | inserting a planned booking keeps the bookings free of firm overlaps and ids unique |
| Bookings.CreateIsIdempotent | backend/app/services/business_phase2.py:1080-1089 | creating again with the same client id returns the stored booking instead of a new one |
| Bookings.FirmConflictRefused | backend/app/services/business_phase2.py:1092-1104 | a request overlapping a confirmed booking on the same resource is refused |
| Bookings.FindBooking | backend/app/services/business_phase2.py:1260-1267 | an invalid id is an error; otherwise finds the tenant's booking with that id, or establishes that none exists |
| Bookings.Confirm | backend/app/services/business_phase2.py:1144-1161 | confirms iff pending and no payment is required, with the two source messages; the interval is unchanged |
| Bookings.Cancel | backend/app/services/business_phase2.py:1178-1194 | cancels any booking not already canceled or completed, stamping `canceled_at` |
| Bookings.MarkNoShow | backend/app/services/business_phase2.py:1241-1254 | only confirmed or checked-in bookings become `no_show` with the flag set |
| Bookings.RescheduleExcluding | backend/app/services/business_phase2.py:1205-1235 | a move needs a confirmed or checked-in booking, parsable times, start < end and an available slot; it changes only the interval and records the booking as rescheduled from itself |
| Bookings.RescheduleAsWrittenRefusesOverlappingMove | backend/app/services/business_phase2.py:1226-1228 | as written, every move that overlaps the booking's own current slot is refused |
| Bookings.RescheduleSelfOverlapExample | backend/app/services/business_phase2.py:1226-1228 | as written, a half-hour shift of a confirmed booking is refused because it overlaps its own old slot |
| Bookings.RescheduleExampleAccepted | backend/app/services/business_phase2.py:1226-1228 | the corrected reschedule accepts the same half-hour shift |
| Bookings.RescheduleKeepsNoDoubleBooking | backend/app/services/business_phase2.py:1205-1239 | the corrected reschedule keeps the bookings free of firm overlaps |
| Bookings.StatusChangesKeepNoDoubleBooking | backend/app/services/business_phase2.py:1144-1258 | changing only a booking's status keeps the invariant when the booking was already firm or becomes non-firm |
| Bookings.StatusPrecedence | backend/app/services/business_phase2.py:1285-1296 | the ranks of get_status_precedence: pending 1, confirmed 2, checked_in 3, completed 4, no_show 5, canceled 6, each rank given to that status only; `failed` and unknown text rank 0 |
| Bookings.PrecedenceRanksStatuses | backend/app/services/business_phase2.py:1285-1296 | distinct statuses have distinct precedence, and unknown text ranks with `failed` at 0 |
| Bookings.TransitionsRaisePrecedence | backend/app/services/business_phase2.py:1144-1258 | confirm, cancel and no-show each move a booking to a higher precedence |
| Store.Database.constructor | backend/app/services/business_phase2.py:350-354 | the services start on an empty hold cache; with empty tables too, the database satisfies the no-double-booking and unique-id invariant |
| Store.Database.CreateBookingHold | backend/app/services/business_phase2.py:477-525 | an unavailable slot is refused; the hold is cached and stored; on a write failure the cache entry is removed and the error reported |
| Store.Database.ReleaseBookingHold | backend/app/services/business_phase2.py:527-551 | an unknown key returns false; otherwise the cache entry is dropped first and then the row removed, and a delete failure is reported |
| Store.Database.CreateBooking | backend/app/services/business_phase2.py:1035-1142 | applies `PlanCreate`: a new booking is appended together with a BOOKING_CREATED row written by the corrected emission (as written the emission raises after the commit; see Findings), an existing one is returned unchanged, and the no-double-booking invariant is kept |
| Store.Database.ConfirmBooking | backend/app/services/business_phase2.py:1144-1176 | confirms the found booking in place and writes a BOOKING_CONFIRMED row by the corrected emission (as written the emission raises after the commit; see Findings); an unknown booking gives false |
| Store.Database.CancelBooking | backend/app/services/business_phase2.py:1178-1203 | cancels the found booking in place; an unknown booking gives none |
| Store.Database.RescheduleBooking | backend/app/services/business_phase2.py:1205-1239 | moves the found booking in place by the corrected reschedule, keeping the invariant |
| Store.Database.MarkNoShowBooking | backend/app/services/business_phase2.py:1241-1258 | marks the found booking as a no-show in place |
| Financial.RaiseAsWritten | backend/app/services/financial.py:110-115 | as written, each coded raise becomes a TypeError |
| Financial.Raise | backend/app/middleware/error_handler.py:23-28 | the corrected raise carries the message and code with status 500 |
| Financial.CodesLostAsWritten | backend/app/services/financial.py:110-115 | the as-written raise never produces the coded error |
| Financial.FindByKey | backend/app/services/financial.py:41-51 | finds the tenant's payment with that idempotency key, or establishes that none exists |
| Financial.FindPayment | backend/app/services/financial.py:107-112 | finds the payment by id and tenant, or establishes that none exists |
| Financial.IntentKey | backend/app/services/financial.py:41-43 | a given idempotency key is used as is; otherwise it is prefix_tenant_owner_generated |
| Financial.ConfirmedStatus | backend/app/services/financial.py:121-129 | succeeded→captured, requires_action→requires_action, canceled→canceled, anything else→failed, in both directions |
| Financial.FeeStatus | backend/app/services/financial.py:258 | a no-show fee is captured iff the provider reports succeeded, else failed |
| Financial.RefundStatus | backend/app/services/financial.py:330 | a refund succeeds iff the provider reports succeeded, else failed |
| Financial.RefundGuard | backend/app/services/financial.py:292-304 | a refund passes only for an existing payment with a provider intent and an amount within the payment, with the three source codes otherwise; the refusals are raised through the corrected `Raise` |
| Financial.AfterRefund | backend/app/services/financial.py:337-338 | only a full refund of the whole amount marks the payment refunded; nothing else changes |
| Financial.OnlyWholeFullRefundsMarkRefunded | backend/app/services/financial.py:337-338 | the payment becomes refunded iff the refund is of type full and of the whole amount |
| Financial.DefaultMethod | backend/app/services/financial.py:379-388 | finds a default method of the customer, or establishes that none exists |
| Financial.WithDefault | backend/app/services/financial.py:379-388 | the chosen method becomes default, every other method of the same customer stops being default, and everything else is unchanged |
| Financial.ExactlyOneDefault | backend/app/services/financial.py:379-388 | after setting, the chosen method is the customer's default |
| Financial.DefaultIsFirstDefault | backend/app/services/financial.py:379-388 | a customer with exactly one default method finds that method |
| Financial.PaymentService.CreatePaymentIntent | backend/app/services/financial.py:35-101 | a repeated key returns the stored payment; otherwise a payment for the amount with status `requires_action` is appended, or the provider error is raised; coded refusals are raised through the corrected `Raise` (as written each coded raise is a TypeError; see Findings) |
| Financial.PaymentService.ConfirmPaymentIntent | backend/app/services/financial.py:103-153 | an unknown payment or a missing intent is refused; otherwise the status becomes the mapped provider status; coded refusals are raised through the corrected `Raise` (as written each coded raise is a TypeError; see Findings) |
| Financial.PaymentService.CreateSetupIntent | backend/app/services/financial.py:155-210 | a repeated key returns the stored record; otherwise a record of amount 0 and fee type `setup` is appended; coded refusals are raised through the corrected `Raise` (as written each coded raise is a TypeError; see Findings) |
| Financial.PaymentService.CaptureNoShowFee | backend/app/services/financial.py:212-286 | needs the booking and a default method; records a payment with `fee_type` `no_show` and `no_show_fee_cents` set to the fee, whose status is the fee status of the provider result; coded refusals are raised through the corrected `Raise` (as written each coded raise is a TypeError; see Findings) |
| Financial.PaymentService.ProcessRefund | backend/app/services/financial.py:288-359 | applies the guard, appends a refund with the provider status, and marks the payment refunded only for a whole full refund; coded refusals are raised through the corrected `Raise` (as written each coded raise is a TypeError; see Findings) |
| Financial.PaymentService.SetDefaultPaymentMethod | backend/app/services/financial.py:368-390 | an unknown method is refused; otherwise the methods become `WithDefault`; coded refusals are raised through the corrected `Raise` (as written each coded raise is a TypeError; see Findings) |
| Financial.IntentCreationIsIdempotent | backend/app/services/financial.py:41-51 | once a payment is stored under a key, a lookup by that key finds it |
| Financial.RefundWithinAmount | backend/app/services/financial.py:289-304 | a refund is accepted exactly when the tenant's payment exists, has a provider intent and covers the refund amount, so an accepted refund never exceeds the payment's amount |
| Promotions.CouponFieldErrors | backend/app/blueprints/promotion_api.py:26-44 | no field errors iff code and name lengths, the discount type, the 3-letter currency, and the use limits and amounts meet their minimums |
| Promotions.DiscountValueErrors | backend/app/blueprints/promotion_api.py:45-55 | refuses a non-positive discount and a percentage above 100 |
| Promotions.ValidityErrors | backend/app/blueprints/promotion_api.py:57-64 | refuses a validity period whose end is not after its start |
| Promotions.LoadCoupon | backend/app/blueprints/promotion_api.py:26-64 | a loaded coupon is the input; a refusal lists at least one error |
| Promotions.LoadedCouponIsSound | backend/app/blueprints/promotion_api.py:26-64 | every loaded coupon has a positive discount, a percentage of at most 100, a known type and a valid period |
| Promotions.SoundCouponLoads | backend/app/blueprints/promotion_api.py:26-64 | every coupon meeting those bounds loads |
| Promotions.SchemaErrorsAccumulate | backend/app/blueprints/promotion_api.py:45-64 | both schema validators report, in order, when both fail |
| Promotions.ChoosePromotion | backend/app/blueprints/promotion_api.py:124-144 | accepts iff exactly one of coupon code and gift-card code is given, and returns that one |
| Promotions.GiftCardQuote | backend/app/blueprints/promotion_api.py:370-377 | the discount is the smaller of balance and amount; discount plus final is the amount; the final amount lies within 0..amount |
| Promotions.CouponQuote | backend/app/blueprints/promotion_api.py:264-271 | discount plus final is the amount, and a discount within the amount leaves a final within 0..amount |
| Promotions.GiftCardAttempt | backend/app/blueprints/promotion_api.py:349-378 | a quote is given iff both fields are present, the card is valid and the amount is an integer or a boolean, which Python counts as 0 or 1; the quote is GiftCardQuote of that integer; an abort is a 400, or a 500 only for an amount Python cannot subtract |
| Promotions.CouponAttempt | backend/app/blueprints/promotion_api.py:239-272 | a quote is given iff the three fields are present, the coupon is valid and the amount is an integer or a boolean, which Python counts as 0 or 1; the quote is CouponQuote of that integer; an abort is a 400, or a 500 only for an amount Python cannot subtract |
| Promotions.CatchAllAsWritten | backend/app/blueprints/promotion_api.py:273-277 | the catch-all keeps aborts as aborts |
| Promotions.ClientErrorsBecomeServerErrors | backend/app/blueprints/promotion_api.py:273-277 | as written, every abort of either endpoint reaches the client as a 500 |
| Promotions.ValidateGiftCard | backend/app/blueprints/promotion_api.py:349-382 | the corrected endpoint answers a missing code and an invalid card with 400 and the source message |
| Promotions.ValidateCoupon | backend/app/blueprints/promotion_api.py:239-277 | the corrected endpoint answers a missing code and an invalid coupon with 400 and the source message |
| Promotions.GiftCardNeverOvercharges | backend/app/blueprints/promotion_api.py:370-377 | a gift card never makes the final amount negative or larger than the amount |

## Left out

- HTTP routing, authentication, tenant resolution, logging and JSON serialisation are not modelled; the blueprint endpoints appear only through the functions above.
- The Redis availability cache is left out. The hold cache is kept only as a set of (tenant, key) pairs.
- Database commit failures of `_safe_db_operation` are not modelled for booking create, confirm, cancel, reschedule and no-show. Every commit there succeeds. Holds model their write failures as a parameter.
- Audit logging (`_log_audit`) is not part of this model. Store.Database.CancelBooking, Validators.CreateService and Validators.UpdateServiceChecks assume that the audit write after their commit succeeds (business_phase2.py:186, 253, 1199). As written, `_log_audit` passes `old_values=` and `new_values=`, but `AuditLog` declares the columns `old_data` and `new_data` (models/system.py:54-55). So a cancel, a service creation and a service update very likely each raise a TypeError after their change is already committed. The declarative base that would settle this is not part of this model.
- The waitlist, and service search, deletion and assignment are not part of this model.
- Staff profile and work schedule creation and updates are not part of this model. `delete_staff_profile` does not parse in the repository.
- `get_bookings` and `get_available_slots` are left out.
- Customer creation through the customer service inside `create_booking` is reduced to a fresh customer id.
- ISO 8601 parsing is reduced to a stamp that is either a parsed instant or malformed. Time zones, `booking_tz` and `attendee_count` are not modelled.
- Bookings.PlanCreate: the service snapshot keeps the service id as a UUID, not as its text.
- Validators.ParseUuid: after `uuid.UUID(str)` drops `urn:`, `uuid:`, braces and dashes, exactly 32 hexadecimal digits are accepted. The sign, whitespace, underscore and `0x` forms that `int(x, 16)` also accepts are not modelled.
- Validators.PyInt: accepts integers, booleans and decimal strings. Floats are not modelled. Text that Python's `int()` also accepts is refused here: digit groups joined by underscores (`"1_000"`), non-ASCII decimal digits, and surrounding non-ASCII whitespace.
- Text.ParseInt: reads an optional sign and ASCII decimal digits only. It does not accept underscores or non-ASCII digits.
- Text.Strip: removes ASCII whitespace only, where Python's `str.strip()` also removes Unicode whitespace.
- Text.Lower: folds only the ASCII letters A to Z. Python's `str.lower()` also folds non-ASCII letters, so the default slug of a name such as "Élan Spa" keeps its capital "É" here, where the source gives "élan-spa".
- Promotions.CouponFieldErrors: messages stand in for marshmallow's wording. Only the presence and order of errors are stated.
- Promotions.LoadCoupon: percentages are hundredths of a percent, because floats are not modelled.
- Promotions.GiftCardAttempt: a boolean amount is reported as the integer 0 or 1. Python's `min` can return the boolean itself, which the JSON response would show as `true` or `false`. Float amounts are not modelled.
- Promotions.CouponAttempt: float amounts are not modelled. The coupon service's discount is a parameter.
- Financial.PaymentService: assumes the `Payment` and `Refund` columns that financial.py reads and writes. The `Payment` model at models/financial.py:14-37 does not declare `customer_id`, `currency_code`, `method`, `provider`, `provider_payment_id`, `provider_setup_intent_id`, `provider_charge_id`, `idempotency_key`, `fee_type`, `no_show_fee_cents` or `provider_metadata`. The `Refund` model at models/financial.py:56-68 does not declare `booking_id`, `refund_type`, `provider`, `provider_refund_id` or `provider_metadata`. As written, the first `filter_by(idempotency_key=...)` (financial.py:45) would already fail. The model also ignores `ck_payment_status` (models/financial.py:31-36): the statuses `requires_action` and `captured` that the service writes are outside it.
- Stripe calls are opaque results passed in as parameters. Stripe metadata and the generic `except Exception` rollback paths of `financial.py` are reduced to the provider-error outcome.
- Invoices, Stripe Connect billing and `get_payment_methods` are not part of this model.
- `get_coupon` does not parse in the repository and is left out. Promotion usage records, gift-card transactions and analytics are left out.
- Each module is modelled as if it imported. As written, three would fail at import: outbox_worker.py:10 imports `celery`, which the extensions module does not define; the indentation error in `_is_staff_available` (business_phase2.py:676-678) stops the whole of business_phase2.py from compiling; and services/financial.py:14 imports `PaymentMethod` and `TenantBilling`, which models/financial.py does not define.
- Concurrency is not modelled. Each operation runs alone against the tables.
- Availability.IsStaffAvailable: reconstructed, because the repository's method does not parse. Its own ensures states only the accepting direction; Availability.StaffAvailableIff states both.
- Availability.IsTimeAvailable: states only the accepting direction. Refusals are stated by separate lemmas, one per cause.

## Findings

| source | as written | input that shows it | evidently intended | confidence | as-written member | corrected member |
|---|---|---|---|---|---|---|
| backend/app/blueprints/admin_dashboard_api.py:850-852 | requeue sets `status='ready'` but keeps `attempts` | a failed event with attempts = max_attempts = 3 | reset attempts so the worker retries the event | not executed | OutboxWorker.RequeuedFailedEventNeverSelected | OutboxWorker.RequeuedEventIsSelectable |
| backend/app/services/business_phase2.py:1226-1228 | the reschedule availability check counts the booking being moved | a confirmed 10:00–11:00 booking moved to 10:30–11:30 | exclude the booking itself from the conflict check | not executed | Bookings.RescheduleSelfOverlapExample | Bookings.RescheduleKeepsNoDoubleBooking |
| backend/app/services/business_phase2.py:110-123 | `_emit_event` passes read-only aliases and status `pending` | any call, e.g. a `BOOKING_CREATED` event after a booking insert | write `event_code`, `attempts`, `max_attempts` and status `ready` | not executed | Bookings.EmitAsWrittenAlwaysRaises | Bookings.CorrectedEmissionIsDelivered |
| backend/app/services/financial.py:110-115 | `TithiError(message, error_code=...)` against a constructor taking `code` | confirming an unknown payment id | raise the coded error with code `TITHI_PAYMENT_NOT_FOUND` | not executed | Financial.CodesLostAsWritten | Financial.Raise |
| backend/app/blueprints/promotion_api.py:273-277 | `abort(400)` inside `try` is caught by `except Exception` | a request body without `code` | answer 400 with the validation message | not executed | Promotions.ClientErrorsBecomeServerErrors | Promotions.ValidateGiftCard |
