/** The availability engine of `AvailabilityService`
    (backend/app/services/business_phase2.py): hourly slots per day from the covering
    work schedules, marked unavailable where a booking of that day overlaps; a default
    09:00-17:00 day where no schedule covers it; and the slot-conflict predicate
    `is_time_available`. Each loop of the source is a method proved equal to a
    specification function, and the properties are lemmas about those functions. */
module Availability {
  import opened Wrappers
  import opened Validators
  import opened BusinessModels

  // ---------------------------------------------------------------------------
  // Specification of the slots of one day
  // ---------------------------------------------------------------------------

  /** No booking of `bookings` overlaps [a, b). */
  predicate SlotFree(bookings: seq<Booking>, a: Instant, b: Instant) {
    forall k :: 0 <= k < |bookings| ==> !Overlaps(bookings[k].startAt, bookings[k].endAt, a, b)
  }

  /** The one-hour slot of `day` starting at `hour`. */
  function HourSlot(day: int, hour: int, bookings: seq<Booking>, scheduleType: string): (s: Slot)
    ensures s.startAt == AtHour(day, hour) && s.endAt == s.startAt + SecondsPerHour
    ensures s.available <==> SlotFree(bookings, s.startAt, s.endAt)
    ensures s.scheduleType == scheduleType
  {
    var start := AtHour(day, hour);
    Slot(start, start + SecondsPerHour, SlotFree(bookings, start, start + SecondsPerHour), scheduleType)
  }

  /** The slots for the hours `lo <= h < hi`, in order. */
  function HourSlots(day: int, lo: int, hi: int, bookings: seq<Booking>, scheduleType: string): (r: seq<Slot>)
    ensures |r| == if lo < hi then hi - lo else 0
    ensures forall k :: 0 <= k < |r| ==> r[k] == HourSlot(day, lo + k, bookings, scheduleType)
    decreases hi - lo
  {
    if lo >= hi then [] else HourSlots(day, lo, hi - 1, bookings, scheduleType) + [HourSlot(day, hi - 1, bookings, scheduleType)]
  }

  /** `time().replace(hour=h)` accepts only 0..23, so the hour loop of a schedule runs
      without raising exactly when it is empty or stays within the day. */
  predicate HoursValid(lo: int, hi: int) {
    lo >= hi || (0 <= lo && hi <= 24)
  }

  const HourError: ServiceError := ValueError("hour must be in 0..23")

  /** The slots the covering schedules `ss` contribute, schedule after schedule; time-off
      schedules contribute none. */
  function WorkingSlots(day: int, ss: seq<WorkSchedule>, bookings: seq<Booking>): (r: Result<seq<Slot>, ServiceError>)
    ensures r.Err? ==> r.error == HourError
  {
    if ss == [] then Ok([])
    else
      match WorkingSlots(day, ss[..|ss| - 1], bookings)
      case Err(e) => Err(e)
      case Ok(prefix) =>
        var s := ss[|ss| - 1];
        if s.isTimeOff then Ok(prefix)
        else if !HoursValid(StartHour(s), EndHour(s)) then Err(HourError)
        else Ok(prefix + HourSlots(day, StartHour(s), EndHour(s), bookings, s.scheduleType))
  }

  /** `_get_default_day_slots`: 09:00 to 17:00, every slot available, type `default`. */
  function DefaultDaySlots(day: int): (r: seq<Slot>)
    ensures |r| == DefaultBusinessEndHour - DefaultBusinessStartHour
    ensures forall k :: 0 <= k < |r| ==>
              r[k] == Slot(AtHour(day, DefaultBusinessStartHour + k), AtHour(day, DefaultBusinessStartHour + k) + SecondsPerHour,
                           true, "default")
  {
    seq(DefaultBusinessEndHour - DefaultBusinessStartHour,
        k requires 0 <= k < DefaultBusinessEndHour - DefaultBusinessStartHour =>
          Slot(AtHour(day, DefaultBusinessStartHour + k), AtHour(day, DefaultBusinessStartHour + k) + SecondsPerHour, true, "default"))
  }

  /** `_generate_day_slots`: the default day when no schedule covers it, else the
      working slots. */
  function DaySlots(day: int, ss: seq<WorkSchedule>, bookings: seq<Booking>): Result<seq<Slot>, ServiceError> {
    if ss == [] then Ok(DefaultDaySlots(day)) else WorkingSlots(day, ss, bookings)
  }

  function SchedulesOn(schedules: seq<WorkSchedule>, day: int): (r: seq<WorkSchedule>)
    ensures forall s :: s in r <==> s in schedules && CoversDay(s, day)
  {
    if schedules == [] then []
    else SchedulesOn(schedules[..|schedules| - 1], day)
         + (if CoversDay(schedules[|schedules| - 1], day) then [schedules[|schedules| - 1]] else [])
  }

  /** The bookings attributed to `day`: those that start on it. */
  function BookingsOn(bookings: seq<Booking>, day: int): (r: seq<Booking>)
    ensures forall b :: b in r <==> b in bookings && DayOf(b.startAt) == day
  {
    if bookings == [] then []
    else BookingsOn(bookings[..|bookings| - 1], day)
         + (if DayOf(bookings[|bookings| - 1].startAt) == day then [bookings[|bookings| - 1]] else [])
  }

  /** `_generate_availability_slots`: the days `first` through `last`, in order, each
      with its covering schedules and the bookings that start on it. */
  function RangeSlots(first: int, last: int, schedules: seq<WorkSchedule>, bookings: seq<Booking>)
    : (r: Result<seq<Slot>, ServiceError>)
    decreases last - first + 1
  {
    if last < first then Ok([])
    else
      match RangeSlots(first, last - 1, schedules, bookings)
      case Err(e) => Err(e)
      case Ok(prefix) =>
        match DaySlots(last, SchedulesOn(schedules, last), BookingsOn(bookings, last))
        case Err(e) => Err(e)
        case Ok(day) => Ok(prefix + day)
  }

  /** `_get_default_availability`. */
  function DefaultRangeSlots(first: int, last: int): (r: seq<Slot>)
    ensures |r| == if last < first then 0 else 8 * (last - first + 1)
    decreases last - first + 1
  {
    if last < first then [] else DefaultRangeSlots(first, last - 1) + DefaultDaySlots(last)
  }

  // ---------------------------------------------------------------------------
  // The source's loops
  // ---------------------------------------------------------------------------

  /** The prefix property of `WorkingSlots`: once a prefix raises, so does the whole. */
  lemma {:induction false} WorkingErrorPersists(day: int, ss: seq<WorkSchedule>, i: nat, bookings: seq<Booking>)
    requires i <= |ss| && WorkingSlots(day, ss[..i], bookings).Err?
    ensures WorkingSlots(day, ss, bookings) == Err(HourError)
    decreases |ss| - i
  {
    if i < |ss| {
      assert ss[..i + 1][..i] == ss[..i];
      WorkingErrorPersists(day, ss, i + 1, bookings);
    } else {
      assert ss[..i] == ss;
    }
  }

  /** `_get_default_day_slots`. */
  method GetDefaultDaySlots(day: int) returns (slots: seq<Slot>)
    ensures slots == DefaultDaySlots(day)
  {
    slots := [];
    for hour := DefaultBusinessStartHour to DefaultBusinessEndHour
      invariant |slots| == hour - DefaultBusinessStartHour
      invariant forall k :: 0 <= k < |slots| ==> slots[k] == DefaultDaySlots(day)[k]
    {
      var slotStart := AtHour(day, hour);
      slots := slots + [Slot(slotStart, slotStart + SecondsPerHour, true, "default")];
    }
  }

  /** The hour loop of `_generate_day_slots` for one working schedule: extends `before`
      by one slot per work hour, or raises where `replace(hour=...)` would. */
  method AppendScheduleSlots(day: int, schedule: WorkSchedule, bookings: seq<Booking>, before: seq<Slot>)
    returns (r: Result<seq<Slot>, ServiceError>)
    ensures HoursValid(StartHour(schedule), EndHour(schedule)) ==>
              r == Ok(before + HourSlots(day, StartHour(schedule), EndHour(schedule), bookings, schedule.scheduleType))
    ensures !HoursValid(StartHour(schedule), EndHour(schedule)) ==> r == Err(HourError)
  {
    var startHour := StartHour(schedule);
    var endHour := EndHour(schedule);
    var slots := before;
    var currentHour := startHour;
    while currentHour < endHour
      invariant startHour <= currentHour || endHour <= startHour
      invariant slots == before + HourSlots(day, startHour, if startHour < endHour then currentHour else startHour,
                                            bookings, schedule.scheduleType)
      invariant startHour < endHour ==> currentHour <= endHour
      invariant startHour < currentHour ==> 0 <= startHour && currentHour <= 24
      decreases endHour - currentHour
    {
      if !(0 <= currentHour <= 23) {
        return Err(HourError);
      }
      var slotStart := AtHour(day, currentHour);
      var slotEnd := slotStart + SecondsPerHour;
      var isAvailable := SlotFree(bookings, slotStart, slotEnd);
      slots := slots + [Slot(slotStart, slotEnd, isAvailable, schedule.scheduleType)];
      currentHour := currentHour + 1;
    }
    return Ok(slots);
  }

  /** `_generate_day_slots`. */
  method GenerateDaySlots(day: int, schedules: seq<WorkSchedule>, bookings: seq<Booking>)
    returns (r: Result<seq<Slot>, ServiceError>)
    ensures r == DaySlots(day, schedules, bookings)
  {
    if |schedules| == 0 {
      var d := GetDefaultDaySlots(day);
      return Ok(d);
    }
    var slots: seq<Slot> := [];
    for i := 0 to |schedules|
      invariant WorkingSlots(day, schedules[..i], bookings) == Ok(slots)
    {
      var schedule := schedules[i];
      assert schedules[..i + 1][..i] == schedules[..i];
      if !schedule.isTimeOff {
        var next := AppendScheduleSlots(day, schedule, bookings, slots);
        if next.Err? {
          WorkingErrorPersists(day, schedules, i + 1, bookings);
          return Err(HourError);
        }
        slots := next.value;
      }
    }
    assert schedules[..|schedules|] == schedules;
    return Ok(slots);
  }

  /** The prefix property of `RangeSlots`. */
  lemma {:induction false} RangeErrorPersists(first: int, d: int, last: int, schedules: seq<WorkSchedule>,
                                              bookings: seq<Booking>)
    requires d <= last && RangeSlots(first, d, schedules, bookings).Err?
    ensures RangeSlots(first, last, schedules, bookings) == RangeSlots(first, d, schedules, bookings)
    decreases last - d
  {
    if d < last {
      RangeErrorPersists(first, d, last - 1, schedules, bookings);
    }
  }

  /** One more day of `RangeSlots`: the previous days' slots followed by that day's. */
  lemma RangeStep(first: int, d: int, schedules: seq<WorkSchedule>, bookings: seq<Booking>, prefix: seq<Slot>)
    requires first <= d && RangeSlots(first, d - 1, schedules, bookings) == Ok(prefix)
    ensures var day := DaySlots(d, SchedulesOn(schedules, d), BookingsOn(bookings, d));
            && (day.Err? ==> RangeSlots(first, d, schedules, bookings) == Err(day.error))
            && (day.Ok? ==> RangeSlots(first, d, schedules, bookings) == Ok(prefix + day.value))
  {
  }

  /** `_generate_availability_slots(start_date, end_date, schedules, bookings)`. */
  method GenerateAvailabilitySlots(startAt: Instant, endAt: Instant, schedules: seq<WorkSchedule>,
                                   bookings: seq<Booking>)
    returns (r: Result<seq<Slot>, ServiceError>)
    ensures r == RangeSlots(DayOf(startAt), DayOf(endAt), schedules, bookings)
  {
    var slots: seq<Slot> := [];
    var currentDate := DayOf(startAt);
    var endDateOnly := DayOf(endAt);
    ghost var first := currentDate;
    while currentDate <= endDateOnly
      invariant first <= currentDate && (currentDate == first || currentDate <= endDateOnly + 1)
      invariant RangeSlots(first, currentDate - 1, schedules, bookings) == Ok(slots)
      decreases endDateOnly - currentDate
    {
      var daySchedules := SchedulesOn(schedules, currentDate);
      var dayBookings := BookingsOn(bookings, currentDate);
      var daySlots := GenerateDaySlots(currentDate, daySchedules, dayBookings);
      RangeStep(first, currentDate, schedules, bookings, slots);
      if daySlots.Err? {
        RangeErrorPersists(first, currentDate, endDateOnly, schedules, bookings);
        return Err(daySlots.error);
      }
      slots := slots + daySlots.value;
      currentDate := currentDate + 1;
    }
    if endDateOnly < first {
      assert RangeSlots(first, endDateOnly, schedules, bookings) == Ok([]);
    }
    return Ok(slots);
  }

  /** `_get_default_availability(start_date, end_date)`. */
  method GetDefaultAvailability(startAt: Instant, endAt: Instant) returns (slots: seq<Slot>)
    ensures slots == DefaultRangeSlots(DayOf(startAt), DayOf(endAt))
  {
    slots := [];
    var currentDate := DayOf(startAt);
    var endDateOnly := DayOf(endAt);
    while currentDate <= endDateOnly
      invariant DayOf(startAt) <= currentDate
      invariant currentDate == DayOf(startAt) || currentDate <= endDateOnly + 1
      invariant slots == DefaultRangeSlots(DayOf(startAt), currentDate - 1)
      decreases endDateOnly - currentDate
    {
      var daySlots := GetDefaultDaySlots(currentDate);
      slots := slots + daySlots;
      currentDate := currentDate + 1;
    }
    if endDateOnly < DayOf(startAt) {
      assert DefaultRangeSlots(DayOf(startAt), DayOf(endAt)) == [];
    }
  }

  // ---------------------------------------------------------------------------
  // Properties of the slots
  // ---------------------------------------------------------------------------

  /** A slot of `day`: one hour long, starting on the hour within that day. */
  predicate SlotOfDay(s: Slot, day: int) {
    s.endAt == s.startAt + SecondsPerHour && DayOf(s.startAt) == day &&
    exists h :: 0 <= h < 24 && s.startAt == AtHour(day, h)
  }

  lemma {:induction false} WorkingSlotsLieInDay(day: int, ss: seq<WorkSchedule>, bookings: seq<Booking>)
    requires WorkingSlots(day, ss, bookings).Ok?
    ensures forall s :: s in WorkingSlots(day, ss, bookings).value ==> SlotOfDay(s, day)
  {
    if ss != [] {
      var p := ss[..|ss| - 1];
      WorkingSlotsLieInDay(day, p, bookings);
      var sc := ss[|ss| - 1];
      if !sc.isTimeOff {
        var hs := HourSlots(day, StartHour(sc), EndHour(sc), bookings, sc.scheduleType);
        forall k | 0 <= k < |hs| ensures SlotOfDay(hs[k], day) {
          AtHourInDay(day, StartHour(sc) + k);
        }
      }
    }
  }

  /** Every slot of a day is a one-hour slot on the hour inside that day. */
  lemma DaySlotsLieInDay(day: int, ss: seq<WorkSchedule>, bookings: seq<Booking>)
    requires DaySlots(day, ss, bookings).Ok?
    ensures forall s :: s in DaySlots(day, ss, bookings).value ==> SlotOfDay(s, day)
  {
    if ss == [] {
      var d := DefaultDaySlots(day);
      forall k | 0 <= k < |d| ensures SlotOfDay(d[k], day) {
        AtHourInDay(day, DefaultBusinessStartHour + k);
      }
    } else {
      WorkingSlotsLieInDay(day, ss, bookings);
    }
  }

  /** The day part of `DaySlotsLieInDay`. */
  lemma DaySlotsOnDay(day: int, ss: seq<WorkSchedule>, bookings: seq<Booking>)
    requires DaySlots(day, ss, bookings).Ok?
    ensures forall s :: s in DaySlots(day, ss, bookings).value ==> DayOf(s.startAt) == day
  {
    DaySlotsLieInDay(day, ss, bookings);
  }

  /** On a scheduled day a slot is available iff no booking of the day overlaps it. */
  lemma {:induction false} WorkingSlotAvailableIffFree(day: int, ss: seq<WorkSchedule>, bookings: seq<Booking>)
    requires WorkingSlots(day, ss, bookings).Ok?
    ensures forall s :: s in WorkingSlots(day, ss, bookings).value ==>
              (s.available <==> SlotFree(bookings, s.startAt, s.endAt))
  {
    if ss != [] {
      WorkingSlotAvailableIffFree(day, ss[..|ss| - 1], bookings);
    }
  }

  /** The working hours of one schedule become one slot per hour, in order, each tagged
      with the schedule's type; a time-off schedule adds nothing. */
  lemma OneScheduleSlots(day: int, sc: WorkSchedule, bookings: seq<Booking>)
    requires HoursValid(StartHour(sc), EndHour(sc))
    ensures sc.isTimeOff ==> DaySlots(day, [sc], bookings) == Ok([])
    ensures !sc.isTimeOff ==>
              DaySlots(day, [sc], bookings) == Ok(HourSlots(day, StartHour(sc), EndHour(sc), bookings, sc.scheduleType))
  {
    assert [sc][..0] == [];
    assert WorkingSlots(day, [sc][..0], bookings) == Ok([]);
    if !sc.isTimeOff {
      var hs := HourSlots(day, StartHour(sc), EndHour(sc), bookings, sc.scheduleType);
      assert [] + hs == hs;
    }
  }

  /** A day covered only by time off has no slots at all. */
  lemma {:induction false} TimeOffDayHasNoSlots(day: int, ss: seq<WorkSchedule>, bookings: seq<Booking>)
    requires forall k :: 0 <= k < |ss| ==> ss[k].isTimeOff
    ensures WorkingSlots(day, ss, bookings) == Ok([])
    ensures ss != [] ==> DaySlots(day, ss, bookings) == Ok([])
  {
    if ss != [] {
      TimeOffDayHasNoSlots(day, ss[..|ss| - 1], bookings);
    }
  }

  /** A day no schedule covers gets the eight default slots, every one available and of
      type `default`, whatever bookings exist. */
  lemma UnscheduledDayIsDefault(day: int, bookings: seq<Booking>)
    ensures DaySlots(day, [], bookings).Ok?
    ensures var slots := DaySlots(day, [], bookings).value;
            |slots| == 8 &&
            forall k :: 0 <= k < 8 ==>
              slots[k].startAt == AtHour(day, 9 + k) && slots[k].endAt == AtHour(day, 10 + k) &&
              slots[k].available && slots[k].scheduleType == "default"
  {
  }

  /** Days come out in ascending order, each inside the requested range. */
  lemma {:induction false} RangeDaysAscending(first: int, last: int, schedules: seq<WorkSchedule>, bookings: seq<Booking>)
    requires RangeSlots(first, last, schedules, bookings).Ok?
    ensures var slots := RangeSlots(first, last, schedules, bookings).value;
            (forall i :: 0 <= i < |slots| ==> first <= DayOf(slots[i].startAt) <= last) &&
            (forall i, j :: 0 <= i < j < |slots| ==> DayOf(slots[i].startAt) <= DayOf(slots[j].startAt))
    decreases last - first + 1
  {
    if last >= first {
      RangeDaysAscending(first, last - 1, schedules, bookings);
      var prefix := RangeSlots(first, last - 1, schedules, bookings).value;
      var day := DaySlots(last, SchedulesOn(schedules, last), BookingsOn(bookings, last)).value;
      DaySlotsOnDay(last, SchedulesOn(schedules, last), BookingsOn(bookings, last));
      assert RangeSlots(first, last, schedules, bookings) == Ok(prefix + day);
      AppendDayKeepsOrder(prefix, day, first, last);
    }
  }

  /** Appending the slots of day `last` to slots of the days `first..last - 1` in
      ascending order keeps them ascending and within `first..last`. */
  lemma AppendDayKeepsOrder(prefix: seq<Slot>, day: seq<Slot>, first: int, last: int)
    requires first <= last
    requires forall i :: 0 <= i < |prefix| ==> first <= DayOf(prefix[i].startAt) <= last - 1
    requires forall i, j :: 0 <= i < j < |prefix| ==> DayOf(prefix[i].startAt) <= DayOf(prefix[j].startAt)
    requires forall s :: s in day ==> DayOf(s.startAt) == last
    ensures var slots := prefix + day;
            (forall i :: 0 <= i < |slots| ==> first <= DayOf(slots[i].startAt) <= last) &&
            (forall i, j :: 0 <= i < j < |slots| ==> DayOf(slots[i].startAt) <= DayOf(slots[j].startAt))
  {
    var slots := prefix + day;
    forall i | 0 <= i < |slots| ensures first <= DayOf(slots[i].startAt) <= last {
      if i < |prefix| {
        assert slots[i] == prefix[i];
      } else {
        assert slots[i] == day[i - |prefix|] && slots[i] in day;
      }
    }
    forall i, j | 0 <= i < j < |slots| ensures DayOf(slots[i].startAt) <= DayOf(slots[j].startAt) {
      if j < |prefix| {
        assert slots[i] == prefix[i] && slots[j] == prefix[j];
      } else {
        assert slots[j] == day[j - |prefix|] && slots[j] in day;
        if i < |prefix| {
          assert slots[i] == prefix[i];
        } else {
          assert slots[i] == day[i - |prefix|] && slots[i] in day;
        }
      }
    }
  }

  /** A booking is attributed to a day only by its start date: a booking that starts
      outside the requested days changes nothing, even where it overlaps them. */
  lemma {:induction false} BookingOutsideRangeIgnored(first: int, last: int, schedules: seq<WorkSchedule>,
                                                      bookings: seq<Booking>, b: Booking)
    requires DayOf(b.startAt) < first || DayOf(b.startAt) > last
    ensures RangeSlots(first, last, schedules, bookings + [b]) == RangeSlots(first, last, schedules, bookings)
    decreases last - first + 1
  {
    if last >= first {
      BookingOutsideRangeIgnored(first, last - 1, schedules, bookings, b);
      BookingsOnOtherDay(bookings, b, last);
    }
  }

  lemma BookingsOnOtherDay(bookings: seq<Booking>, b: Booking, day: int)
    requires DayOf(b.startAt) != day
    ensures BookingsOn(bookings + [b], day) == BookingsOn(bookings, day)
  {
    assert (bookings + [b])[..|bookings|] == bookings;
  }

  /** The default range is 8 slots per day, day after day, hour after hour. */
  lemma {:induction false} DefaultRangeShape(first: int, last: int, i: nat)
    requires first <= last && i < 8 * (last - first + 1)
    ensures DefaultRangeSlots(first, last)[i] ==
            Slot(AtHour(first + i / 8, 9 + i % 8), AtHour(first + i / 8, 9 + i % 8) + SecondsPerHour, true, "default")
    decreases last - first
  {
    var prefix := DefaultRangeSlots(first, last - 1);
    if i < |prefix| {
      DefaultRangeShape(first, last - 1, i);
    } else {
      var k := i - |prefix|;
      assert |prefix| == 8 * (last - first);
      assert i == 8 * (last - first) + k && 0 <= k < 8;
      assert i / 8 == last - first && i % 8 == k;
    }
  }

  // ---------------------------------------------------------------------------
  // is_time_available
  // ---------------------------------------------------------------------------

  /** A booking that occupies the resource during [startAt, endAt); the booking with id
      `exclude`, if given, is ignored. */
  predicate BookingConflicts(b: Booking, tenantId: Uuid, resourceId: Uuid, startAt: Instant, endAt: Instant,
                             exclude: Option<Uuid>) {
    b.tenantId == tenantId && b.resourceId == resourceId && Blocking(b.status) &&
    Overlaps(b.startAt, b.endAt, startAt, endAt) && (exclude.None? || b.id != exclude.value)
  }

  /** A hold on the resource that has not expired at `now` and overlaps. */
  predicate HoldConflicts(h: BookingHold, tenantId: Uuid, resourceId: Uuid, startAt: Instant, endAt: Instant,
                          now: Instant) {
    h.tenantId == tenantId && h.resourceId == resourceId && h.holdUntil > now &&
    Overlaps(h.startAt, h.endAt, startAt, endAt)
  }

  /** The first staff profile of the resource, active ones only when `activeOnly`. */
  function FirstProfile(profiles: seq<StaffProfile>, tenantId: Uuid, resourceId: Uuid, activeOnly: bool)
    : (r: Option<StaffProfile>)
    ensures r.Some? ==> r.value in profiles && r.value.tenantId == tenantId && r.value.resourceId == resourceId
    ensures r.Some? && activeOnly ==> r.value.isActive
    ensures r.None? ==> forall p :: p in profiles && p.tenantId == tenantId && p.resourceId == resourceId ==>
                          activeOnly && !p.isActive
  {
    if profiles == [] then None
    else
      var p := profiles[0];
      if p.tenantId == tenantId && p.resourceId == resourceId && (!activeOnly || p.isActive) then Some(p)
      else FirstProfile(profiles[1..], tenantId, resourceId, activeOnly)
  }

  /** A schedule of the profile's tenant and of the profile itself that covers `day`:
      the rows the query at business_phase2.py:660-670 returns. */
  predicate CoversFor(s: WorkSchedule, profile: StaffProfile, day: int) {
    s.tenantId == profile.tenantId && s.staffProfileId == profile.id && CoversDay(s, day)
  }

  /** `i` is the index of the first row of `schedules` that covers `day` for the profile. */
  predicate IsFirstCovering(schedules: seq<WorkSchedule>, profile: StaffProfile, day: int, i: int) {
    0 <= i < |schedules| && CoversFor(schedules[i], profile, day) &&
    forall j :: 0 <= j < i ==> !CoversFor(schedules[j], profile, day)
  }

  /** The first schedule of the profile covering `day`, in table order. */
  function FirstCovering(schedules: seq<WorkSchedule>, profile: StaffProfile, day: int): (r: Option<WorkSchedule>)
    ensures r.Some? ==> r.value in schedules && CoversFor(r.value, profile, day)
    ensures r.None? ==> forall s :: s in schedules && s.tenantId == profile.tenantId && s.staffProfileId == profile.id ==>
                          !CoversDay(s, day)
  {
    if schedules == [] then None
    else
      var s := schedules[0];
      if s.tenantId == profile.tenantId && s.staffProfileId == profile.id && CoversDay(s, day) then Some(s)
      else FirstCovering(schedules[1..], profile, day)
  }

  /** `_is_staff_available`, whose source text does not parse; reconstructed as its
      evident intent: the first covering schedule decides, time off refuses, working
      hours accept when the start hour is at least their start and the end hour at
      most their end; no covering schedule refuses. */
  function IsStaffAvailable(schedules: seq<WorkSchedule>, profile: StaffProfile, startAt: Instant, endAt: Instant)
    : (r: bool)
    ensures r ==> exists s :: s in schedules && CoversFor(s, profile, DayOf(startAt)) && Admits(s, startAt, endAt)
  {
    match FirstCovering(schedules, profile, DayOf(startAt))
    case None => false
    case Some(s) => !s.isTimeOff && HourOf(startAt) >= StartHour(s) && HourOf(endAt) <= EndHour(s)
  }

  /** FirstCovering returns the row at the first covering index, and None exactly when
      no index covers. */
  lemma {:induction false} FirstCoveringIndex(schedules: seq<WorkSchedule>, profile: StaffProfile, day: int)
    ensures FirstCovering(schedules, profile, day).Some? ==>
              exists i :: IsFirstCovering(schedules, profile, day, i) &&
                          schedules[i] == FirstCovering(schedules, profile, day).value
    ensures FirstCovering(schedules, profile, day).None? ==>
              forall i :: 0 <= i < |schedules| ==> !CoversFor(schedules[i], profile, day)
    decreases |schedules|
  {
    if schedules == [] {
    } else if CoversFor(schedules[0], profile, day) {
      assert IsFirstCovering(schedules, profile, day, 0);
    } else {
      var rest := schedules[1..];
      FirstCoveringIndex(rest, profile, day);
      if FirstCovering(rest, profile, day).Some? {
        var i :| IsFirstCovering(rest, profile, day, i) && rest[i] == FirstCovering(rest, profile, day).value;
        forall j | 0 <= j < i + 1
          ensures !CoversFor(schedules[j], profile, day)
        {
          if j > 0 { assert schedules[j] == rest[j - 1]; }
        }
        assert IsFirstCovering(schedules, profile, day, i + 1);
      } else {
        forall i | 0 <= i < |schedules|
          ensures !CoversFor(schedules[i], profile, day)
        {
          if i > 0 { assert schedules[i] == rest[i - 1]; }
        }
      }
    }
  }

  /** The schedule admits the interval: working time whose hours contain it. */
  predicate Admits(s: WorkSchedule, startAt: Instant, endAt: Instant) {
    !s.isTimeOff && StartHour(s) <= HourOf(startAt) && HourOf(endAt) <= EndHour(s)
  }

  /** Both directions of the staff check: the member is available exactly when the
      first schedule, in table order, covering the start day for that member's tenant
      and profile is working time whose hours contain the interval. */
  lemma StaffAvailableIff(schedules: seq<WorkSchedule>, profile: StaffProfile, startAt: Instant, endAt: Instant)
    ensures IsStaffAvailable(schedules, profile, startAt, endAt) <==>
              exists i :: IsFirstCovering(schedules, profile, DayOf(startAt), i) && Admits(schedules[i], startAt, endAt)
  {
    var day := DayOf(startAt);
    FirstCoveringIndex(schedules, profile, day);
    if exists i :: IsFirstCovering(schedules, profile, day, i) && Admits(schedules[i], startAt, endAt) {
      var i :| IsFirstCovering(schedules, profile, day, i) && Admits(schedules[i], startAt, endAt);
      var k :| IsFirstCovering(schedules, profile, day, k) &&
               schedules[k] == FirstCovering(schedules, profile, day).value;
      assert !(i < k) && !(k < i);
    }
  }

  /** `is_time_available(tenant, resource, start, end)` at time `now`; with `exclude`
      given, the booking with that id does not count as a conflict. */
  function IsTimeAvailable(t: Tables, tenantId: Uuid, resourceId: Uuid, startAt: Instant, endAt: Instant,
                           now: Instant, exclude: Option<Uuid> := None): (r: Result<bool, ServiceError>)
    ensures r.Err? <==> startAt >= endAt
    ensures r.Err? ==> r.error == ValidationError("Start time must be before end time")
    ensures r == Ok(true) ==>
              (forall k :: 0 <= k < |t.bookings| ==>
                 !BookingConflicts(t.bookings[k], tenantId, resourceId, startAt, endAt, exclude)) &&
              (forall k :: 0 <= k < |t.holds| ==> !HoldConflicts(t.holds[k], tenantId, resourceId, startAt, endAt, now)) &&
              (exists p :: p in t.staffProfiles && p.tenantId == tenantId && p.resourceId == resourceId && p.isActive)
  {
    if ValidateDatetimeRange(startAt, endAt).Err? then Err(ValidateDatetimeRange(startAt, endAt).error)
    else if exists k :: 0 <= k < |t.bookings| && BookingConflicts(t.bookings[k], tenantId, resourceId, startAt, endAt, exclude)
    then Ok(false)
    else if exists k :: 0 <= k < |t.holds| && HoldConflicts(t.holds[k], tenantId, resourceId, startAt, endAt, now)
    then Ok(false)
    else
      match FirstProfile(t.staffProfiles, tenantId, resourceId, true)
      case None => Ok(false)
      case Some(p) => Ok(IsStaffAvailable(t.schedules, p, startAt, endAt))
  }

  /** Any overlapping pending, confirmed or checked-in booking of the resource makes the
      interval unavailable. */
  lemma OverlapMeansUnavailable(t: Tables, tenantId: Uuid, resourceId: Uuid, startAt: Instant, endAt: Instant,
                                now: Instant, k: nat)
    requires startAt < endAt && k < |t.bookings|
    requires BookingConflicts(t.bookings[k], tenantId, resourceId, startAt, endAt, None)
    ensures IsTimeAvailable(t, tenantId, resourceId, startAt, endAt, now) == Ok(false)
  {
  }

  /** An overlapping hold blocks the interval until its `hold_until`, and no longer. */
  lemma HoldBlocksUntilExpiry(t: Tables, tenantId: Uuid, resourceId: Uuid, startAt: Instant, endAt: Instant,
                              now: Instant, k: nat)
    requires startAt < endAt && k < |t.holds|
    requires t.holds[k].tenantId == tenantId && t.holds[k].resourceId == resourceId
    requires Overlaps(t.holds[k].startAt, t.holds[k].endAt, startAt, endAt)
    ensures now < t.holds[k].holdUntil ==> IsTimeAvailable(t, tenantId, resourceId, startAt, endAt, now) == Ok(false)
    ensures now >= t.holds[k].holdUntil ==> !HoldConflicts(t.holds[k], tenantId, resourceId, startAt, endAt, now)
  {
    if now < t.holds[k].holdUntil {
      assert HoldConflicts(t.holds[k], tenantId, resourceId, startAt, endAt, now);
    }
  }

  /** Holds only expire: an interval available at `now` is still available later. */
  lemma AvailabilityOnlyGrowsWithTime(t: Tables, tenantId: Uuid, resourceId: Uuid, startAt: Instant, endAt: Instant,
                                      now: Instant, later: Instant)
    requires now <= later
    requires IsTimeAvailable(t, tenantId, resourceId, startAt, endAt, now) == Ok(true)
    ensures IsTimeAvailable(t, tenantId, resourceId, startAt, endAt, later) == Ok(true)
  {
  }

  /** Without an active staff profile for the resource nothing is available. */
  lemma NoActiveStaffNoAvailability(t: Tables, tenantId: Uuid, resourceId: Uuid, startAt: Instant, endAt: Instant,
                                    now: Instant)
    requires startAt < endAt
    requires forall p :: p in t.staffProfiles && p.tenantId == tenantId && p.resourceId == resourceId ==> !p.isActive
    ensures IsTimeAvailable(t, tenantId, resourceId, startAt, endAt, now) == Ok(false)
  {
  }

  /** Staff time off covering the start day refuses the interval. */
  lemma TimeOffRefuses(schedules: seq<WorkSchedule>, profile: StaffProfile, startAt: Instant, endAt: Instant)
    requires FirstCovering(schedules, profile, DayOf(startAt)).Some?
    requires FirstCovering(schedules, profile, DayOf(startAt)).value.isTimeOff
    ensures !IsStaffAvailable(schedules, profile, startAt, endAt)
  {
  }

  // ---------------------------------------------------------------------------
  // calculate_availability
  // ---------------------------------------------------------------------------

  /** The work-schedule query: the profile's schedules overlapping the requested days. */
  function QuerySchedules(schedules: seq<WorkSchedule>, tenantId: Uuid, profileId: Uuid, first: int, last: int)
    : (r: seq<WorkSchedule>)
    ensures forall s :: s in r <==> s in schedules && s.tenantId == tenantId && s.staffProfileId == profileId &&
                                    s.startDate <= last && (s.endDate.None? || s.endDate.value >= first)
  {
    if schedules == [] then []
    else
      var s := schedules[|schedules| - 1];
      QuerySchedules(schedules[..|schedules| - 1], tenantId, profileId, first, last)
      + (if s.tenantId == tenantId && s.staffProfileId == profileId && s.startDate <= last &&
            (s.endDate.None? || s.endDate.value >= first) then [s] else [])
  }

  /** The booking query: the resource's occupying bookings overlapping the range. */
  function QueryBookings(bookings: seq<Booking>, tenantId: Uuid, resourceId: Uuid, startAt: Instant, endAt: Instant)
    : (r: seq<Booking>)
    ensures forall b :: b in r <==> b in bookings && b.tenantId == tenantId && b.resourceId == resourceId &&
                                    Blocking(b.status) && b.startAt < endAt && b.endAt > startAt
  {
    if bookings == [] then []
    else
      var b := bookings[|bookings| - 1];
      QueryBookings(bookings[..|bookings| - 1], tenantId, resourceId, startAt, endAt)
      + (if b.tenantId == tenantId && b.resourceId == resourceId && Blocking(b.status) &&
            b.startAt < endAt && b.endAt > startAt then [b] else [])
  }

  predicate ResourceExists(resources: seq<Resource>, tenantId: Uuid, resourceId: Uuid) {
    exists k :: 0 <= k < |resources| && resources[k].tenantId == tenantId && resources[k].id == resourceId
  }

  /** `calculate_availability` (without its cache): an unknown resource is an error; a
      resource with no staff profile gets default hours every day; otherwise the slots
      of its schedules and bookings. */
  function AvailabilityOf(t: Tables, tenantId: Uuid, resourceId: Uuid, startAt: Instant, endAt: Instant)
    : (r: Result<seq<Slot>, ServiceError>)
    ensures !ResourceExists(t.resources, tenantId, resourceId) ==> r == Err(ValueError("Resource not found"))
    ensures ResourceExists(t.resources, tenantId, resourceId) && FirstProfile(t.staffProfiles, tenantId, resourceId, false).None? ==>
              r == Ok(DefaultRangeSlots(DayOf(startAt), DayOf(endAt)))
    ensures ResourceExists(t.resources, tenantId, resourceId) && FirstProfile(t.staffProfiles, tenantId, resourceId, false).Some? ==>
              r == RangeSlots(DayOf(startAt), DayOf(endAt),
                              ProfileSchedules(t, tenantId, resourceId, startAt, endAt),
                              QueryBookings(t.bookings, tenantId, resourceId, startAt, endAt))
  {
    if !ResourceExists(t.resources, tenantId, resourceId) then Err(ValueError("Resource not found"))
    else
      if FirstProfile(t.staffProfiles, tenantId, resourceId, false).None? then
        Ok(DefaultRangeSlots(DayOf(startAt), DayOf(endAt)))
      else
        RangeSlots(DayOf(startAt), DayOf(endAt), ProfileSchedules(t, tenantId, resourceId, startAt, endAt),
                   QueryBookings(t.bookings, tenantId, resourceId, startAt, endAt))
  }

  /** The schedules `calculate_availability` loads for the resource's staff profile. */
  function ProfileSchedules(t: Tables, tenantId: Uuid, resourceId: Uuid, startAt: Instant, endAt: Instant)
    : seq<WorkSchedule>
    requires FirstProfile(t.staffProfiles, tenantId, resourceId, false).Some?
  {
    QuerySchedules(t.schedules, tenantId, FirstProfile(t.staffProfiles, tenantId, resourceId, false).value.id,
                   DayOf(startAt), DayOf(endAt))
  }

  /** No firm booking of the resource that meets the queried range and starts on `day`
      overlaps `a`..`b`. */
  predicate NoFirmOverlapOnDay(t: Tables, tenantId: Uuid, resourceId: Uuid, startAt: Instant, endAt: Instant,
                               day: int, a: Instant, b: Instant)
  {
    forall x :: x in t.bookings && x.tenantId == tenantId && x.resourceId == resourceId && Blocking(x.status) &&
                x.startAt < endAt && x.endAt > startAt && DayOf(x.startAt) == day ==>
                  !Overlaps(x.startAt, x.endAt, a, b)
  }

  /** Every slot of a range comes from the day it starts on. */
  lemma {:induction false} RangeSlotFromItsDay(first: int, last: int, schedules: seq<WorkSchedule>, bookings: seq<Booking>)
    requires RangeSlots(first, last, schedules, bookings).Ok?
    ensures forall s :: s in RangeSlots(first, last, schedules, bookings).value ==>
              var d := DayOf(s.startAt);
              first <= d <= last &&
              DaySlots(d, SchedulesOn(schedules, d), BookingsOn(bookings, d)).Ok? &&
              s in DaySlots(d, SchedulesOn(schedules, d), BookingsOn(bookings, d)).value
    decreases last - first + 1
  {
    if first <= last {
      RangeSlotFromItsDay(first, last - 1, schedules, bookings);
      var day := DaySlots(last, SchedulesOn(schedules, last), BookingsOn(bookings, last));
      DaySlotsOnDay(last, SchedulesOn(schedules, last), BookingsOn(bookings, last));
      assert RangeSlots(first, last, schedules, bookings).value
             == RangeSlots(first, last - 1, schedules, bookings).value + day.value;
    }
  }

  /** A slot of a day is always available when the day has no schedule, and otherwise
      available exactly when no booking of the day overlaps it. */
  lemma DaySlotAvailability(day: int, ss: seq<WorkSchedule>, bookings: seq<Booking>)
    requires DaySlots(day, ss, bookings).Ok?
    ensures forall s :: s in DaySlots(day, ss, bookings).value ==>
              (ss == [] ==> s.available) && (ss != [] ==> (s.available <==> SlotFree(bookings, s.startAt, s.endAt)))
  {
    if ss != [] {
      WorkingSlotAvailableIffFree(day, ss, bookings);
    }
  }

  /** Being free of the day's queried bookings is being free of the resource's firm
      bookings of that day. */
  lemma SlotFreeOnDay(t: Tables, tenantId: Uuid, resourceId: Uuid, startAt: Instant, endAt: Instant,
                      day: int, a: Instant, b: Instant)
    ensures SlotFree(BookingsOn(QueryBookings(t.bookings, tenantId, resourceId, startAt, endAt), day), a, b)
            <==> NoFirmOverlapOnDay(t, tenantId, resourceId, startAt, endAt, day, a, b)
  {
    var on := BookingsOn(QueryBookings(t.bookings, tenantId, resourceId, startAt, endAt), day);
    if SlotFree(on, a, b) {
      forall x | x in t.bookings && x.tenantId == tenantId && x.resourceId == resourceId && Blocking(x.status) &&
                 x.startAt < endAt && x.endAt > startAt && DayOf(x.startAt) == day
        ensures !Overlaps(x.startAt, x.endAt, a, b)
      {
        assert x in on;
        var k :| 0 <= k < |on| && on[k] == x;
      }
    }
    if NoFirmOverlapOnDay(t, tenantId, resourceId, startAt, endAt, day, a, b) {
      forall k | 0 <= k < |on| ensures !Overlaps(on[k].startAt, on[k].endAt, a, b) {
        assert on[k] in on;
      }
    }
  }

  /** For a resource with a staff profile, a slot on a day the profile's schedules
      cover is available exactly when no firm booking of the resource starting that
      day overlaps it; a slot of an uncovered day is a default slot and always
      available. */
  lemma ProfileSlotAvailability(t: Tables, tenantId: Uuid, resourceId: Uuid, startAt: Instant, endAt: Instant)
    requires FirstProfile(t.staffProfiles, tenantId, resourceId, false).Some?
    requires AvailabilityOf(t, tenantId, resourceId, startAt, endAt).Ok?
    ensures forall s :: s in AvailabilityOf(t, tenantId, resourceId, startAt, endAt).value ==>
              var d := DayOf(s.startAt);
              var covering := SchedulesOn(ProfileSchedules(t, tenantId, resourceId, startAt, endAt), d);
              DayOf(startAt) <= d <= DayOf(endAt) &&
              (covering == [] ==> s.available) &&
              (covering != [] ==> (s.available <==> NoFirmOverlapOnDay(t, tenantId, resourceId, startAt, endAt, d,
                                                                        s.startAt, s.endAt)))
  {
    var schedules := ProfileSchedules(t, tenantId, resourceId, startAt, endAt);
    var bookings := QueryBookings(t.bookings, tenantId, resourceId, startAt, endAt);
    RangeSlotFromItsDay(DayOf(startAt), DayOf(endAt), schedules, bookings);
    forall s | s in AvailabilityOf(t, tenantId, resourceId, startAt, endAt).value
      ensures var d := DayOf(s.startAt);
              var covering := SchedulesOn(schedules, d);
              DayOf(startAt) <= d <= DayOf(endAt) &&
              (covering == [] ==> s.available) &&
              (covering != [] ==> (s.available <==> NoFirmOverlapOnDay(t, tenantId, resourceId, startAt, endAt, d,
                                                                        s.startAt, s.endAt)))
    {
      var d := DayOf(s.startAt);
      DaySlotAvailability(d, SchedulesOn(schedules, d), BookingsOn(bookings, d));
      SlotFreeOnDay(t, tenantId, resourceId, startAt, endAt, d, s.startAt, s.endAt);
    }
  }

  /** `calculate_availability(tenant, resource, start_date, end_date)`. */
  method CalculateAvailability(t: Tables, tenantId: Uuid, resourceId: Uuid, startAt: Instant, endAt: Instant)
    returns (r: Result<seq<Slot>, ServiceError>)
    ensures r == AvailabilityOf(t, tenantId, resourceId, startAt, endAt)
  {
    if !ResourceExists(t.resources, tenantId, resourceId) {
      return Err(ValueError("Resource not found"));
    }
    var staffProfile := FirstProfile(t.staffProfiles, tenantId, resourceId, false);
    if staffProfile.None? {
      var slots := GetDefaultAvailability(startAt, endAt);
      return Ok(slots);
    }
    var schedules := QuerySchedules(t.schedules, tenantId, staffProfile.value.id, DayOf(startAt), DayOf(endAt));
    var bookings := QueryBookings(t.bookings, tenantId, resourceId, startAt, endAt);
    r := GenerateAvailabilitySlots(startAt, endAt, schedules, bookings);
  }
}
