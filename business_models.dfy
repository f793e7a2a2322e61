/** The records the scheduling and booking services read and write (the `Booking`,
    `BookingHold`, `WorkSchedule`, `StaffProfile`, `Service`, `Resource` and `Customer`
    tables), with time as whole seconds since the epoch, UTC. */
module BusinessModels {
  import opened Wrappers
  import opened Validators

  type Instant = int

  const SecondsPerHour: int := 3600
  const SecondsPerDay: int := 86400

  /** `t.date()`, as a day number counted from the epoch. */
  function DayOf(t: Instant): int { t / SecondsPerDay }

  /** `t.hour`. */
  function HourOf(t: Instant): int { (t % SecondsPerDay) / SecondsPerHour }

  /** `datetime.combine(day, time(hour=h))`. */
  function AtHour(day: int, hour: int): Instant { day * SecondsPerDay + hour * SecondsPerHour }

  lemma AtHourInDay(day: int, hour: int)
    requires 0 <= hour < 24
    ensures DayOf(AtHour(day, hour)) == day && HourOf(AtHour(day, hour)) == hour
  {
  }

  datatype BookingStatus = Pending | Confirmed | CheckedIn | Completed | Canceled | NoShow | Failed

  /** The status as the `status` column stores it. */
  function StatusName(s: BookingStatus): string {
    match s
    case Pending => "pending"
    case Confirmed => "confirmed"
    case CheckedIn => "checked_in"
    case Completed => "completed"
    case Canceled => "canceled"
    case NoShow => "no_show"
    case Failed => "failed"
  }

  /** The statuses that occupy a resource for the availability check. */
  predicate Blocking(s: BookingStatus) {
    s == Pending || s == Confirmed || s == CheckedIn
  }

  /** The half-open intervals [aStart, aEnd) and [bStart, bEnd) intersect. */
  predicate Overlaps(aStart: Instant, aEnd: Instant, bStart: Instant, bEnd: Instant) {
    aStart < bEnd && aEnd > bStart
  }

  /** The copy of the service a booking keeps (`service_snapshot`). */
  datatype ServiceSnapshot = ServiceSnapshot(serviceId: Uuid, name: string, durationMin: int,
                                             priceCents: int, category: string)

  datatype Booking = Booking(
    id: Uuid,
    tenantId: Uuid,
    customerId: Uuid,
    resourceId: Uuid,
    clientGeneratedId: string,
    snapshot: ServiceSnapshot,
    startAt: Instant,
    endAt: Instant,
    status: BookingStatus,
    noShowFlag: bool,
    canceledAt: Option<Instant>,
    rescheduledFrom: Option<Uuid>)

  /** The parts of a hold key `"{tenant}_{resource}_{start}_{8 random hex digits}"`. */
  datatype HoldKey = HoldKey(tenantId: Uuid, resourceId: Uuid, startAt: Instant, nonce: string)

  datatype BookingHold = BookingHold(
    tenantId: Uuid,
    resourceId: Uuid,
    serviceId: Uuid,
    startAt: Instant,
    endAt: Instant,
    holdUntil: Instant,
    holdKey: HoldKey)

  /** A hold cache entry is keyed by tenant and hold key. */
  datatype HoldCacheKey = HoldCacheKey(tenantId: Uuid, holdKey: HoldKey)

  /** A work schedule: the days it covers (`end_date` open when None), whether it is time
      off, and its `work_hours` entries, each None when the key is absent. */
  datatype WorkSchedule = WorkSchedule(
    id: Uuid,
    tenantId: Uuid,
    staffProfileId: Uuid,
    startDate: int,
    endDate: Option<int>,
    scheduleType: string,
    isTimeOff: bool,
    startHour: Option<int>,
    endHour: Option<int>)

  /** `schedule.start_date <= day and (schedule.end_date is None or schedule.end_date >= day)`. */
  predicate CoversDay(s: WorkSchedule, day: int) {
    s.startDate <= day && (s.endDate.None? || s.endDate.value >= day)
  }

  /** `work_hours.get('start_hour', 9)` and `work_hours.get('end_hour', 17)`. */
  function StartHour(s: WorkSchedule): int { s.startHour.GetOr(DefaultBusinessStartHour) }
  function EndHour(s: WorkSchedule): int { s.endHour.GetOr(DefaultBusinessEndHour) }

  datatype StaffProfile = StaffProfile(id: Uuid, tenantId: Uuid, resourceId: Uuid, isActive: bool)

  datatype Service = Service(id: Uuid, tenantId: Uuid, name: string, durationMin: int, priceCents: int,
                             category: string, deleted: bool)

  datatype Resource = Resource(id: Uuid, tenantId: Uuid)

  datatype Customer = Customer(id: Uuid, tenantId: Uuid, displayName: string, email: string)

  /** An availability slot as the engine returns it. */
  datatype Slot = Slot(startAt: Instant, endAt: Instant, available: bool, scheduleType: string)

  /** The tables the availability queries read. */
  datatype Tables = Tables(
    bookings: seq<Booking>,
    holds: seq<BookingHold>,
    staffProfiles: seq<StaffProfile>,
    schedules: seq<WorkSchedule>,
    resources: seq<Resource>)
}
