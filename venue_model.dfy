/** The entities of the booking application: venues with their denormalised
    booking slots, bookings, and user accounts, plus the "HH:MM" and
    "YYYY-MM-DD" string formats the ledger parses. */
module Model {
  import opened Seqs

  datatype VenueStatus = Available | Booked | Maintenance
  datatype BookingStatus = Pending | Approved | Rejected | Cancelled
  datatype CapacityType = Small | Medium | Large
  datatype Role = RoleAdmin | RoleUser

  /** A booking is active (it occupies its slot) unless it was cancelled or rejected. */
  predicate Active(s: BookingStatus) {
    s != Cancelled && s != Rejected
  }

  // ---------------------------------------------------------------------
  // Clock and calendar strings

  predicate IsDigit(c: char) {
    '0' <= c <= '9'
  }

  function DigitValue(c: char): (d: nat)
    requires IsDigit(c)
    ensures d <= 9
  {
    c as int - '0' as int
  }

  /** Two decimal digits read as a number, as `Number("07")` reads them. */
  function TwoDigits(a: char, b: char): (n: nat)
    requires IsDigit(a) && IsDigit(b)
    ensures n <= 99
  {
    DigitValue(a) * 10 + DigitValue(b)
  }

  /** A 24-hour "HH:MM" time as an HTML time input produces it. */
  predicate WellFormedTime(t: string) {
    && |t| == 5
    && IsDigit(t[0]) && IsDigit(t[1]) && t[2] == ':' && IsDigit(t[3]) && IsDigit(t[4])
    && TwoDigits(t[0], t[1]) <= 23 && TwoDigits(t[3], t[4]) <= 59
  }

  type HourMinute = t: string | WellFormedTime(t) witness "00:00"

  /** A "YYYY-MM-DD" calendar date as an HTML date input produces it. */
  predicate WellFormedDate(d: string) {
    && |d| == 10
    && IsDigit(d[0]) && IsDigit(d[1]) && IsDigit(d[2]) && IsDigit(d[3]) && d[4] == '-'
    && IsDigit(d[5]) && IsDigit(d[6]) && d[7] == '-' && IsDigit(d[8]) && IsDigit(d[9])
    && 1 <= TwoDigits(d[5], d[6]) <= 12 && 1 <= TwoDigits(d[8], d[9]) <= 31
  }

  type CalendarDate = d: string | WellFormedDate(d) witness "2000-01-01"

  /** `time.split(':').map(Number)` followed by `hours * 60 + minutes`:
      the minutes since midnight, always within one day. */
  function Minutes(t: HourMinute): (m: nat)
    ensures m < 24 * 60
    ensures m / 60 == TwoDigits(t[0], t[1]) && m % 60 == TwoDigits(t[3], t[4])
  {
    TwoDigits(t[0], t[1]) * 60 + TwoDigits(t[3], t[4])
  }

  /** Distinct well-formed times denote distinct minutes: comparing parsed
      minutes and comparing the strings agree. */
  lemma MinutesInjective(a: HourMinute, b: HourMinute)
    requires Minutes(a) == Minutes(b)
    ensures a == b
  {
    assert TwoDigits(a[0], a[1]) == TwoDigits(b[0], b[1]);
    assert TwoDigits(a[3], a[4]) == TwoDigits(b[3], b[4]);
    assert a[0] == b[0] && a[1] == b[1] && a[3] == b[3] && a[4] == b[4];
    assert a == [a[0], a[1], a[2], a[3], a[4]];
    assert b == [b[0], b[1], b[2], b[3], b[4]];
  }

  /** The year, month and day written in a calendar date. */
  function Year(d: CalendarDate): nat {
    DigitValue(d[0]) * 1000 + DigitValue(d[1]) * 100 + DigitValue(d[2]) * 10 + DigitValue(d[3])
  }

  function Month(d: CalendarDate): (m: nat)
    ensures 1 <= m <= 12
  {
    TwoDigits(d[5], d[6])
  }

  function Day(d: CalendarDate): (n: nat)
    ensures 1 <= n <= 31
  {
    TwoDigits(d[8], d[9])
  }

  /** A key for a calendar date with 31 slots per month and 12 months per year. */
  function DayKey(d: CalendarDate): nat
  {
    Year(d) * 372 + (Month(d) - 1) * 31 + (Day(d) - 1)
  }

  /** Date keys follow the calendar: they order dates by year, then month, then
      day, and equal keys mean the same year, month and day. */
  lemma DayKeyOrder(d1: CalendarDate, d2: CalendarDate)
    ensures Year(d1) < Year(d2) ==> DayKey(d1) < DayKey(d2)
    ensures Year(d1) == Year(d2) && Month(d1) < Month(d2) ==> DayKey(d1) < DayKey(d2)
    ensures Year(d1) == Year(d2) && Month(d1) == Month(d2) && Day(d1) < Day(d2) ==> DayKey(d1) < DayKey(d2)
    ensures DayKey(d1) == DayKey(d2) ==> Year(d1) == Year(d2) && Month(d1) == Month(d2) && Day(d1) == Day(d2)
  {
    YearDominates(d1, d2);
    YearDominates(d2, d1);
  }

  /** The year outweighs month and day in the key. */
  lemma YearDominates(d1: CalendarDate, d2: CalendarDate)
    ensures Year(d1) < Year(d2) ==> DayKey(d1) < DayKey(d2)
  {
    if Year(d1) < Year(d2) {
      assert (Month(d1) - 1) * 31 + (Day(d1) - 1) < 372;
      assert Year(d1) * 372 + 372 <= Year(d2) * 372;
    }
  }

  /** The local instant `new Date(date + "T" + time)`, on the abstract millisecond
      scale that the clock (`now`) is also given in. */
  function EventInstant(date: CalendarDate, time: HourMinute): (t: int)
    ensures t >= 0
  {
    InstantArithmetic(DayKey(date), Minutes(time), DayKey(date), Minutes(time));
    (DayKey(date) * (24 * 60) + Minutes(time)) * 60000
  }

  /** Instants follow the calendar: a later day is later whatever the times,
      and on one day the instant follows the time of day. */
  lemma EventInstantOrder(d1: CalendarDate, t1: HourMinute, d2: CalendarDate, t2: HourMinute)
    ensures DayKey(d1) < DayKey(d2) ==> EventInstant(d1, t1) < EventInstant(d2, t2)
    ensures d1 == d2 ==> (EventInstant(d1, t1) < EventInstant(d2, t2) <==> Minutes(t1) < Minutes(t2))
  {
    InstantArithmetic(DayKey(d1), Minutes(t1), DayKey(d2), Minutes(t2));
  }

  /** The arithmetic behind `EventInstant` and `EventInstantOrder`: instants of
      non-negative days are non-negative, and a minute of the day never outweighs
      a whole day. */
  lemma InstantArithmetic(k1: int, m1: int, k2: int, m2: int)
    requires 0 <= m1 < 24 * 60 && 0 <= m2 < 24 * 60
    ensures 0 <= k1 ==> 0 <= (k1 * (24 * 60) + m1) * 60000
    ensures k1 < k2 ==> (k1 * (24 * 60) + m1) * 60000 < (k2 * (24 * 60) + m2) * 60000
    ensures k1 == k2 ==> ((k1 * (24 * 60) + m1) * 60000 < (k2 * (24 * 60) + m2) * 60000 <==> m1 < m2)
  {
    if k1 < k2 {
      assert k1 * 1440 + m1 < (k1 + 1) * 1440 <= k2 * 1440;
    }
  }

  /** An instant determines its date key and its time: two events at the same
      instant fall on the same year, month and day, at the same "HH:MM". */
  lemma EventInstantInjective(d1: CalendarDate, t1: HourMinute, d2: CalendarDate, t2: HourMinute)
    requires EventInstant(d1, t1) == EventInstant(d2, t2)
    ensures DayKey(d1) == DayKey(d2) && t1 == t2
    ensures Year(d1) == Year(d2) && Month(d1) == Month(d2) && Day(d1) == Day(d2)
  {
    EventInstantOrder(d1, t1, d2, t2);
    EventInstantOrder(d2, t2, d1, t1);
    assert DayKey(d1) == DayKey(d2);
    assert Minutes(t1) == Minutes(t2);
    MinutesInjective(t1, t2);
    DayKeyOrder(d1, d2);
  }

  // ---------------------------------------------------------------------
  // Entities

  /** A denormalised summary of a booking, kept on its venue. */
  datatype VenueBookingSlot = VenueBookingSlot(date: string, time: string, duration: int, status: BookingStatus)

  datatype Venue = Venue(
    id: string,
    name: string,
    location: string,
    capacity: int,
    capacityType: CapacityType,
    imageUrl: string,
    status: VenueStatus,
    description: string,
    bookings: seq<VenueBookingSlot>)
  {
    /** The venue seen as the partial record the validator accepts. */
    function Draft(): (d: VenueDraft)
      ensures d.capacityType == Some(capacityType)
      ensures d.name == name && d.capacity == capacity && d.status == status
    {
      VenueDraft(name, location, capacity, Some(capacityType), imageUrl, status, description)
    }
  }

  /** The partial venue record the admin form submits; a missing capacity class is `None`. */
  datatype VenueDraft = VenueDraft(
    name: string,
    location: string,
    capacity: int,
    capacityType: Option<CapacityType>,
    imageUrl: string,
    status: VenueStatus,
    description: string)

  datatype Booking = Booking(
    id: string,
    venueId: string,
    userId: string,
    eventName: string,
    date: CalendarDate,
    time: HourMinute,
    duration: int,
    status: BookingStatus,
    qrCode: string,
    createdAt: string)

  /** The partial booking record the booking form submits; an absent field is empty or zero. */
  datatype BookingDraft = BookingDraft(
    venueId: string,
    userId: string,
    eventName: string,
    date: string,
    time: string,
    duration: int,
    qrCode: string)

  /** A user account; the password is an opaque value compared only for equality. */
  datatype User = User(id: string, email: string, password: string, role: Role, name: string)

  /** The fields a registration supplies: everything but the id. */
  datatype UserDraft = UserDraft(email: string, password: string, role: Role, name: string)
}
