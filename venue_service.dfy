/** The venue/booking ledger (`VenueService`): two in-memory lists, the pure
    queries over them (lookup, availability, the validators) and a class whose
    methods update the lists in place the way the service does. */
module Venues {
  import opened Seqs
  import opened Model

  /** What a mutating call did. `ValidationError`, `Conflict` and `PastEvent` stand for the
      service's error dialogs; `NotFound` labels an unknown id, which the service passes
      over silently. */
  datatype Outcome = Done | ValidationError | NotFound | Conflict | PastEvent

  // ---------------------------------------------------------------------
  // Lookups

  /** The position of the first venue carrying the id, if any. */
  function FindVenueIndex(venues: seq<Venue>, id: string): (r: Option<nat>)
    ensures r.Some? ==> r.value < |venues| && venues[r.value].id == id
    ensures r.Some? ==> forall j :: 0 <= j < r.value ==> venues[j].id != id
    ensures r.None? <==> forall j :: 0 <= j < |venues| ==> venues[j].id != id
  {
    FindIndex(venues, (v: Venue) => v.id == id)
  }

  /** `getVenueById`: the first venue with that id, if any. */
  function GetVenueById(venues: seq<Venue>, id: string): (r: Option<Venue>)
    ensures r.Some? <==> exists i :: 0 <= i < |venues| && venues[i].id == id
    ensures r.Some? ==> exists i :: 0 <= i < |venues| && venues[i] == r.value && venues[i].id == id
                                    && forall j :: 0 <= j < i ==> venues[j].id != id
  {
    match FindVenueIndex(venues, id)
    case None => None
    case Some(i) => Some(venues[i])
  }

  /** The position of the first booking carrying the id, if any. */
  function FindBookingIndex(bookings: seq<Booking>, id: string): (r: Option<nat>)
    ensures r.Some? ==> r.value < |bookings| && bookings[r.value].id == id
    ensures r.Some? ==> forall j :: 0 <= j < r.value ==> bookings[j].id != id
    ensures r.None? <==> forall j :: 0 <= j < |bookings| ==> bookings[j].id != id
  {
    FindIndex(bookings, (b: Booking) => b.id == id)
  }

  /** `getBookingById`: the first booking with that id, if any. */
  function GetBookingById(bookings: seq<Booking>, id: string): (r: Option<Booking>)
    ensures r.Some? <==> exists i :: 0 <= i < |bookings| && bookings[i].id == id
    ensures r.Some? ==> exists i :: 0 <= i < |bookings| && bookings[i] == r.value && bookings[i].id == id
                                    && forall j :: 0 <= j < i ==> bookings[j].id != id
  {
    match FindBookingIndex(bookings, id)
    case None => None
    case Some(i) => Some(bookings[i])
  }

  /** `getBookingsByVenueId`: exactly the bookings of that venue, in ledger order. */
  function GetBookingsByVenueId(bookings: seq<Booking>, venueId: string): (r: seq<Booking>)
    ensures |r| <= |bookings|
    ensures forall i :: 0 <= i < |r| ==> r[i] in bookings && r[i].venueId == venueId
    ensures forall i :: 0 <= i < |bookings| && bookings[i].venueId == venueId ==> bookings[i] in r
  {
    Filter(bookings, (b: Booking) => b.venueId == venueId)
  }

  /** `getBookingsByUserId`: exactly the bookings of that user, in ledger order. */
  function GetBookingsByUserId(bookings: seq<Booking>, userId: string): (r: seq<Booking>)
    ensures |r| <= |bookings|
    ensures forall i :: 0 <= i < |r| ==> r[i] in bookings && r[i].userId == userId
    ensures forall i :: 0 <= i < |bookings| && bookings[i].userId == userId ==> bookings[i] in r
  {
    Filter(bookings, (b: Booking) => b.userId == userId)
  }

  /** The bookings of a venue grow with the ledger one booking at a time, in
      order: a booking appended to the ledger is appended to the result exactly
      when it belongs to the venue. */
  lemma GetBookingsByVenueIdAppend(bookings: seq<Booking>, b: Booking, venueId: string)
    ensures GetBookingsByVenueId(bookings + [b], venueId) ==
              GetBookingsByVenueId(bookings, venueId) + (if b.venueId == venueId then [b] else [])
  {
    FilterConcat(bookings, [b], (x: Booking) => x.venueId == venueId);
    FilterSingleton(b, (x: Booking) => x.venueId == venueId);
  }

  /** The same for the bookings of a user. */
  lemma GetBookingsByUserIdAppend(bookings: seq<Booking>, b: Booking, userId: string)
    ensures GetBookingsByUserId(bookings + [b], userId) ==
              GetBookingsByUserId(bookings, userId) + (if b.userId == userId then [b] else [])
  {
    FilterConcat(bookings, [b], (x: Booking) => x.userId == userId);
    FilterSingleton(b, (x: Booking) => x.userId == userId);
  }

  /** With unique ids, looking a venue up by its own id finds that venue. */
  lemma UniqueVenueLookup(venues: seq<Venue>, i: nat)
    requires UniqueVenueIds(venues) && i < |venues|
    ensures FindVenueIndex(venues, venues[i].id) == Some(i)
    ensures GetVenueById(venues, venues[i].id) == Some(venues[i])
  {
    assert forall j :: 0 <= j < i ==> venues[j].id != venues[i].id;
  }

  /** With unique ids, looking a booking up by its own id finds that booking. */
  lemma UniqueBookingLookup(bookings: seq<Booking>, i: nat)
    requires UniqueBookingIds(bookings) && i < |bookings|
    ensures FindBookingIndex(bookings, bookings[i].id) == Some(i)
    ensures GetBookingById(bookings, bookings[i].id) == Some(bookings[i])
  {
    assert forall j :: 0 <= j < i ==> bookings[j].id != bookings[i].id;
  }

  // ---------------------------------------------------------------------
  // Validation

  /** `validateVenueData`: every required field is truthy (non-empty, capacity non-zero).
      Status is not among them. */
  predicate ValidateVenueData(d: VenueDraft)
    ensures ValidateVenueData(d) ==> d.capacityType.Some? && d.capacity != 0
    ensures d.name == "" || d.location == "" || d.imageUrl == "" || d.description == "" ==>
              !ValidateVenueData(d)
  {
    d.name != "" && d.location != "" && d.capacity != 0 && d.capacityType.Some?
    && d.imageUrl != "" && d.description != ""
  }

  /** Status is not a required field, so the `updateVenue` call that follows a
      status change in `updateBookingStatus` passes re-validation exactly when the
      venue did before the change. */
  lemma StatusChangeKeepsVenueValidity(v: Venue, status: VenueStatus)
    ensures ValidateVenueData(v.(status := status).Draft()) <==> ValidateVenueData(v.Draft())
  {
  }

  /** `validateBookingData`: every required field is truthy (non-empty, duration non-zero).
      The QR code is not among them. */
  predicate ValidateBookingData(d: BookingDraft)
    ensures ValidateBookingData(d) ==> d.date != "" && d.time != "" && d.duration != 0
    ensures d.eventName == "" || d.venueId == "" || d.userId == "" ==> !ValidateBookingData(d)
  {
    d.eventName != "" && d.date != "" && d.time != "" && d.duration != 0
    && d.venueId != "" && d.userId != ""
  }

  // ---------------------------------------------------------------------
  // Time slots

  /** First minute of the booking's half-open interval. */
  function Start(b: Booking): nat {
    Minutes(b.time)
  }

  /** End (exclusive) of the booking's half-open interval. */
  function End(b: Booking): int {
    Start(b) + b.duration * 60
  }

  /** Whether existing booking `b` blocks the requested interval `[start, end)`
      on `venueId` and `date`: the filter inside `checkAvailability`. */
  predicate Blocks(b: Booking, venueId: string, date: string, start: int, end: int) {
    b.venueId == venueId && b.date == date && Active(b.status)
    && start < End(b) && end > Start(b)
  }

  /** `checkAvailability`: the venue exists and no active booking of that venue
      on that date overlaps `[time, time + duration hours)`. */
  function CheckAvailability(venues: seq<Venue>, bookings: seq<Booking>, venueId: string,
                             date: string, time: HourMinute, duration: int): (r: bool)
    ensures r <==>
      && GetVenueById(venues, venueId).Some?
      && forall i :: 0 <= i < |bookings| ==>
           !Blocks(bookings[i], venueId, date, Minutes(time), Minutes(time) + duration * 60)
  {
    if GetVenueById(venues, venueId).None? then false
    else
      var start := Minutes(time);
      var end := start + duration * 60;
      var conflicting := Filter(bookings, (b: Booking) => Blocks(b, venueId, date, start, end));
      assert conflicting != [] ==> conflicting[0] in conflicting;
      |conflicting| == 0
  }

  /** `isVenueAvailable`: no active booking of that venue and date starts at exactly `time`. */
  function IsVenueAvailable(bookings: seq<Booking>, venueId: string, date: string, time: string): (r: bool)
    ensures r <==> forall i :: 0 <= i < |bookings| ==>
      !(bookings[i].venueId == venueId && bookings[i].date == date && bookings[i].time == time
        && Active(bookings[i].status))
  {
    FindIndex(bookings, (b: Booking) => b.venueId == venueId && b.date == date && b.time == time
                                        && Active(b.status)).None?
  }

  /** The exact-start check is strictly weaker than the interval check: with
      positive durations, a slot `checkAvailability` accepts also passes
      `isVenueAvailable`. */
  lemma CheckAvailabilityImpliesExactSlotFree(venues: seq<Venue>, bookings: seq<Booking>, venueId: string,
                                              date: string, time: HourMinute, duration: int)
    requires duration > 0
    requires forall i :: 0 <= i < |bookings| ==> bookings[i].duration > 0
    requires CheckAvailability(venues, bookings, venueId, date, time, duration)
    ensures IsVenueAvailable(bookings, venueId, date, time)
  {
    forall i | 0 <= i < |bookings| {
      ExactStartBlocks(bookings[i], venueId, date, time, duration);
    }
  }

  /** A booking that starts at exactly the requested time, with both durations
      positive, blocks the requested interval. */
  lemma ExactStartBlocks(b: Booking, venueId: string, date: string, time: HourMinute, duration: int)
    requires duration > 0 && b.duration > 0
    ensures b.venueId == venueId && b.date == date && b.time == time && Active(b.status) ==>
              Blocks(b, venueId, date, Minutes(time), Minutes(time) + duration * 60)
  {
  }

  /** ... and the converse fails: a booking that starts inside another one passes
      the exact-start check but is refused by the interval check. */
  lemma ExactSlotCheckMissesOverlap()
    ensures
      var venues := [Venue("v", "Hall", "Town", 50, Small, "img", Available, "desc", [])];
      var first := Booking("b1", "v", "u", "Gala", "2025-06-01", "10:00", 2, Pending, "", "");
      IsVenueAvailable([first], "v", "2025-06-01", "11:00")
      && !CheckAvailability(venues, [first], "v", "2025-06-01", "11:00", 1)
  {
    var venues := [Venue("v", "Hall", "Town", 50, Small, "img", Available, "desc", [])];
    var first := Booking("b1", "v", "u", "Gala", "2025-06-01", "10:00", 2, Pending, "", "");
    assert Minutes("10:00") == 600 && Minutes("11:00") == 660;
    assert Blocks(first, "v", "2025-06-01", 660, 720);
    assert GetVenueById(venues, "v").Some?;
  }

  /** Intervals are half-open: against an active 10:00 booking of two hours, a
      12:00 booking of one hour is free while an 11:00 one conflicts. */
  lemma HalfOpenIntervals()
    ensures
      var venues := [Venue("v", "Hall", "Town", 50, Small, "img", Available, "desc", [])];
      var first := Booking("b1", "v", "u", "Gala", "2025-06-01", "10:00", 2, Pending, "", "");
      && CheckAvailability(venues, [first], "v", "2025-06-01", "12:00", 1)
      && !CheckAvailability(venues, [first], "v", "2025-06-01", "11:00", 1)
  {
    var venues := [Venue("v", "Hall", "Town", 50, Small, "img", Available, "desc", [])];
    var first := Booking("b1", "v", "u", "Gala", "2025-06-01", "10:00", 2, Pending, "", "");
    assert Minutes("10:00") == 600 && Minutes("11:00") == 660 && Minutes("12:00") == 720;
    assert GetVenueById(venues, "v").Some?;
    assert Blocks(first, "v", "2025-06-01", 660, 720);
  }

  // ---------------------------------------------------------------------
  // The scheduling invariant

  /** Two bookings that both occupy the same venue on the same date at overlapping times. */
  predicate Clash(a: Booking, b: Booking) {
    a.venueId == b.venueId && a.date == b.date && Active(a.status) && Active(b.status)
    && Start(a) < End(b) && End(a) > Start(b)
  }

  /** For every (venue, date), the active bookings have pairwise disjoint intervals. */
  ghost predicate NoOverlap(bookings: seq<Booking>) {
    forall i, j :: 0 <= i < |bookings| && 0 <= j < |bookings| && i != j ==> !Clash(bookings[i], bookings[j])
  }

  /** Appending an active booking whose slot `checkAvailability` accepted keeps the
      ledger free of overlaps. */
  lemma {:induction false} AvailableSlotKeepsNoOverlap(venues: seq<Venue>, bookings: seq<Booking>, nb: Booking)
    requires NoOverlap(bookings)
    requires CheckAvailability(venues, bookings, nb.venueId, nb.date, nb.time, nb.duration)
    ensures NoOverlap(bookings + [nb])
  {
    var all := bookings + [nb];
    forall i, j | 0 <= i < |all| && 0 <= j < |all| && i != j
      ensures !Clash(all[i], all[j])
    {
      if i == |bookings| {
        assert !Blocks(bookings[j], nb.venueId, nb.date, Start(nb), End(nb));
      } else if j == |bookings| {
        assert !Blocks(bookings[i], nb.venueId, nb.date, Start(nb), End(nb));
      } else {
        assert all[i] == bookings[i] && all[j] == bookings[j];
      }
    }
  }

  /** `updateBookingStatus` neither re-checks overlap nor refuses a terminal
      booking, so approving a rejected booking can break the invariant. */
  lemma ReapprovalCanBreakNoOverlap()
    ensures
      var kept := Booking("b2", "v", "u", "Talk", "2025-06-01", "11:00", 1, Approved, "", "");
      var rejected := Booking("b1", "v", "u", "Gala", "2025-06-01", "10:00", 2, Rejected, "", "");
      && NoOverlap([rejected, kept])
      && !NoOverlap([rejected.(status := Approved), kept])
  {
    var kept := Booking("b2", "v", "u", "Talk", "2025-06-01", "11:00", 1, Approved, "", "");
    var rejected := Booking("b1", "v", "u", "Gala", "2025-06-01", "10:00", 2, Rejected, "", "");
    assert Minutes("10:00") == 600 && Minutes("11:00") == 660;
    assert Clash([rejected.(status := Approved), kept][0], [rejected.(status := Approved), kept][1]);
  }

  // ---------------------------------------------------------------------
  // The past-event guard

  /** `isBookingPast`: the booking's local date and time lie before `now`. No
      booking is past at or before the start of the clock's scale. */
  predicate IsBookingPast(b: Booking, now: int)
    ensures now <= 0 ==> !IsBookingPast(b, now)
  {
    EventInstant(b.date, b.time) < now
  }

  /** A booking that is past stays past as the clock moves on. */
  lemma PastStaysPast(b: Booking, now: int, later: int)
    requires IsBookingPast(b, now) && now <= later
    ensures IsBookingPast(b, later)
  {
  }

  /** Once a booking is past, every booking scheduled no later than it (an
      earlier day, or the same day at no later a time) is past too. */
  lemma PastFollowsCalendar(a: Booking, b: Booking, now: int)
    requires IsBookingPast(b, now)
    requires DayKey(a.date) < DayKey(b.date) || (a.date == b.date && Minutes(a.time) <= Minutes(b.time))
    ensures IsBookingPast(a, now)
  {
    EventInstantOrder(a.date, a.time, b.date, b.time);
  }

  // ---------------------------------------------------------------------
  // Venue records

  /** The venue after `markVenueAsBooked` recorded a slot on it. */
  function WithPendingSlot(v: Venue, date: string, time: string, duration: int): (r: Venue)
    ensures |r.bookings| == |v.bookings| + 1 && r.bookings[..|v.bookings|] == v.bookings
    ensures r.bookings[|v.bookings|] == VenueBookingSlot(date, time, duration, Pending)
    ensures v.status == Available ==> r.status == Booked
    ensures v.status != Available ==> r.status == v.status
    ensures r.(bookings := v.bookings, status := v.status) == v
  {
    v.(bookings := v.bookings + [VenueBookingSlot(date, time, duration, Pending)],
       status := if v.status == Available then Booked else v.status)
  }

  /** Whether some booking other than `bookingId` keeps the venue approved. */
  function HasOtherApprovedBookings(bookings: seq<Booking>, venueId: string, bookingId: string): (r: bool)
    ensures r <==> exists j :: 0 <= j < |bookings| && bookings[j].venueId == venueId
                               && bookings[j].status == Approved && bookings[j].id != bookingId
  {
    FindIndex(bookings, (b: Booking) => b.venueId == venueId && b.status == Approved && b.id != bookingId).Some?
  }

  predicate UniqueVenueIds(venues: seq<Venue>) {
    forall i, j :: 0 <= i < j < |venues| ==> venues[i].id != venues[j].id
  }

  predicate UniqueBookingIds(bookings: seq<Booking>) {
    forall i, j :: 0 <= i < j < |bookings| ==> bookings[i].id != bookings[j].id
  }

  /** The booking `addBooking` stores for a validated draft. */
  function NewBooking(d: BookingDraft, id: string, createdAt: string): (b: Booking)
    requires WellFormedDate(d.date) && WellFormedTime(d.time)
    ensures b.status == Pending && b.id == id && b.createdAt == createdAt
    ensures b.venueId == d.venueId && b.userId == d.userId && b.eventName == d.eventName
    ensures b.date == d.date && b.time == d.time && b.duration == d.duration && b.qrCode == d.qrCode
  {
    Booking(id, d.venueId, d.userId, d.eventName, d.date, d.time, d.duration, Pending, d.qrCode, createdAt)
  }

  const BallroomImage: string :=
    "https://images.unsplash.com/photo-1519167758481-83f550bb49b3?ixlib=rb-1.2.1&auto=format&fit=crop&w=1350&q=80"
  const TerraceImage: string :=
    "https://images.unsplash.com/photo-1464366400600-7168b8af9bc3?ixlib=rb-1.2.1&auto=format&fit=crop&w=1350&q=80"
  const ConferenceImage: string :=
    "https://images.unsplash.com/photo-1517457373958-b7bdd4587205?ixlib=rb-1.2.1&auto=format&fit=crop&w=1350&q=80"
  const BallroomDescription: string := "Luxurious ballroom perfect for weddings and large corporate events."
  const TerraceDescription: string := "Beautiful outdoor venue surrounded by nature."
  const ConferenceDescription: string := "Modern meeting space equipped with latest technology."

  /** The three venues seeded when storage holds none: ids "1" to "3", all
      Available, none with booking slots. */
  function SampleVenues(): (r: seq<Venue>)
    ensures |r| == 3 && UniqueVenueIds(r)
    ensures forall i :: 0 <= i < |r| ==> r[i].status == Available && r[i].bookings == []
  {
    [ Venue("1", "Grand Ballroom", "Downtown City Center", 500, Large, BallroomImage,
            Available, BallroomDescription, []),
      Venue("2", "Garden Terrace", "Botanical Gardens", 150, Medium, TerraceImage,
            Available, TerraceDescription, []),
      Venue("3", "Conference Center", "Business District", 50, Small, ConferenceImage,
            Available, ConferenceDescription, []) ]
  }

  // ---------------------------------------------------------------------
  // The service

  class VenueService {
    var venues: seq<Venue>
    var bookings: seq<Booking>

    /** Ids are unique in both lists (fresh ids come from the caller), so that a
        lookup by id finds the one entry with that id (`UniqueVenueLookup`,
        `UniqueBookingLookup`) and the first-match lookups of the service act on it. */
    ghost predicate Valid()
      reads this
    {
      UniqueVenueIds(venues) && UniqueBookingIds(bookings)
    }

    /** `loadInitialData`: take the stored lists, seeding the sample venues and
        an empty booking list where storage holds nothing. */
    constructor (storedVenues: Option<seq<Venue>>, storedBookings: Option<seq<Booking>>)
      requires storedVenues.Some? ==> UniqueVenueIds(storedVenues.value)
      requires storedBookings.Some? ==> UniqueBookingIds(storedBookings.value)
      ensures Valid()
      ensures venues == if storedVenues.Some? then storedVenues.value else SampleVenues()
      ensures bookings == if storedBookings.Some? then storedBookings.value else []
    {
      venues := if storedVenues.Some? then storedVenues.value else SampleVenues();
      bookings := if storedBookings.Some? then storedBookings.value else [];
    }

    /** `addVenue`: append the draft as a venue with a fresh id and no slots;
        the draft's status is copied as given. */
    method AddVenue(draft: VenueDraft, freshId: string) returns (outcome: Outcome)
      requires Valid()
      requires forall i :: 0 <= i < |venues| ==> venues[i].id != freshId
      modifies this
      ensures Valid() && bookings == old(bookings)
      ensures outcome == (if ValidateVenueData(draft) then Done else ValidationError)
      ensures outcome == Done ==> venues == old(venues) + [
        Venue(freshId, draft.name, draft.location, draft.capacity, draft.capacityType.value,
              draft.imageUrl, draft.status, draft.description, [])]
      ensures outcome != Done ==> venues == old(venues)
    {
      if !ValidateVenueData(draft) {
        return ValidationError;
      }
      var newVenue := Venue(freshId, draft.name, draft.location, draft.capacity, draft.capacityType.value,
                            draft.imageUrl, draft.status, draft.description, []);
      venues := venues + [newVenue];
      outcome := Done;
    }

    /** `updateVenue`: replace the first venue with the same id. For an unknown id
        the service does nothing and shows nothing; the model names that case
        `NotFound`. */
    method UpdateVenue(venue: Venue) returns (outcome: Outcome)
      requires Valid()
      modifies this
      ensures Valid() && bookings == old(bookings)
      ensures outcome == ValidationError <==> !ValidateVenueData(venue.Draft())
      ensures outcome == NotFound <==>
                ValidateVenueData(venue.Draft()) && FindVenueIndex(old(venues), venue.id).None?
      ensures outcome == Done || outcome == ValidationError || outcome == NotFound
      ensures outcome != Done ==> venues == old(venues)
      ensures outcome == Done ==> venues == old(venues)[FindVenueIndex(old(venues), venue.id).value := venue]
    {
      if !ValidateVenueData(venue.Draft()) {
        return ValidationError;
      }
      var index := FindVenueIndex(venues, venue.id);
      if index.None? {
        return NotFound;
      }
      venues := venues[index.value := venue];
      outcome := Done;
    }

    /** `renameVenue`: set the name of the first venue with that id; any name is accepted. */
    method RenameVenue(id: string, newName: string) returns (found: bool)
      requires Valid()
      modifies this
      ensures Valid() && bookings == old(bookings)
      ensures found <==> FindVenueIndex(old(venues), id).Some?
      ensures !found ==> venues == old(venues)
      ensures found ==>
        var i := FindVenueIndex(old(venues), id).value;
        venues == old(venues)[i := old(venues)[i].(name := newName)]
    {
      var index := FindVenueIndex(venues, id);
      found := index.Some?;
      if found {
        var i := index.value;
        venues := venues[i := venues[i].(name := newName)];
      }
    }

    /** `deleteVenue` (after confirmation): keep exactly the venues with another
        id, in order; bookings of the deleted venue stay. */
    method DeleteVenue(id: string)
      requires Valid()
      modifies this
      ensures Valid() && bookings == old(bookings)
      ensures venues == Filter(old(venues), (v: Venue) => v.id != id)
      ensures forall i :: 0 <= i < |venues| ==> venues[i].id != id && venues[i] in old(venues)
      ensures forall i :: 0 <= i < |old(venues)| && old(venues)[i].id != id ==> old(venues)[i] in venues
    {
      venues := Filter(venues, (v: Venue) => v.id != id);
      DeletePreservesUniqueIds(old(venues), id);
    }

    /** `updateVenueStatus`: override the status of the first venue with `venue`'s id. */
    method UpdateVenueStatus(venue: Venue, status: VenueStatus)
      requires Valid()
      requires status != Maintenance
      modifies this
      ensures Valid() && bookings == old(bookings)
      ensures FindVenueIndex(old(venues), venue.id).None? ==> venues == old(venues)
      ensures FindVenueIndex(old(venues), venue.id).Some? ==>
        var i := FindVenueIndex(old(venues), venue.id).value;
        venues == old(venues)[i := old(venues)[i].(status := status)]
    {
      var index := FindVenueIndex(venues, venue.id);
      if index.Some? {
        var i := index.value;
        venues := venues[i := venues[i].(status := status)];
      }
    }

    /** `markVenueAsBooked`: record a pending slot on the venue and turn an
        Available venue into a Booked one. */
    method MarkVenueAsBooked(venueId: string, date: string, time: string, duration: int)
      requires Valid()
      modifies this
      ensures Valid() && bookings == old(bookings)
      ensures FindVenueIndex(old(venues), venueId).None? ==> venues == old(venues)
      ensures FindVenueIndex(old(venues), venueId).Some? ==>
        var i := FindVenueIndex(old(venues), venueId).value;
        venues == old(venues)[i := WithPendingSlot(old(venues)[i], date, time, duration)]
    {
      var index := FindVenueIndex(venues, venueId);
      if index.Some? {
        var i := index.value;
        venues := venues[i := WithPendingSlot(venues[i], date, time, duration)];
      }
    }

    /** `addBooking`: validate, check the slot, append a Pending booking with a
        fresh id and record the slot on its venue. */
    method AddBooking(draft: BookingDraft, freshId: string, createdAt: string) returns (outcome: Outcome)
      requires Valid()
      requires draft.date == "" || WellFormedDate(draft.date)
      requires draft.time == "" || WellFormedTime(draft.time)
      requires forall i :: 0 <= i < |bookings| ==> bookings[i].id != freshId
      modifies this
      ensures Valid()
      ensures outcome == ValidationError <==> !ValidateBookingData(draft)
      ensures outcome == Conflict <==>
                ValidateBookingData(draft)
                && !CheckAvailability(old(venues), old(bookings), draft.venueId, draft.date, draft.time, draft.duration)
      ensures outcome == Done || outcome == ValidationError || outcome == Conflict
      ensures outcome != Done ==> venues == old(venues) && bookings == old(bookings)
      ensures outcome == Done ==> bookings == old(bookings) + [NewBooking(draft, freshId, createdAt)]
      ensures outcome == Done ==>
        && FindVenueIndex(old(venues), draft.venueId).Some?
        && var i := FindVenueIndex(old(venues), draft.venueId).value;
           venues == old(venues)[i := WithPendingSlot(old(venues)[i], draft.date, draft.time, draft.duration)]
      ensures NoOverlap(old(bookings)) ==> NoOverlap(bookings)
    {
      if !ValidateBookingData(draft) {
        return ValidationError;
      }
      if !CheckAvailability(venues, bookings, draft.venueId, draft.date, draft.time, draft.duration) {
        return Conflict;
      }
      var newBooking := NewBooking(draft, freshId, createdAt);
      if NoOverlap(bookings) {
        AvailableSlotKeepsNoOverlap(venues, bookings, newBooking);
      }
      bookings := bookings + [newBooking];
      MarkVenueAsBooked(newBooking.venueId, newBooking.date, newBooking.time, newBooking.duration);
      outcome := Done;
    }

    /** `updateBookingStatus`: unless the booking is unknown or already past, set
        its status, then recompute its venue's status. There is no guard against
        leaving a terminal status and no overlap re-check. */
    method UpdateBookingStatus(bookingId: string, status: BookingStatus, now: int) returns (outcome: Outcome)
      requires Valid()
      requires status != Pending
      modifies this
      ensures Valid()
      ensures outcome == NotFound <==> FindBookingIndex(old(bookings), bookingId).None?
      ensures outcome == PastEvent <==>
                && FindBookingIndex(old(bookings), bookingId).Some?
                && IsBookingPast(old(bookings)[FindBookingIndex(old(bookings), bookingId).value], now)
      ensures outcome == Done || outcome == NotFound || outcome == PastEvent
      ensures outcome != Done ==> venues == old(venues) && bookings == old(bookings)
      ensures outcome == Done ==>
        var i := FindBookingIndex(old(bookings), bookingId).value;
        && bookings == old(bookings)[i := old(bookings)[i].(status := status)]
        && VenueStatusRecomputed(old(venues), venues, bookings, old(bookings)[i].venueId, bookingId, status)
    {
      var index := FindBookingIndex(bookings, bookingId);
      if index.None? {
        return NotFound;
      }
      var i := index.value;
      if IsBookingPast(bookings[i], now) {
        return PastEvent;
      }
      SameBookingIds(bookings, bookings[i := bookings[i].(status := status)]);
      bookings := bookings[i := bookings[i].(status := status)];
      RecomputeVenueStatus(bookings[i].venueId, bookingId, status);
      outcome := Done;
    }

    /** The second half of `updateBookingStatus`: the venue of the booking just
        moved to `status` becomes Booked on approval, and Available on rejection
        or cancellation when no other booking of it is approved. */
    method RecomputeVenueStatus(venueId: string, bookingId: string, status: BookingStatus)
      requires Valid()
      requires status != Pending
      modifies this`venues
      ensures Valid()
      ensures VenueStatusRecomputed(old(venues), venues, bookings, venueId, bookingId, status)
    {
      var venueIndex := FindVenueIndex(venues, venueId);
      if venueIndex.Some? {
        var k := venueIndex.value;
        var other := HasOtherApprovedBookings(bookings, venueId, bookingId);
        if status == Rejected || status == Cancelled {
          if !other {
            SameVenueIds(venues, venues[k := venues[k].(status := Available)]);
            venues := venues[k := venues[k].(status := Available)];
          }
        } else {
          SameVenueIds(venues, venues[k := venues[k].(status := Booked)]);
          venues := venues[k := venues[k].(status := Booked)];
        }
      }
    }
  }

  /** How `updateBookingStatus` leaves the venue list (`before` to `after`) once
      booking `bookingId` of `venueId` has been moved to `status` in `bookings`:
      only the first venue with that id changes, and only in its status. */
  ghost predicate VenueStatusRecomputed(before: seq<Venue>, after: seq<Venue>, bookings: seq<Booking>,
                                        venueId: string, bookingId: string, status: BookingStatus)
  {
    match FindVenueIndex(before, venueId)
    case None => after == before
    case Some(k) =>
      var other := HasOtherApprovedBookings(bookings, venueId, bookingId);
      after == before[k := before[k].(status :=
        if status == Approved then Booked
        else if !other then Available
        else before[k].status)]
  }

  /** A client of the service: a 10:00 booking of two hours in a free hall is
      accepted, pending, and books the hall. */
  method BookingWalkthrough()
  {
    var hall := Venue("v", "Hall", "Town", 50, Small, "img", Available, "desc", []);
    var service := new VenueService(Some([hall]), Some([]));
    assert FindVenueIndex([hall], "v") == Some(0);

    var gala := service.AddBooking(BookingDraft("v", "u", "Gala", "2025-06-01", "10:00", 2, ""), "b1", "t1");
    assert gala == Done;
    assert service.venues[0].status == Booked && service.bookings[0].status == Pending;
  }

  /** With that booking in place, an 11:00 request overlaps it and is refused. */
  method OverlapWalkthrough()
  {
    var hall := Venue("v", "Hall", "Town", 50, Small, "img", Booked, "desc", []);
    var gala := Booking("b1", "v", "u", "Gala", "2025-06-01", "10:00", 2, Pending, "", "t1");
    var service := new VenueService(Some([hall]), Some([gala]));

    assert Start(gala) == 600 && End(gala) == 720 && Minutes("11:00") == 660;
    assert Blocks(gala, "v", "2025-06-01", 660, 720);
    var talk := service.AddBooking(BookingDraft("v", "u", "Talk", "2025-06-01", "11:00", 1, ""), "b2", "t2");
    assert talk == Conflict;
  }

  /** The adjacent 12:00 request, starting where that booking ends, is accepted. */
  method AdjacentWalkthrough()
  {
    var hall := Venue("v", "Hall", "Town", 50, Small, "img", Booked, "desc", []);
    var gala := Booking("b1", "v", "u", "Gala", "2025-06-01", "10:00", 2, Pending, "", "t1");
    var service := new VenueService(Some([hall]), Some([gala]));

    assert End(gala) == 720 && Minutes("12:00") == 720;
    assert !Blocks(gala, "v", "2025-06-01", 720, 780);
    assert GetVenueById(service.venues, "v").Some?;
    var lunch := service.AddBooking(BookingDraft("v", "u", "Lunch", "2025-06-01", "12:00", 1, ""), "b3", "t3");
    assert lunch == Done && |service.bookings| == 2;
  }

  /** A second client: rejecting the 10:00 booking frees the hall although the
      12:00 booking is still pending. */
  method RejectionWalkthrough()
  {
    var hall := Venue("v", "Hall", "Town", 50, Small, "img", Booked, "desc", []);
    var gala := Booking("b1", "v", "u", "Gala", "2025-06-01", "10:00", 2, Pending, "", "t1");
    var lunch := Booking("b3", "v", "u", "Lunch", "2025-06-01", "12:00", 1, Pending, "", "t3");
    var service := new VenueService(Some([hall]), Some([gala, lunch]));

    assert FindBookingIndex(service.bookings, "b1") == Some(0);
    assert !IsBookingPast(gala, 0);
    var rejected := service.UpdateBookingStatus("b1", Rejected, 0);
    assert rejected == Done;
    assert FindVenueIndex(service.venues, "v") == Some(0);
    assert !HasOtherApprovedBookings(service.bookings, "v", "b1");
    assert service.venues[0].status == Available && service.bookings[1].status == Pending;
  }

  /** A third client: once the 10:00 booking is rejected, an 11:00 booking is accepted. */
  method FreedSlotWalkthrough()
  {
    var hall := Venue("v", "Hall", "Town", 50, Small, "img", Available, "desc", []);
    var gala := Booking("b1", "v", "u", "Gala", "2025-06-01", "10:00", 2, Rejected, "", "t1");
    var service := new VenueService(Some([hall]), Some([gala]));

    var draft := BookingDraft("v", "u", "Talk", "2025-06-01", "11:00", 1, "");
    assert GetVenueById(service.venues, "v").Some?;
    assert Minutes("11:00") == 660 && !Blocks(gala, "v", "2025-06-01", 660, 720);
    assert CheckAvailability(service.venues, service.bookings, "v", "2025-06-01", "11:00", 1);
    assert ValidateBookingData(draft);
    var talk := service.AddBooking(draft, "b2", "t2");
    assert talk == Done && service.bookings[1].status == Pending;
  }

  /** A fourth client: re-approving the rejected 10:00 booking, with the 11:00
      booking pending, leaves two active bookings overlapping. */
  method ReapprovalWalkthrough()
  {
    var hall := Venue("v", "Hall", "Town", 50, Small, "img", Booked, "desc", []);
    var gala := Booking("b1", "v", "u", "Gala", "2025-06-01", "10:00", 2, Rejected, "", "t1");
    var talk := Booking("b2", "v", "u", "Talk", "2025-06-01", "11:00", 1, Pending, "", "t2");
    var service := new VenueService(Some([hall]), Some([gala, talk]));

    assert FindBookingIndex(service.bookings, "b1") == Some(0);
    assert !IsBookingPast(gala, 0);
    var approved := service.UpdateBookingStatus("b1", Approved, 0);
    assert approved == Done;
    assert service.bookings == [gala.(status := Approved), talk];
    assert Start(talk) == 660 && End(talk) == 720 && Start(gala) == 600 && End(gala) == 720;
    assert Clash(service.bookings[0], service.bookings[1]);
    assert !NoOverlap(service.bookings);
  }

  /** Rewriting venues without touching their ids keeps the ids unique. */
  lemma SameVenueIds(a: seq<Venue>, b: seq<Venue>)
    requires UniqueVenueIds(a) && |a| == |b|
    requires forall i :: 0 <= i < |a| ==> a[i].id == b[i].id
    ensures UniqueVenueIds(b)
  {
  }

  /** Rewriting bookings without touching their ids keeps the ids unique. */
  lemma SameBookingIds(a: seq<Booking>, b: seq<Booking>)
    requires UniqueBookingIds(a) && |a| == |b|
    requires forall i :: 0 <= i < |a| ==> a[i].id == b[i].id
    ensures UniqueBookingIds(b)
  {
  }

  /** Removing every venue with one id keeps the remaining ids unique. */
  lemma DeletePreservesUniqueIds(venues: seq<Venue>, id: string)
    requires UniqueVenueIds(venues)
    ensures UniqueVenueIds(Filter(venues, (v: Venue) => v.id != id))
  {
    FilterPreservesUniqueIds(venues, (v: Venue) => v.id != id);
  }

  lemma {:induction false} FilterPreservesUniqueIds(venues: seq<Venue>, p: Venue -> bool)
    requires UniqueVenueIds(venues)
    ensures UniqueVenueIds(Filter(venues, p))
  {
    if venues != [] {
      FilterPreservesUniqueIds(venues[1..], p);
      var rest := Filter(venues[1..], p);
      forall i | 0 <= i < |rest| ensures rest[i].id != venues[0].id {
        var j :| 0 <= j < |venues[1..]| && venues[1..][j] == rest[i];
      }
    }
  }
}
