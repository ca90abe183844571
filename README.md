# Venue booking ledger — a Dafny model

This project models the core of an Angular venue-booking application:

- **`VenueService`** is the ledger. It holds a list of venues, each carrying a denormalised list of booking slots, and a list of bookings. Its operations:
  - venue add, update, rename, delete and status override;
  - the interval-based availability check;
  - booking creation, which also records the slot on the venue;
  - booking status transitions, with a past-event guard and a recomputation of the venue's status.
- **`HomeComponent.filterVenues`** is the home page's search. It does a case-insensitive substring search over name, location and description, combined with optional status and capacity-class filters.
- **`AuthService`** keeps a user list that is seeded with two default accounts. It handles registration with a duplicate-email check, login as the first account matching email and password, logout, and the admin test.
- **`ShortenIdPipe`** shows an id as its first eight characters followed by `...`.

Layout:

- `seqs.dfy` (`Seqs`) holds `Option`, plus `FindIndex` and `Filter`, which are the models of JavaScript's `findIndex`/`find` and `filter`.
- `venue_model.dfy` (`Model`) holds the entities, the "HH:MM" and "YYYY-MM-DD" string formats, and their numeric readings.
- `venue_service.dfy` (`Venues`) holds:
  - the pure queries (lookups, the validators, `CheckAvailability`, `IsVenueAvailable`, `IsBookingPast`);
  - the scheduling invariant `NoOverlap` and lemmas about it;
  - the `VenueService` class, whose methods update its `venues` and `bookings` fields in place, as the service updates its arrays;
  - a few client methods that drive the class through the booking scenarios.
- `home_component.dfy` (`Home`) holds the search predicate, `FilteredVenues`, and the `HomeComponent` class with its `filteredVenues` field.
- `auth_service.dfy` (`Auth`) holds the `AuthService` class: the stored user list (`None` while storage has no entry) and the current user.
- `shorten_id_pipe.dfy` (`Pipes`) holds `ShortenId` over JavaScript's `substring`.

The clock and the id generator are parameters:

- `UpdateBookingStatus` receives `now`.
- `AddVenue`, `AddBooking` and `Register` receive a fresh id and require it to be unused.
- `AddBooking` also receives the creation timestamp.

The model follows the code where it departs from the intended design of the ledger:

- `updateBookingStatus` has no guard against leaving a terminal status (Rejected or Cancelled), and it does not re-check overlap. `ReapprovalCanBreakNoOverlap` and `ReapprovalWalkthrough` show a re-approval that leaves two active bookings overlapping.
- After a rejection or cancellation, the venue becomes Available unless some *other* booking of it is Approved. Pending bookings do not count (`RejectionWalkthrough`).
- `addVenue` copies the status it is given instead of starting the venue as Available.
- `renameVenue` accepts any name, including the empty one.
- `updateVenue` does nothing for an unknown id and shows no dialog. The model's `NotFound` outcome is its own label for that silent case. The same goes for an unknown booking id in `updateBookingStatus`.
- `isVenueAvailable` only detects a booking that starts at exactly the same time (`ExactSlotCheckMissesOverlap`).
- `updateBookingStatus` writes the venue's new status into the venue object before `updateVenue` re-validates it. A venue that fails validation keeps the new status in memory, so the model always writes it.

## Model

| member | source | states |
|---|---|---|
| Model.Minutes | src/app/services/venue.service.ts:295-296 | "HH:MM" read as `hh*60+mm`: less than one day, and hours and minutes are recovered by division by 60 |
| Model.MinutesInjective | src/app/services/venue.service.ts:295-296 | two well-formed times with the same minute count are the same string, so string and minute comparisons of times agree |
| Model.DayKeyOrder | src/app/services/venue.service.ts:354 | date keys order dates by year, then month, then day, and equal keys mean the same year, month and day |
| Model.EventInstant | src/app/services/venue.service.ts:354 | the instant of a booking's date and time is non-negative, so nothing is past at or before the start of the clock's scale |
| Model.EventInstantOrder | src/app/services/venue.service.ts:353-356 | the instant of a date and time follows the calendar: a later day is later whatever the times; on one day, instant order is time-of-day order |
| Model.EventInstantInjective | src/app/services/venue.service.ts:354 | equal instants mean the same year, month, day and "HH:MM" time |
| Venues.FindVenueIndex | src/app/services/venue.service.ts:124 | the index of the first venue with the id, or None exactly when no venue has it |
| Venues.GetVenueById | src/app/services/venue.service.ts:79-81 | a venue is returned iff some venue has the id, and it is the first venue in the list with that id |
| Venues.UniqueVenueLookup | src/app/services/venue.service.ts:79-81 | with unique ids, looking up a venue's own id returns that venue and its position |
| Venues.FindBookingIndex | src/app/services/venue.service.ts:253 | the index of the first booking with the id, or None exactly when no booking has it |
| Venues.GetBookingById | src/app/services/venue.service.ts:200-202 | a booking is returned iff some booking has the id, and it is the first booking in the ledger with that id |
| Venues.UniqueBookingLookup | src/app/services/venue.service.ts:200-202 | with unique ids, looking up a booking's own id returns that booking and its position |
| Venues.GetBookingsByVenueId | src/app/services/venue.service.ts:204-206 | every returned booking is in the ledger and has the venue id; every ledger booking of that venue is returned |
| Venues.GetBookingsByVenueIdAppend | src/app/services/venue.service.ts:204-206 | a booking appended to the ledger is appended to the result iff it belongs to the venue, so the result keeps ledger order and lists each booking once |
| Venues.GetBookingsByUserId | src/app/services/venue.service.ts:208-210 | every returned booking is in the ledger and has the user id; every ledger booking of that user is returned |
| Venues.GetBookingsByUserIdAppend | src/app/services/venue.service.ts:208-210 | a booking appended to the ledger is appended to the result iff it belongs to the user, so the result keeps ledger order and lists each booking once |
| Venues.ValidateVenueData | src/app/services/venue.service.ts:343-346 | an empty name, location, image or description fails; a draft that passes has a capacity class and a non-zero capacity |
| Venues.StatusChangeKeepsVenueValidity | src/app/services/venue.service.ts:280-285 | status is not validated, so the `updateVenue` call after a status change passes exactly when the venue passed before |
| Venues.ValidateBookingData | src/app/services/venue.service.ts:348-351 | an empty event name, venue id or user id fails; a draft that passes has a date, a time and a non-zero duration |
| Venues.CheckAvailability | src/app/services/venue.service.ts:291-313 | true iff the venue exists and no Pending/Approved booking of that venue and date string overlaps the half-open interval `[hh*60+mm, +duration*60)` |
| Venues.HalfOpenIntervals | src/app/services/venue.service.ts:309 | against an active 10:00 booking of two hours, 12:00 for one hour is free and 11:00 for one hour conflicts |
| Venues.IsVenueAvailable | src/app/services/venue.service.ts:358-367 | true iff no active booking of that venue and date starts at exactly the given time string |
| Venues.CheckAvailabilityImpliesExactSlotFree | src/app/services/venue.service.ts:358-367 | with positive durations, a slot the interval check accepts also passes the exact-start check |
| Venues.ExactSlotCheckMissesOverlap | src/app/services/venue.service.ts:358-367 | the converse fails: an 11:00 request inside a 10:00 two-hour booking passes the exact-start check but is refused by the interval check |
| Venues.AvailableSlotKeepsNoOverlap | src/app/services/venue.service.ts:222-241 | appending a booking whose slot the availability check accepted keeps the active bookings of every venue and date pairwise disjoint |
| Venues.ReapprovalCanBreakNoOverlap | src/app/services/venue.service.ts:251-265 | re-approving a rejected booking, with no overlap re-check, can turn an overlap-free ledger into one with two clashing active bookings |
| Venues.IsBookingPast | src/app/services/venue.service.ts:353-356 | no booking is past when `now` is at or before the start of the clock's scale |
| Venues.PastStaysPast | src/app/services/venue.service.ts:353-356 | a booking that is past stays past as `now` advances |
| Venues.PastFollowsCalendar | src/app/services/venue.service.ts:353-356 | once a booking is past, every booking on an earlier day, or on the same day no later, is past too |
| Venues.WithPendingSlot | src/app/services/venue.service.ts:322-335 | the venue gains exactly one Pending slot at the end; an Available venue becomes Booked, Booked and Maintenance stay; nothing else changes |
| Venues.HasOtherApprovedBookings | src/app/services/venue.service.ts:272-276 | true iff some booking of the venue with a different id is Approved |
| Venues.NewBooking | src/app/services/venue.service.ts:231-236 | the stored booking is Pending, carries the fresh id and timestamp, and copies every submitted field |
| Venues.SampleVenues | src/app/services/venue.service.ts:21-61 | the seed is three venues with distinct ids, all Available and without slots |
| Venues.VenueService.constructor | src/app/services/venue.service.ts:17-72 | the stored lists are taken as they are; missing venues become the sample venues and missing bookings the empty list |
| Venues.VenueService.AddVenue | src/app/services/venue.service.ts:83-111 | invalid data changes nothing; valid data appends exactly one venue with the fresh id, the given fields (status included) and no slots; bookings untouched |
| Venues.VenueService.UpdateVenue | src/app/services/venue.service.ts:113-138 | invalid data or an unknown id changes nothing; otherwise exactly the first entry with the id is replaced and the rest of both lists is unchanged |
| Venues.VenueService.RenameVenue | src/app/services/venue.service.ts:140-157 | reports whether the id exists; if so only that venue's name changes, to any name, empty included |
| Venues.VenueService.DeleteVenue | src/app/services/venue.service.ts:159-183 | keeps, in order, exactly the venues with another id; bookings untouched |
| Venues.DeletePreservesUniqueIds | src/app/services/venue.service.ts:170 | removing the venues with one id keeps venue ids unique |
| Venues.VenueService.UpdateVenueStatus | src/app/services/venue.service.ts:185-193 | only the status of the first venue with that id changes, to the given Available or Booked; an unknown id changes nothing |
| Venues.VenueService.MarkVenueAsBooked | src/app/services/venue.service.ts:315-340 | only the first venue with that id changes, as `WithPendingSlot` says; bookings untouched |
| Venues.VenueService.AddBooking | src/app/services/venue.service.ts:212-249 | ValidationError iff a required field is empty or zero; Conflict iff valid and unavailable; then nothing changes; on success exactly one Pending booking is appended and its venue gains one slot; no-overlap is preserved |
| Venues.VenueService.UpdateBookingStatus | src/app/services/venue.service.ts:251-267 | NotFound iff the id is unknown, PastEvent iff the booking's instant is before `now`, and then nothing changes; otherwise only that booking's status changes and the venue status is recomputed |
| Venues.VenueService.RecomputeVenueStatus | src/app/services/venue.service.ts:269-287 | Approved makes the first venue with the id Booked; Rejected or Cancelled make it Available unless another booking of it is Approved; only that venue's status changes |
| Home.ToLower | src/app/components/home/home.component.ts:106-108 | same length; each character is lowered (ASCII letters) |
| Home.Includes | src/app/components/home/home.component.ts:106-108 | true iff the term occurs at some position of the text |
| Home.MatchesSearch | src/app/components/home/home.component.ts:105-108 | a venue matches iff the lower-cased term occurs at some position of its lower-cased name, location or description |
| Home.Matches | src/app/components/home/home.component.ts:105-113 | with no control set every venue matches; a set status or capacity filter the venue differs from refuses it; with neither filter set, matching is the search alone |
| Home.EmptySearchMatchesAll | src/app/components/home/home.component.ts:105-108 | an empty search term matches every venue |
| Home.SearchIgnoresTermCase | src/app/components/home/home.component.ts:105-108 | a term and its lower-cased form match the same venues |
| Home.FilteredVenues | src/app/components/home/home.component.ts:104-114 | every kept venue is in the input and matches search, status and capacity; every matching venue is kept; a status or capacity filter holds for all results; with no criterion set, the result is the input |
| Home.FilteredVenuesConcat | src/app/components/home/home.component.ts:104-114 | the result for `a + b` is the result for `a` followed by the result for `b`, so the input order is kept |
| Home.FilteredVenuesIdempotent | src/app/components/home/home.component.ts:104-114 | filtering the result again with the same criteria returns it unchanged |
| Home.HomeComponent.constructor | src/app/components/home/home.component.ts:88-92 | empty lists and empty controls |
| Home.HomeComponent.FilterVenues | src/app/components/home/home.component.ts:103-123 | `filteredVenues` becomes the filtered list; "No Results" is raised iff it is empty and some control is set |
| Home.HomeComponent.OnVenues | src/app/components/home/home.component.ts:96-101 | a new venue list is stored and filtered under the current controls |
| Auth.DefaultUsers | src/app/services/auth.service.ts:99-118 | exactly two accounts with distinct emails: id "1" Admin and id "2" User |
| Auth.EmailTaken | src/app/services/auth.service.ts:126 | true iff some account has the email |
| Auth.FindUser | src/app/services/auth.service.ts:41 | the first account whose email and password both match, or None iff there is none |
| Auth.FindUserByEmail | src/app/services/auth.service.ts:41 | with distinct emails, logging in with an account's email yields exactly that account iff the password is its password |
| Auth.RegisterKeepsEmailsDistinct | src/app/services/auth.service.ts:126-141 | appending an account whose email is not taken keeps emails distinct |
| Auth.AuthService.constructor | src/app/services/auth.service.ts:14-23 | the saved session, if any, is the current user |
| Auth.AuthService.IsAdmin | src/app/services/auth.service.ts:93-96 | true iff someone is logged in with the Admin role |
| Auth.AuthService.GetUsers | src/app/services/auth.service.ts:98-121 | the stored list, or, when nothing is stored, the two default accounts, which are then stored |
| Auth.AuthService.Login | src/app/services/auth.service.ts:30-63 | a missing email or password changes nothing; otherwise the current user becomes the first matching account, and stays as it was when none matches |
| Auth.AuthService.Logout | src/app/services/auth.service.ts:65-78 | nobody is logged in and `isAdmin` is false |
| Auth.AuthService.Register | src/app/services/auth.service.ts:124-149 | false iff the email is taken, with the list unchanged; otherwise exactly one account (the given fields plus the fresh id) is appended; emails stay distinct |
| Pipes.Substring | src/app/pipes/shorten-id.pipe.ts:11 | `substring` clamps negative ends to 0 and ends past the string to its length, and swaps them when reversed |
| Pipes.ShortenId | src/app/pipes/shorten-id.pipe.ts:9-12 | empty for an empty id; otherwise the first `min(8, n)` characters then `...`, length `min(8, n) + 3` |
| Pipes.ShortIdShownWhole | src/app/pipes/shorten-id.pipe.ts:11 | an id of at most eight characters is shown whole before the dots |
| Pipes.ShortenIdSameIffSamePrefix | src/app/pipes/shorten-id.pipe.ts:11 | two non-empty ids are shown alike iff their first eight characters agree |

## Left out

- Dialogs (SweetAlert), `localStorage` reads and writes, `BehaviorSubject` notifications and router navigation are not modelled. The persisted state is the class fields, and an error dialog becomes an `Outcome` or `LoginOutcome` value.
- The confirmation dialog around `deleteVenue` is not modelled. `DeleteVenue` is the confirmed branch.
- `crypto.randomUUID()` and `new Date()` are not modelled. They are parameters: a fresh id, required to be unused, and `now`, on the scale of `Model.EventInstant`.
- Venues.IsBookingPast: does not parse JavaScript `Date`s. A booking's instant is an order-preserving number built from date and time with 31 days in every month, so impossible dates such as February 30 are not rejected, and the time zone is not modelled.
- Venues.VenueService.AddBooking: requires the submitted date and time to be empty or well-formed ("YYYY-MM-DD", 24-hour "HH:MM"). A malformed time, which `Number` turns into NaN, is not modelled. Durations are whole numbers.
- Venues.VenueService.UpdateBookingStatus: the `updateVenue` call that follows the in-place status change is modelled only as that change. Its re-validation gates only persistence and a dialog.
- Venues.VenueService.AddVenue: the draft always carries a status. A partial draft without one is not modelled.
- Home.ToLower: lower-cases ASCII letters only, not the full Unicode case mapping of `toLowerCase`.
- The optional `mapLocation` coordinates, the optional `qrCode` image and the user's optional `bookings` list are not modelled. The QR code is a field copied through. A missing slot list on a venue is the empty list.
- `AuthService.getCurrentUser` and `checkSessionValidity` are not modelled. The first is the `currentUser` field; the second only shows a dialog and navigates.
- The presentation components (admin dashboard, booking form, venue details, login, navbar, routes) are not part of this model. One consequence: the booking form calls `markVenueAsBooked` again after `addBooking`, which records the slot on the venue twice. That call is outside the service.
- Passwords are opaque values compared for equality; credential security is not modelled.
