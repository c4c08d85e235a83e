/** The booking engine of src/bookings/bookings.service.ts.

    The booking collection is a table from id to `Booking`. The pure parts of
    the service (the conflict test, the `findAll` filter, `findOne`, the locker
    availability query, the record `create` builds, the patch `update`
    applies and the expiry rules) are functions of that table; the operations
    that write to it are methods of the class `BookingsService`. The clock is
    the parameter `now`. */
module Bookings {
  import opened Outcomes
  import opened BookingSchema

  type BookingId = nat

  /** Longest rental `create` accepts: 10 hours. */
  const MaxRentalMs: int := 10 * 60 * 60 * 1000
  /** A booking can be cancelled up to this long before it starts. */
  const CancelNoticeMs: int := 60 * 60 * 1000
  /** Age after which the sweep cancels a booking still `pending`. */
  const PendingTimeoutMs: int := 15 * 60 * 1000
  /** Lockers every business is assumed to have, numbered from 1. */
  const LockersPerBusiness: int := 20

  // ---------------------------------------------------------------------
  // The conflict test

  /** The three-way query on an existing booking [s, e] against a requested
      [start, end]: it covers the requested start, or covers the requested
      end, or lies inside the requested interval. All bounds inclusive. */
  predicate Conflicts(s: Time, e: Time, start: Time, end: Time)
  {
    || (s <= start && e >= start)
    || (s <= end && e >= end)
    || (s >= start && e <= end)
  }

  /** Inclusive overlap of [s, e] and [start, end]. */
  predicate Overlaps(s: Time, e: Time, start: Time, end: Time)
  {
    s <= end && e >= start
  }

  lemma ConflictIsInclusiveOverlap(s: Time, e: Time, start: Time, end: Time)
    requires s <= e && start <= end
    ensures Conflicts(s, e, start, end) <==> Overlaps(s, e, start, end)
  {
  }

  lemma ConflictIsSymmetric(s: Time, e: Time, start: Time, end: Time)
    requires s <= e && start <= end
    ensures Conflicts(s, e, start, end) <==> Conflicts(start, end, s, e)
  {
    ConflictIsInclusiveOverlap(s, e, start, end);
    ConflictIsInclusiveOverlap(start, end, s, e);
  }

  lemma ConflictIsReflexive(s: Time, e: Time)
    requires s <= e
    ensures Conflicts(s, e, s, e)
  {
  }

  /** A booking that ends exactly when the request starts is a conflict. */
  lemma BackToBackConflicts(s: Time, e: Time, end: Time)
    requires s <= e
    ensures Conflicts(s, e, e, end)
  {
  }

  /** Nothing stops an inverted booking (end before start) from being stored;
      for such a booking the three-way test is not an overlap test. */
  lemma InvertedBookingConflictsWithoutOverlap()
    ensures Conflicts(10, 5, 6, 8) && !Overlaps(10, 5, 6, 8)
  {
  }

  // ---------------------------------------------------------------------
  // Conflict and availability queries

  /** Statuses that hold a locker. */
  predicate IsBlocking(s: BookingStatus)
  {
    s == Active || s == Confirmed
  }

  /** `b` is what the conflict query of `create` matches for a request on
      `locker` of `businessId` over [start, end]. */
  predicate Blocks(b: Booking, businessId: ObjectId, locker: int, start: Time, end: Time)
  {
    && b.businessId == businessId
    && b.lockerNumber == locker
    && IsBlocking(b.status)
    && Conflicts(b.startTime, b.endTime, start, end)
  }

  /** The conflict query of `create` finds a booking. */
  predicate HasConflict(bookings: map<BookingId, Booking>, businessId: ObjectId, locker: int, start: Time, end: Time)
  {
    exists k | k in bookings :: Blocks(bookings[k], businessId, locker, start, end)
  }

  /** The distinct locker numbers of the business's active or confirmed
      bookings that conflict with [start, end]. */
  function BookedLockers(bookings: map<BookingId, Booking>, businessId: ObjectId, start: Time, end: Time): (r: set<int>)
    ensures forall x :: x in r <==> HasConflict(bookings, businessId, x, start, end)
  {
    set k | k in bookings && bookings[k].businessId == businessId && IsBlocking(bookings[k].status)
                          && Conflicts(bookings[k].startTime, bookings[k].endTime, start, end)
      :: bookings[k].lockerNumber
  }

  predicate StrictlyAscending(s: seq<int>)
  {
    forall i, j :: 0 <= i < j < |s| ==> s[i] < s[j]
  }

  lemma PrependKeepsAscending(x: int, s: seq<int>)
    requires StrictlyAscending(s)
    requires forall y :: y in s ==> x < y
    ensures StrictlyAscending([x] + s)
  {
    var t := [x] + s;
    forall i, j | 0 <= i < j < |t| ensures t[i] < t[j] {
      assert t[j] == s[j - 1] && s[j - 1] in s;
      if i > 0 { assert t[i] == s[i - 1]; }
    }
  }

  /** The numbers lo, lo + 1, ..., hi in order. */
  function Range(lo: int, hi: int): (r: seq<int>)
    decreases hi - lo
    ensures StrictlyAscending(r)
    ensures forall x :: x in r <==> lo <= x <= hi
  {
    if lo > hi then []
    else
      var rest := Range(lo + 1, hi);
      PrependKeepsAscending(lo, rest);
      [lo] + rest
  }

  /** `s` with every element of `removed` filtered out, order kept. */
  function Exclude(s: seq<int>, removed: set<int>): (r: seq<int>)
    ensures forall x :: x in r <==> x in s && x !in removed
    ensures StrictlyAscending(s) ==> StrictlyAscending(r)
  {
    if s == [] then []
    else
      var rest := Exclude(s[1..], removed);
      assert StrictlyAscending(s) ==> forall x :: x in s[1..] ==> s[0] < x;
      if s[0] in removed then rest
      else
        assert StrictlyAscending(s) ==> StrictlyAscending([s[0]] + rest) by {
          if StrictlyAscending(s) { PrependKeepsAscending(s[0], rest); }
        }
        [s[0]] + rest
  }

  /** `getAvailableLockers`: lockers 1..20 of the business on which `create`
      over [start, end] would not hit the conflict check, ascending. */
  function GetAvailableLockers(bookings: map<BookingId, Booking>, businessId: ObjectId, start: Time, end: Time): (r: seq<int>)
    ensures StrictlyAscending(r)
    ensures forall x :: x in r <==> 1 <= x <= LockersPerBusiness && !HasConflict(bookings, businessId, x, start, end)
  {
    Exclude(Range(1, LockersPerBusiness), BookedLockers(bookings, businessId, start, end))
  }

  // ---------------------------------------------------------------------
  // Reads: findOne, findAll and its two shorthands

  /** `findOne`. */
  function FindOne(bookings: map<BookingId, Booking>, id: BookingId): (r: Result<Booking>)
    ensures r.Ok? <==> id in bookings
    ensures r.Ok? ==> r.value == bookings[id]
    ensures r.Err? ==> r.error == NotFound
  {
    if id in bookings then Ok(bookings[id]) else Err(NotFound)
  }

  /** The optional search fields of `findAll`. `page` and `limit` are
      accepted but `findAll` does not use them. */
  datatype BookingSearch = BookingSearch(
    userId: Option<ObjectId>,
    businessId: Option<ObjectId>,
    status: Option<BookingStatus>,
    startDate: Option<Time>,
    endDate: Option<Time>,
    page: Option<int>,
    limit: Option<int>)

  const NoSearch: BookingSearch := BookingSearch(None, None, None, None, None, None, None)

  /** The query `findAll` builds: an equality test per present id or status
      field, and an inclusive window on startTime only when both dates are given. */
  predicate MatchesSearch(q: BookingSearch, b: Booking)
  {
    && (q.userId.Some? ==> b.userId == q.userId.value)
    && (q.businessId.Some? ==> b.businessId == q.businessId.value)
    && (q.status.Some? ==> b.status == q.status.value)
    && (q.startDate.Some? && q.endDate.Some? ==> q.startDate.value <= b.startTime <= q.endDate.value)
  }

  /** `findAll`: the bookings the query matches (sorting is not modelled). */
  function FindAll(bookings: map<BookingId, Booking>, q: BookingSearch): (r: map<BookingId, Booking>)
    ensures forall k :: k in r <==> k in bookings && MatchesSearch(q, bookings[k])
    ensures forall k :: k in r ==> r[k] == bookings[k]
  {
    map k | k in bookings && MatchesSearch(q, bookings[k]) :: bookings[k]
  }

  lemma FindAllWithoutFiltersReturnsAll(bookings: map<BookingId, Booking>)
    ensures FindAll(bookings, NoSearch) == bookings
  {
  }

  /** The date window is ignored unless both of its ends are given. */
  lemma FindAllIgnoresHalfWindow(bookings: map<BookingId, Booking>, q: BookingSearch)
    requires q.startDate.None? || q.endDate.None?
    ensures FindAll(bookings, q) == FindAll(bookings, q.(startDate := None, endDate := None))
  {
  }

  /** Both ends of the date window are inclusive. */
  lemma FindAllWindowIsInclusive(b: Booking, from: Time, to: Time)
    requires from <= to
    requires b.startTime == from || b.startTime == to
    ensures MatchesSearch(NoSearch.(startDate := Some(from), endDate := Some(to)), b)
  {
  }

  /** Pagination fields do not change what `findAll` returns. */
  lemma FindAllIgnoresPaging(bookings: map<BookingId, Booking>, q: BookingSearch, page: Option<int>, limit: Option<int>)
    ensures FindAll(bookings, q.(page := page, limit := limit)) == FindAll(bookings, q)
  {
  }

  /** `findByUser`. */
  function FindByUser(bookings: map<BookingId, Booking>, userId: ObjectId): (r: map<BookingId, Booking>)
    ensures forall k :: k in r <==> k in bookings && bookings[k].userId == userId
    ensures forall k :: k in r ==> r[k] == bookings[k]
  {
    FindAll(bookings, NoSearch.(userId := Some(userId)))
  }

  /** `findByBusiness`. */
  function FindByBusiness(bookings: map<BookingId, Booking>, businessId: ObjectId): (r: map<BookingId, Booking>)
    ensures forall k :: k in r <==> k in bookings && bookings[k].businessId == businessId
    ensures forall k :: k in r ==> r[k] == bookings[k]
  {
    FindAll(bookings, NoSearch.(businessId := Some(businessId)))
  }

  // ---------------------------------------------------------------------
  // The no-double-booking invariant

  predicate WellFormed(b: Booking)
  {
    b.startTime <= b.endTime
  }

  predicate SameLocker(a: Booking, b: Booking)
  {
    a.businessId == b.businessId && a.lockerNumber == b.lockerNumber
  }

  /** No two distinct active or confirmed well-formed bookings on the same
      locker of the same business overlap. */
  predicate NoDoubleBooking(bookings: map<BookingId, Booking>)
  {
    forall i, j | i in bookings && j in bookings && i != j ::
      (SameLocker(bookings[i], bookings[j]) && IsBlocking(bookings[i].status) && IsBlocking(bookings[j].status)
       && WellFormed(bookings[i]) && WellFormed(bookings[j]))
      ==> !Overlaps(bookings[i].startTime, bookings[i].endTime, bookings[j].startTime, bookings[j].endTime)
  }

  /** Writing a booking that the conflict query of `create` does not
      match keeps the invariant. */
  lemma AddingUnblockedKeepsNoDoubleBooking(bookings: map<BookingId, Booking>, id: BookingId, b: Booking)
    requires NoDoubleBooking(bookings)
    requires id !in bookings
    requires !HasConflict(bookings, b.businessId, b.lockerNumber, b.startTime, b.endTime)
    ensures NoDoubleBooking(bookings[id := b])
  {
    var m := bookings[id := b];
    forall i, j | i in m && j in m && i != j
      && SameLocker(m[i], m[j]) && IsBlocking(m[i].status) && IsBlocking(m[j].status)
      && WellFormed(m[i]) && WellFormed(m[j])
      ensures !Overlaps(m[i].startTime, m[i].endTime, m[j].startTime, m[j].endTime)
    {
      if i == id {
        assert !Blocks(bookings[j], b.businessId, b.lockerNumber, b.startTime, b.endTime);
        ConflictIsInclusiveOverlap(m[j].startTime, m[j].endTime, b.startTime, b.endTime);
      } else if j == id {
        assert !Blocks(bookings[i], b.businessId, b.lockerNumber, b.startTime, b.endTime);
        ConflictIsInclusiveOverlap(m[i].startTime, m[i].endTime, b.startTime, b.endTime);
      }
    }
  }

  /** Changing only status, and only to a status that does not block,
      keeps the invariant. */
  lemma ReleasingKeepsNoDoubleBooking(before: map<BookingId, Booking>, after: map<BookingId, Booking>)
    requires NoDoubleBooking(before)
    requires after.Keys == before.Keys
    requires forall k :: k in after ==> after[k] == before[k] || !IsBlocking(after[k].status)
    ensures NoDoubleBooking(after)
  {
  }

  /** Once a booking is stored with status `confirmed`, a request on the
      same locker whose interval it conflicts with hits the conflict check. */
  lemma StoredBookingBlocks(bookings: map<BookingId, Booking>, id: BookingId, start: Time, end: Time)
    requires id in bookings && IsBlocking(bookings[id].status)
    requires Conflicts(bookings[id].startTime, bookings[id].endTime, start, end)
    ensures HasConflict(bookings, bookings[id].businessId, bookings[id].lockerNumber, start, end)
  {
    assert Blocks(bookings[id], bookings[id].businessId, bookings[id].lockerNumber, start, end);
  }

  // ---------------------------------------------------------------------
  // The record create writes

  /** The fields of a create request. The request type of the service has
      no `totalAmount`; it is optional here so that both its absence and its
      presence can be stated. */
  datatype CreateBookingDto = CreateBookingDto(
    businessId: ObjectId,
    lockerNumber: int,
    startTime: Time,
    endTime: Time,
    durationHours: real,
    specialInstructions: Option<string>,
    totalAmount: Option<real>)

  /** The rental-length check of `create` (strictly more than 10 hours fails). */
  predicate ExceedsMaxRental(start: Time, end: Time)
  {
    end - start > MaxRentalMs
  }

  /** The document `create` builds: the request's fields, the caller as
      owner, status `confirmed`, the schema's default payment status, and
      both timestamps set to `now`. */
  function NewBooking(dto: CreateBookingDto, userId: ObjectId, now: Time): (b: Booking)
    ensures b.status == Confirmed && b.paymentStatus == PaymentPending
    ensures b.userId == userId && b.businessId == dto.businessId && b.lockerNumber == dto.lockerNumber
    ensures b.startTime == dto.startTime && b.endTime == dto.endTime
    ensures b.durationHours == dto.durationHours && b.totalAmount == dto.totalAmount
    ensures b.specialInstructions == dto.specialInstructions
    ensures b.createdAt == now && b.updatedAt == now
    ensures b.cancelledAt.None? && b.checkedInAt.None? && b.checkedOutAt.None?
  {
    Booking(
      userId := userId,
      businessId := dto.businessId,
      lockerNumber := dto.lockerNumber,
      startTime := dto.startTime,
      endTime := dto.endTime,
      durationHours := dto.durationHours,
      totalAmount := dto.totalAmount,
      status := Confirmed,
      paymentId := None,
      paymentStatus := PaymentStatusOrDefault(None),
      accessCode := None,
      specialInstructions := dto.specialInstructions,
      cancellationReason := None,
      checkedInAt := None,
      checkedOutAt := None,
      cancelledAt := None,
      createdAt := now,
      updatedAt := now)
  }

  /** A request without a total amount can never be saved. */
  lemma NewBookingWithoutAmountIsRejected(dto: CreateBookingDto, userId: ObjectId, now: Time)
    requires dto.totalAmount.None?
    ensures !SatisfiesSchema(NewBooking(dto, userId, now))
  {
  }

  // ---------------------------------------------------------------------
  // The patch update applies

  /** The optional fields of an update request. */
  datatype UpdateBookingDto = UpdateBookingDto(
    businessId: Option<ObjectId>,
    lockerNumber: Option<int>,
    startTime: Option<Time>,
    endTime: Option<Time>,
    specialInstructions: Option<string>,
    status: Option<BookingStatus>)

  /** The guard of `update`: an active booking may only be patched to
      `completed`, or with no status at all. */
  predicate RedirectsActive(current: BookingStatus, patch: UpdateBookingDto)
  {
    current == Active && patch.status.Some? && patch.status.value != Completed
  }

  /** The record after `update`: each present field replaces the stored one,
      every other field is kept, and updatedAt becomes `now`. */
  function ApplyPatch(b: Booking, p: UpdateBookingDto, now: Time): (r: Booking)
    ensures r.businessId == (if p.businessId.Some? then p.businessId.value else b.businessId)
    ensures r.lockerNumber == (if p.lockerNumber.Some? then p.lockerNumber.value else b.lockerNumber)
    ensures r.startTime == (if p.startTime.Some? then p.startTime.value else b.startTime)
    ensures r.endTime == (if p.endTime.Some? then p.endTime.value else b.endTime)
    ensures r.specialInstructions == (if p.specialInstructions.Some? then p.specialInstructions else b.specialInstructions)
    ensures r.status == (if p.status.Some? then p.status.value else b.status)
    ensures r.updatedAt == now
    ensures r.(businessId := b.businessId, lockerNumber := b.lockerNumber, startTime := b.startTime,
               endTime := b.endTime, specialInstructions := b.specialInstructions, status := b.status,
               updatedAt := b.updatedAt) == b
  {
    var b1 := if p.businessId.Some? then b.(businessId := p.businessId.value) else b;
    var b2 := if p.lockerNumber.Some? then b1.(lockerNumber := p.lockerNumber.value) else b1;
    var b3 := if p.startTime.Some? then b2.(startTime := p.startTime.value) else b2;
    var b4 := if p.endTime.Some? then b3.(endTime := p.endTime.value) else b3;
    var b5 := if p.specialInstructions.Some? then b4.(specialInstructions := p.specialInstructions) else b4;
    var b6 := if p.status.Some? then b5.(status := p.status.value) else b5;
    b6.(updatedAt := now)
  }

  /** `update` does not re-run the conflict check: moving a confirmed
      booking onto a locker another confirmed booking holds at the same time
      breaks the invariant. */
  lemma UpdateCanBreakNoDoubleBooking()
    ensures var held := NewBooking(CreateBookingDto(7, 1, 1000, 2000, 1.0, None, Some(5.0)), 1, 0);
            var other := NewBooking(CreateBookingDto(7, 2, 1000, 2000, 1.0, None, Some(5.0)), 2, 0);
            var move := UpdateBookingDto(None, Some(1), None, None, None, None);
            && NoDoubleBooking(map[0 := held, 1 := other])
            && !RedirectsActive(other.status, move)
            && !NoDoubleBooking(map[0 := held, 1 := ApplyPatch(other, move, 5)])
  {
    var held := NewBooking(CreateBookingDto(7, 1, 1000, 2000, 1.0, None, Some(5.0)), 1, 0);
    var other := NewBooking(CreateBookingDto(7, 2, 1000, 2000, 1.0, None, Some(5.0)), 2, 0);
    var move := UpdateBookingDto(None, Some(1), None, None, None, None);
    var m := map[0 := held, 1 := ApplyPatch(other, move, 5)];
    assert m[0] == held && m[1] == ApplyPatch(other, move, 5);
    assert Overlaps(m[0].startTime, m[0].endTime, m[1].startTime, m[1].endTime);
  }

  // ---------------------------------------------------------------------
  // Cancellation

  /** The status check of `cancel`. */
  predicate IsClosed(s: BookingStatus)
  {
    s == Completed || s == Cancelled
  }

  /** The timing check of `cancel`: at least one hour must remain before the start. */
  predicate CancellationWindowOpen(b: Booking, now: Time)
  {
    b.startTime - now >= CancelNoticeMs
  }

  lemma CancellationWindowBoundary(b: Booking)
    ensures CancellationWindowOpen(b, b.startTime - CancelNoticeMs)
    ensures !CancellationWindowOpen(b, b.startTime - CancelNoticeMs + 1)
  {
  }

  // ---------------------------------------------------------------------
  // The expiry sweep

  /** First bulk rule: an active booking whose end time has passed is completed. */
  predicate HasElapsed(b: Booking, now: Time)
  {
    b.status == Active && b.endTime < now
  }

  /** Second bulk rule: a booking pending for more than 15 minutes is cancelled. */
  predicate IsStalePending(b: Booking, now: Time)
  {
    b.status == Pending && b.createdAt < now - PendingTimeoutMs
  }

  /** The first `updateMany` pass of `checkExpiredBookings`. */
  function CompleteElapsed(bookings: map<BookingId, Booking>, now: Time): (r: map<BookingId, Booking>)
    ensures r.Keys == bookings.Keys
    ensures forall k :: k in r ==> !HasElapsed(r[k], now)
    ensures forall k :: k in bookings && HasElapsed(bookings[k], now) ==>
              r[k] == bookings[k].(status := Completed, updatedAt := now)
    ensures forall k :: k in bookings && !HasElapsed(bookings[k], now) ==> r[k] == bookings[k]
  {
    map k | k in bookings ::
      if HasElapsed(bookings[k], now) then bookings[k].(status := Completed, updatedAt := now) else bookings[k]
  }

  /** The second `updateMany` pass of `checkExpiredBookings`. */
  function CancelStalePending(bookings: map<BookingId, Booking>, now: Time): (r: map<BookingId, Booking>)
    ensures r.Keys == bookings.Keys
    ensures forall k :: k in r ==> !IsStalePending(r[k], now)
    ensures forall k :: k in bookings && IsStalePending(bookings[k], now) ==>
              r[k] == bookings[k].(status := Cancelled, updatedAt := now)
    ensures forall k :: k in bookings && !IsStalePending(bookings[k], now) ==> r[k] == bookings[k]
  {
    map k | k in bookings ::
      if IsStalePending(bookings[k], now) then bookings[k].(status := Cancelled, updatedAt := now) else bookings[k]
  }

  /** What the two passes do to one booking: exactly one of the two rules
      applies to it, or it is left as it was. */
  function SweepOne(b: Booking, now: Time): (r: Booking)
    ensures HasElapsed(b, now) ==> r == b.(status := Completed, updatedAt := now)
    ensures IsStalePending(b, now) ==> r == b.(status := Cancelled, updatedAt := now)
    ensures !HasElapsed(b, now) && !IsStalePending(b, now) ==> r == b
  {
    var c := if HasElapsed(b, now) then b.(status := Completed, updatedAt := now) else b;
    if IsStalePending(c, now) then c.(status := Cancelled, updatedAt := now) else c
  }

  /** The two sequential passes act record by record. */
  lemma SweepIsPointwise(bookings: map<BookingId, Booking>, now: Time)
    ensures CancelStalePending(CompleteElapsed(bookings, now), now).Keys == bookings.Keys
    ensures forall k :: k in bookings ==> CancelStalePending(CompleteElapsed(bookings, now), now)[k] == SweepOne(bookings[k], now)
  {
  }

  /** A second sweep with the same clock changes nothing. */
  lemma SweepIsIdempotent(bookings: map<BookingId, Booking>, now: Time)
    ensures var once := CancelStalePending(CompleteElapsed(bookings, now), now);
            CancelStalePending(CompleteElapsed(once, now), now) == once
  {
    var once := CancelStalePending(CompleteElapsed(bookings, now), now);
    var twice := CancelStalePending(CompleteElapsed(once, now), now);
    assert twice.Keys == once.Keys;
    forall k | k in once ensures twice[k] == once[k] {
      assert !HasElapsed(once[k], now) && !IsStalePending(once[k], now);
    }
  }

  /** The sweep never makes a booking block a locker, so it keeps the invariant. */
  lemma SweepKeepsNoDoubleBooking(bookings: map<BookingId, Booking>, now: Time)
    requires NoDoubleBooking(bookings)
    ensures NoDoubleBooking(CancelStalePending(CompleteElapsed(bookings, now), now))
  {
    SweepIsPointwise(bookings, now);
    ReleasingKeepsNoDoubleBooking(bookings, CancelStalePending(CompleteElapsed(bookings, now), now));
  }

  // ---------------------------------------------------------------------
  // The service

  class BookingsService {
    /** The booking collection. */
    var bookings: map<BookingId, Booking>
    /** The id the next saved booking receives. */
    var nextId: BookingId

    /** Ids are below the counter, and every stored booking passed the
        schema's validators. */
    ghost predicate Valid()
      reads this
    {
      forall k :: k in bookings ==> k < nextId && SatisfiesSchema(bookings[k])
    }

    constructor ()
      ensures Valid() && bookings == map[] && nextId == 0
    {
      bookings := map[];
      nextId := 0;
    }

    /** `create`: the conflict check first, then the rental length, then
        the store's schema validation on save. */
    method Create(dto: CreateBookingDto, userId: ObjectId, now: Time) returns (r: Result<Booking>)
      requires Valid()
      modifies this
      ensures Valid()
      ensures HasConflict(old(bookings), dto.businessId, dto.lockerNumber, dto.startTime, dto.endTime)
              ==> r == Err(LockerUnavailable)
      ensures !HasConflict(old(bookings), dto.businessId, dto.lockerNumber, dto.startTime, dto.endTime)
              && ExceedsMaxRental(dto.startTime, dto.endTime)
              ==> r == Err(DurationTooLong)
      ensures !HasConflict(old(bookings), dto.businessId, dto.lockerNumber, dto.startTime, dto.endTime)
              && !ExceedsMaxRental(dto.startTime, dto.endTime)
              ==> r == (if SatisfiesSchema(NewBooking(dto, userId, now)) then Ok(NewBooking(dto, userId, now))
                        else Err(ValidationFailed))
      ensures r.Err? ==> bookings == old(bookings) && nextId == old(nextId)
      ensures r.Ok? ==> old(nextId) !in old(bookings)
                        && bookings == old(bookings)[old(nextId) := r.value] && nextId == old(nextId) + 1
      ensures old(NoDoubleBooking(bookings)) ==> NoDoubleBooking(bookings)
    {
      var conflicting := HasConflict(bookings, dto.businessId, dto.lockerNumber, dto.startTime, dto.endTime);
      if conflicting {
        return Err(LockerUnavailable);
      }
      if ExceedsMaxRental(dto.startTime, dto.endTime) {
        return Err(DurationTooLong);
      }
      var booking := NewBooking(dto, userId, now);
      if !SatisfiesSchema(booking) {
        return Err(ValidationFailed);
      }
      if NoDoubleBooking(bookings) {
        AddingUnblockedKeepsNoDoubleBooking(bookings, nextId, booking);
      }
      bookings := bookings[nextId := booking];
      nextId := nextId + 1;
      r := Ok(booking);
    }

    /** `update`. */
    method Update(id: BookingId, patch: UpdateBookingDto, now: Time) returns (r: Result<Booking>)
      requires Valid()
      modifies this`bookings
      ensures Valid()
      ensures id !in old(bookings) ==> r == Err(NotFound)
      ensures id in old(bookings) && RedirectsActive(old(bookings)[id].status, patch) ==> r == Err(ActiveBookingLocked)
      ensures id in old(bookings) && !RedirectsActive(old(bookings)[id].status, patch)
              ==> r == Ok(ApplyPatch(old(bookings)[id], patch, now))
      ensures r.Err? ==> bookings == old(bookings)
      ensures r.Ok? ==> bookings == old(bookings)[id := r.value]
    {
      if id !in bookings {
        return Err(NotFound);
      }
      var booking := bookings[id];
      if RedirectsActive(booking.status, patch) {
        return Err(ActiveBookingLocked);
      }
      var updated := ApplyPatch(booking, patch, now);
      bookings := bookings[id := updated];
      r := Ok(updated);
    }

    /** `cancel`: ownership, then status, then the one-hour window. Only
        status and updatedAt change; cancelledAt is not set. */
    method Cancel(id: BookingId, userId: ObjectId, now: Time) returns (r: Result<Booking>)
      requires Valid()
      modifies this`bookings
      ensures Valid()
      ensures id !in old(bookings) ==> r == Err(NotFound)
      ensures id in old(bookings) ==>
        var b := old(bookings)[id];
        r == (if b.userId != userId then Err(NotOwner)
              else if IsClosed(b.status) then Err(AlreadyClosed)
              else if !CancellationWindowOpen(b, now) then Err(TooLateToCancel)
              else Ok(b.(status := Cancelled, updatedAt := now)))
      ensures r.Err? ==> bookings == old(bookings)
      ensures r.Ok? ==> bookings == old(bookings)[id := r.value]
      ensures old(NoDoubleBooking(bookings)) ==> NoDoubleBooking(bookings)
    {
      if id !in bookings {
        return Err(NotFound);
      }
      var booking := bookings[id];
      if booking.userId != userId {
        return Err(NotOwner);
      }
      if IsClosed(booking.status) {
        return Err(AlreadyClosed);
      }
      if !CancellationWindowOpen(booking, now) {
        return Err(TooLateToCancel);
      }
      var cancelled := booking.(status := Cancelled, updatedAt := now);
      if NoDoubleBooking(bookings) {
        ReleasingKeepsNoDoubleBooking(bookings, bookings[id := cancelled]);
      }
      bookings := bookings[id := cancelled];
      r := Ok(cancelled);
    }

    /** `checkExpiredBookings`: the two bulk passes, in order. */
    method CheckExpiredBookings(now: Time)
      requires Valid()
      modifies this`bookings
      ensures Valid()
      ensures bookings.Keys == old(bookings).Keys
      ensures forall k :: k in bookings ==> bookings[k] == SweepOne(old(bookings)[k], now)
      ensures old(NoDoubleBooking(bookings)) ==> NoDoubleBooking(bookings)
    {
      SweepIsPointwise(bookings, now);
      if NoDoubleBooking(bookings) {
        SweepKeepsNoDoubleBooking(bookings, now);
      }
      bookings := CompleteElapsed(bookings, now);
      bookings := CancelStalePending(bookings, now);
    }
  }
}
