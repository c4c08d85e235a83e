/** Clients of the booking service that follow a short history of calls and
    state what the contracts alone let a caller conclude. */
module Scenarios {
  import opened Outcomes
  import opened BookingSchema
  import opened Bookings

  const Hour: int := 60 * 60 * 1000
  const Minute: int := 60 * 1000

  function Request(locker: int, fromHour: int, toHour: int): CreateBookingDto
  {
    CreateBookingDto(7, locker, fromHour * Hour, toHour * Hour, 2.0, None, Some(10.0))
  }

  /** Two lockers of one business: the second request on locker 1 overlaps
      the first and is refused, the same request on locker 2 succeeds, and
      the table then holds exactly the two accepted bookings. */
  method TwoLockerScenario()
  {
    var service := new BookingsService();
    var first := service.Create(Request(1, 10, 12), 100, 0);
    assert first == Ok(NewBooking(Request(1, 10, 12), 100, 0)) by {
      assert !HasConflict(map[], 7, 1, 10 * Hour, 12 * Hour);
    }
    var tables := service.bookings;
    var clash := service.Create(Request(1, 11, 13), 101, 0);
    assert HasConflict(tables, 7, 1, 11 * Hour, 13 * Hour) by {
      StoredBookingBlocks(tables, 0, 11 * Hour, 13 * Hour);
    }
    assert clash == Err(LockerUnavailable);
    var second := service.Create(Request(2, 11, 13), 101, 0);
    assert second == Ok(NewBooking(Request(2, 11, 13), 101, 0)) by {
      assert forall k :: k in tables ==> tables[k].lockerNumber == 1;
    }
    assert service.bookings == TwoLockerTable();
  }

  /** The table the scenario above ends with. */
  function TwoLockerTable(): map<BookingId, Booking>
  {
    map[0 := NewBooking(Request(1, 10, 12), 100, 0), 1 := NewBooking(Request(2, 11, 13), 101, 0)]
  }

  /** A quarter hour inside both bookings leaves neither of their lockers
      available, and the next locker is. */
  lemma QuarterHourInsideBothBookings()
    ensures var free := GetAvailableLockers(TwoLockerTable(), 7, 11 * Hour + 30 * Minute, 11 * Hour + 45 * Minute);
            1 !in free && 2 !in free && 3 in free
  {
    var t := TwoLockerTable();
    StoredBookingBlocks(t, 0, 11 * Hour + 30 * Minute, 11 * Hour + 45 * Minute);
    StoredBookingBlocks(t, 1, 11 * Hour + 30 * Minute, 11 * Hour + 45 * Minute);
  }

  /** A booking left pending at time t: a sweep 14 minutes later keeps it
      pending, one 16 minutes later cancels it. */
  lemma StalePendingScenario(b: Booking, t: Time)
    requires b.status == Pending && b.createdAt == t
    ensures SweepOne(b, t + 14 * Minute) == b
    ensures SweepOne(b, t + 16 * Minute).status == Cancelled
  {
  }
}
