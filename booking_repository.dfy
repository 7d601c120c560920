/** The booking table's queries: the overlap test guarding new bookings, the
    active bookings behind the booked-dates endpoint, and the finders by renter
    and by property. The table is a map from booking id to booking. */
module BookingRepository {
  import opened Base
  import opened Model

  /** A booking still holds its dates: its status is neither CANCELLED nor REJECTED. */
  predicate IsActive(b: Booking) {
    b.status != CANCELLED && b.status != REJECTED
  }

  /** The half-open stays [in1, out1) and [in2, out2) share a night. */
  predicate RangesOverlap(in1: int, out1: int, in2: int, out2: int) {
    in1 < out2 && in2 < out1
  }

  /** The row condition of `existsConflictingBooking` for one booking. */
  predicate ConflictsWith(b: Booking, propertyId: int, checkIn: int, checkOut: int) {
    && b.propertyId == propertyId
    && IsActive(b)
    && b.checkInDate < checkOut
    && b.checkOutDate > checkIn
  }

  /** `existsConflictingBooking`: some active booking of the property shares a
      night with the stay [checkIn, checkOut). */
  predicate ExistsConflictingBooking(bookings: map<int, Booking>, propertyId: int, checkIn: int, checkOut: int)
    ensures ExistsConflictingBooking(bookings, propertyId, checkIn, checkOut) <==>
      exists id :: id in bookings && bookings[id].propertyId == propertyId && IsActive(bookings[id])
        && RangesOverlap(bookings[id].checkInDate, bookings[id].checkOutDate, checkIn, checkOut)
  {
    exists id | id in bookings :: ConflictsWith(bookings[id], propertyId, checkIn, checkOut)
  }

  /** No two active bookings of one property share a night. */
  ghost predicate NoOverlap(bookings: map<int, Booking>) {
    forall i, j ::
      i in bookings && j in bookings && i != j
      && bookings[i].propertyId == bookings[j].propertyId
      && IsActive(bookings[i]) && IsActive(bookings[j])
      ==> !RangesOverlap(bookings[i].checkInDate, bookings[i].checkOutDate,
                         bookings[j].checkInDate, bookings[j].checkOutDate)
  }

  /** Every booking names a property of the table. */
  predicate BookingsReferToProperties(bookings: map<int, Booking>, properties: map<int, Property>) {
    forall id :: id in bookings ==> bookings[id].propertyId in properties
  }

  /** The query's condition is the half-open overlap test on an active booking
      of the same property. */
  lemma ConflictIsActiveOverlap(b: Booking, propertyId: int, checkIn: int, checkOut: int)
    ensures ConflictsWith(b, propertyId, checkIn, checkOut) <==>
      b.propertyId == propertyId && IsActive(b)
      && RangesOverlap(b.checkInDate, b.checkOutDate, checkIn, checkOut)
  {
  }

  /** Overlap does not depend on which stay is named first. */
  lemma OverlapSymmetric(in1: int, out1: int, in2: int, out2: int)
    ensures RangesOverlap(in1, out1, in2, out2) == RangesOverlap(in2, out2, in1, out1)
  {
  }

  /** The check-out day is free: back-to-back stays do not conflict. */
  lemma BackToBackNoConflict(b: Booking, checkIn: int, checkOut: int)
    requires b.checkOutDate == checkIn || checkOut == b.checkInDate
    ensures !ConflictsWith(b, b.propertyId, checkIn, checkOut)
  {
  }

  /** A booking of another property, or a cancelled or rejected one, never
      makes a difference to the conflict query. */
  lemma IrrelevantBookingNeverConflicts(bookings: map<int, Booking>, id: int, b: Booking,
                                        propertyId: int, checkIn: int, checkOut: int)
    requires id !in bookings
    requires b.propertyId != propertyId || !IsActive(b)
    ensures ExistsConflictingBooking(bookings[id := b], propertyId, checkIn, checkOut)
         == ExistsConflictingBooking(bookings, propertyId, checkIn, checkOut)
  {
    var bs := bookings[id := b];
    if ExistsConflictingBooking(bs, propertyId, checkIn, checkOut) {
      var k :| k in bs && ConflictsWith(bs[k], propertyId, checkIn, checkOut);
      assert k != id && k in bookings && bookings[k] == bs[k];
    }
    if ExistsConflictingBooking(bookings, propertyId, checkIn, checkOut) {
      var k :| k in bookings && ConflictsWith(bookings[k], propertyId, checkIn, checkOut);
      assert k in bs && bs[k] == bookings[k];
    }
  }

  /** Adding a booking that the conflict query let through keeps the ledger
      free of overlaps. */
  lemma InsertPreservesNoOverlap(bookings: map<int, Booking>, b: Booking)
    requires NoOverlap(bookings)
    requires b.id !in bookings
    requires !ExistsConflictingBooking(bookings, b.propertyId, b.checkInDate, b.checkOutDate)
    ensures NoOverlap(bookings[b.id := b])
  {
    var bs := bookings[b.id := b];
    forall i, j | i in bs && j in bs && i != j
      && bs[i].propertyId == bs[j].propertyId && IsActive(bs[i]) && IsActive(bs[j])
      ensures !RangesOverlap(bs[i].checkInDate, bs[i].checkOutDate, bs[j].checkInDate, bs[j].checkOutDate)
    {
      if i == b.id {
        assert !ConflictsWith(bookings[j], b.propertyId, b.checkInDate, b.checkOutDate);
      } else if j == b.id {
        assert !ConflictsWith(bookings[i], b.propertyId, b.checkInDate, b.checkOutDate);
      }
    }
  }

  /** Removing bookings never creates an overlap. */
  lemma SubmapPreservesNoOverlap(bookings: map<int, Booking>, kept: map<int, Booking>)
    requires NoOverlap(bookings)
    requires forall id :: id in kept ==> id in bookings && kept[id] == bookings[id]
    ensures NoOverlap(kept)
  {
  }

  /** `findActiveBookingsByPropertyId`: the property's active bookings that
      have not ended before `today`. */
  function FindActiveBookingsByPropertyId(bookings: map<int, Booking>, propertyId: int, today: int)
    : (r: map<int, Booking>)
    ensures forall id :: id in r <==>
      id in bookings && bookings[id].propertyId == propertyId
      && IsActive(bookings[id]) && bookings[id].checkOutDate >= today
    ensures forall id :: id in r ==> r[id] == bookings[id]
  {
    map id | id in bookings && bookings[id].propertyId == propertyId
             && IsActive(bookings[id]) && bookings[id].checkOutDate >= today :: bookings[id]
  }

  /** `findByUser`: the renter's bookings, whatever their status. */
  function FindByUser(bookings: map<int, Booking>, userId: int): (r: map<int, Booking>)
    ensures forall id :: id in r <==> id in bookings && bookings[id].userId == userId
    ensures forall id :: id in r ==> r[id] == bookings[id]
  {
    map id | id in bookings && bookings[id].userId == userId :: bookings[id]
  }

  /** `findByProperty`: the property's bookings, whatever their status. */
  function FindByProperty(bookings: map<int, Booking>, propertyId: int): (r: map<int, Booking>)
    ensures forall id :: id in r <==> id in bookings && bookings[id].propertyId == propertyId
    ensures forall id :: id in r ==> r[id] == bookings[id]
  {
    map id | id in bookings && bookings[id].propertyId == propertyId :: bookings[id]
  }

  /** The cascade of deleting a property: all its bookings go. */
  function RemoveBookingsOf(bookings: map<int, Booking>, propertyId: int): (r: map<int, Booking>)
    ensures forall id :: id in r <==> id in bookings && bookings[id].propertyId != propertyId
    ensures forall id :: id in r ==> r[id] == bookings[id]
  {
    map id | id in bookings && bookings[id].propertyId != propertyId :: bookings[id]
  }

  /** Each booking sits under its own id, below the table's counter, and
      checks out after it checks in. */
  predicate BookingRowsValid(bookings: map<int, Booking>, nextBookingId: int) {
    forall id :: id in bookings ==>
      bookings[id].id == id && 0 < id < nextBookingId
      && bookings[id].checkInDate < bookings[id].checkOutDate
  }

  /** The cascade keeps every remaining booking row as it was. */
  lemma CascadeKeepsBookingRows(bookings: map<int, Booking>, nextBookingId: int, propertyId: int)
    requires BookingRowsValid(bookings, nextBookingId)
    ensures BookingRowsValid(RemoveBookingsOf(bookings, propertyId), nextBookingId)
  {
  }

  /** After the cascade no remaining booking names the deleted property. */
  lemma CascadeKeepsReferences(bookings: map<int, Booking>, properties: map<int, Property>, propertyId: int)
    requires BookingsReferToProperties(bookings, properties)
    ensures BookingsReferToProperties(RemoveBookingsOf(bookings, propertyId), properties - {propertyId})
  {
  }

  /** For a request starting today or later, the conflict query and the active
      bookings reported to the calendar agree: a conflict exists exactly when
      one of those bookings overlaps the requested stay. */
  lemma ActiveBookingsDecideConflicts(bookings: map<int, Booking>, propertyId: int,
                                      checkIn: int, checkOut: int, today: int)
    requires checkIn >= today
    ensures var active := FindActiveBookingsByPropertyId(bookings, propertyId, today);
      ExistsConflictingBooking(bookings, propertyId, checkIn, checkOut) <==>
      exists id | id in active ::
        RangesOverlap(active[id].checkInDate, active[id].checkOutDate, checkIn, checkOut)
  {
    var active := FindActiveBookingsByPropertyId(bookings, propertyId, today);
    if ExistsConflictingBooking(bookings, propertyId, checkIn, checkOut) {
      var k :| k in bookings && ConflictsWith(bookings[k], propertyId, checkIn, checkOut);
      assert k in active;
    }
    if exists id | id in active ::
         RangesOverlap(active[id].checkInDate, active[id].checkOutDate, checkIn, checkOut) {
      var k :| k in active
        && RangesOverlap(active[k].checkInDate, active[k].checkOutDate, checkIn, checkOut);
      assert ConflictsWith(bookings[k], propertyId, checkIn, checkOut);
    }
  }
}
