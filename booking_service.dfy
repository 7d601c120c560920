/** The booking ledger: creating a booking behind its admission checks, the
    status transitions, deletion, the access checks and the read queries.
    The caller is an explicit actor id; the current day is a parameter. */
module BookingService {
  import opened Base
  import opened Strings
  import opened Model
  import opened BookingRepository
  import opened Persistence
  import Requests
  import UserService
  import BookingController

  const PropertyNotFoundMessage := "Property not found"
  const NotAvailableMessage := "Property is not available for booking"
  const DatesOutOfOrderMessage := "Check-out date must be after check-in date"
  const AlreadyBookedMessage := "Property is already booked for the selected dates"
  const AlreadyCancelledMessage := "Booking is already cancelled"
  const CannotCancelConfirmedMessage := "Cannot cancel a confirmed booking. Contact support."
  const AccessDeniedToBookingMessage := "Access denied to this booking"
  const AgentOrAdminOnlyMessage := "Only the property agent or admin can perform this action"
  /** Stands for the runtime exception a null id, date or guest limit raises. */
  const NullValueMessage := "null value"

  function GuestsExceedMessage(maxGuests: int): string {
    "Guest count exceeds property maximum of " + IntToString(maxGuests)
  }

  function BookingNotFoundMessage(id: int): string {
    "Booking not found with id: " + IntToString(id)
  }

  /** The price snapshot: nights times the nightly price. */
  function TotalPrice(checkIn: int, checkOut: int, pricePerNight: real): (r: real)
    ensures checkIn < checkOut && pricePerNight > 0.0 ==> r > 0.0
    ensures checkIn == checkOut ==> r == 0.0
  {
    (checkOut - checkIn) as real * pricePerNight
  }

  /** Splitting a stay at any day splits its price. */
  lemma TotalPriceSplits(checkIn: int, middle: int, checkOut: int, pricePerNight: real)
    ensures TotalPrice(checkIn, checkOut, pricePerNight)
         == TotalPrice(checkIn, middle, pricePerNight) + TotalPrice(middle, checkOut, pricePerNight)
  {
  }

  /** The agent of the booking's property. */
  function AgentOf(properties: map<int, Property>, b: Booking): int
    requires b.propertyId in properties
  {
    properties[b.propertyId].agentId
  }

  // ------------------------------------------------------------ access checks

  /** `checkAccessToBooking`: admins, the renter and the property's agent. */
  function CheckAccessToBooking(users: map<int, User>, actorId: int, b: Booking, agentId: int): (r: Outcome)
    ensures r == Pass <==>
      actorId in users && (users[actorId].role == RoleAdmin || b.userId == actorId || agentId == actorId)
    ensures actorId !in users ==> r == Fail(ResourceNotFound(UserService.AuthenticatedUserNotFound))
    ensures actorId in users && r.Fail? ==> r.error == AccessDenied(AccessDeniedToBookingMessage)
  {
    match UserService.AuthenticatedUser(users, actorId)
    case Err(e) => Fail(e)
    case Ok(current) =>
      var isAdmin := current.role == RoleAdmin;
      var isOwner := b.userId == actorId;
      var isPropertyAgent := agentId == actorId;
      if !isAdmin && !isOwner && !isPropertyAgent then Fail(AccessDenied(AccessDeniedToBookingMessage))
      else Pass
  }

  /** `checkAgentOrAdminAccess`: admins and the property's agent only. */
  function CheckAgentOrAdminAccess(users: map<int, User>, actorId: int, agentId: int): (r: Outcome)
    ensures r == Pass <==> actorId in users && (users[actorId].role == RoleAdmin || agentId == actorId)
    ensures actorId !in users ==> r == Fail(ResourceNotFound(UserService.AuthenticatedUserNotFound))
    ensures actorId in users && r.Fail? ==> r.error == AccessDenied(AgentOrAdminOnlyMessage)
  {
    match UserService.AuthenticatedUser(users, actorId)
    case Err(e) => Fail(e)
    case Ok(current) =>
      var isAdmin := current.role == RoleAdmin;
      var isPropertyAgent := agentId == actorId;
      if !isAdmin && !isPropertyAgent then Fail(AccessDenied(AgentOrAdminOnlyMessage)) else Pass
  }

  /** Whoever passes the agent-or-admin check also passes the general one;
      the renter passes only the general one. */
  lemma AgentOrAdminAccessIsNarrower(users: map<int, User>, actorId: int, b: Booking, agentId: int)
    ensures CheckAgentOrAdminAccess(users, actorId, agentId) == Pass ==>
            CheckAccessToBooking(users, actorId, b, agentId) == Pass
    ensures actorId in users && users[actorId].role != RoleAdmin && agentId != actorId && b.userId == actorId ==>
            CheckAccessToBooking(users, actorId, b, agentId) == Pass
            && CheckAgentOrAdminAccess(users, actorId, agentId) != Pass
  {
  }

  // -------------------------------------------------------- status machine

  /** The status change `cancelBooking` makes, or why it refuses. */
  function CancelTransition(st: BookingStatus): (r: Result<BookingStatus>)
    ensures r.Ok? <==> st == PENDING || st == REJECTED
    ensures r.Ok? ==> r.value == CANCELLED
    ensures st == CANCELLED ==> r == Err(BadRequest(AlreadyCancelledMessage))
    ensures st == CONFIRMED ==> r == Err(BadRequest(CannotCancelConfirmedMessage))
  {
    match st
    case CANCELLED => Err(BadRequest(AlreadyCancelledMessage))
    case CONFIRMED => Err(BadRequest(CannotCancelConfirmedMessage))
    case PENDING => Ok(CANCELLED)
    case REJECTED => Ok(CANCELLED)
  }

  /** Taking a booking out of the active set keeps the ledger free of overlaps. */
  lemma DeactivatePreservesNoOverlap(bookings: map<int, Booking>, id: int, st: BookingStatus)
    requires NoOverlap(bookings)
    requires id in bookings
    requires st == CANCELLED || st == REJECTED
    ensures NoOverlap(bookings[id := bookings[id].(status := st)])
  {
    var bs := bookings[id := bookings[id].(status := st)];
    forall i, j | i in bs && j in bs && i != j
      && bs[i].propertyId == bs[j].propertyId && IsActive(bs[i]) && IsActive(bs[j])
      ensures !RangesOverlap(bs[i].checkInDate, bs[i].checkOutDate, bs[j].checkInDate, bs[j].checkOutDate)
    {
      assert i != id && j != id;
      assert bs[i] == bookings[i] && bs[j] == bookings[j];
    }
  }

  /** Confirming keeps the ledger free of overlaps exactly when the booking
      was still active, or no other active booking of its property overlaps
      its stay. */
  lemma ConfirmPreservesNoOverlapIff(bookings: map<int, Booking>, id: int)
    requires NoOverlap(bookings)
    requires id in bookings
    ensures var b := bookings[id];
      NoOverlap(bookings[id := b.(status := CONFIRMED)]) <==>
      IsActive(b) || !ExistsConflictingBooking(bookings - {id}, b.propertyId, b.checkInDate, b.checkOutDate)
  {
    var b := bookings[id];
    var bs := bookings[id := b.(status := CONFIRMED)];
    var others := bookings - {id};
    if IsActive(b) || !ExistsConflictingBooking(others, b.propertyId, b.checkInDate, b.checkOutDate) {
      forall i, j | i in bs && j in bs && i != j
        && bs[i].propertyId == bs[j].propertyId && IsActive(bs[i]) && IsActive(bs[j])
        ensures !RangesOverlap(bs[i].checkInDate, bs[i].checkOutDate, bs[j].checkInDate, bs[j].checkOutDate)
      {
        if i == id && !IsActive(b) {
          assert j in others && !ConflictsWith(others[j], b.propertyId, b.checkInDate, b.checkOutDate);
        } else if j == id && !IsActive(b) {
          assert i in others && !ConflictsWith(others[i], b.propertyId, b.checkInDate, b.checkOutDate);
        } else {
          assert IsActive(bookings[i]) && IsActive(bookings[j]);
        }
      }
    } else {
      var k :| k in others && ConflictsWith(others[k], b.propertyId, b.checkInDate, b.checkOutDate);
      assert k in bs && k != id && bs[k] == bookings[k];
      assert !NoOverlap(bs) by {
        assert RangesOverlap(bs[id].checkInDate, bs[id].checkOutDate, bs[k].checkInDate, bs[k].checkOutDate);
      }
    }
  }

  /** As written, confirming a cancelled booking whose dates were taken again
      puts two active bookings on the same nights. */
  lemma ConfirmCanBreakNoOverlap()
    ensures var cancelled := Booking(1, 7, 3, 10, 15, 2, 500.0, None, CANCELLED, 0);
            var pending := Booking(2, 7, 4, 12, 14, 2, 200.0, None, PENDING, 1);
            var bookings := map[1 := cancelled, 2 := pending];
      NoOverlap(bookings) && !NoOverlap(bookings[1 := cancelled.(status := CONFIRMED)])
  {
    var cancelled := Booking(1, 7, 3, 10, 15, 2, 500.0, None, CANCELLED, 0);
    var pending := Booking(2, 7, 4, 12, 14, 2, 200.0, None, PENDING, 1);
    var bookings := map[1 := cancelled, 2 := pending];
    assert NoOverlap(bookings) by {
      assert forall i :: i in bookings ==> i == 1 || i == 2;
      assert !IsActive(bookings[1]);
    }
    var after := bookings[1 := cancelled.(status := CONFIRMED)];
    assert 1 in after && 2 in after && after[2] == pending;
    assert after[1].propertyId == after[2].propertyId && IsActive(after[1]) && IsActive(after[2]);
    assert RangesOverlap(after[1].checkInDate, after[1].checkOutDate, after[2].checkInDate, after[2].checkOutDate);
  }

  // ------------------------------------------------------------------ reads

  /** `getBookedDateRanges`: the stays of the property's active bookings that
      have not ended before today. */
  function GetBookedDateRanges(bookings: map<int, Booking>, propertyId: int, today: int)
    : (r: set<BookingController.BookedDateRange>)
    ensures forall x :: x in r <==>
      exists id :: id in bookings && bookings[id].propertyId == propertyId
        && IsActive(bookings[id]) && bookings[id].checkOutDate >= today
        && x == BookingController.BookedDateRange(bookings[id].checkInDate, bookings[id].checkOutDate)
  {
    var active := FindActiveBookingsByPropertyId(bookings, propertyId, today);
    set id | id in active :: BookingController.BookedDateRange(active[id].checkInDate, active[id].checkOutDate)
  }

  /** On an overlap-free ledger the calendar's ranges are pairwise disjoint. */
  lemma BookedDateRangesDisjoint(bookings: map<int, Booking>, propertyId: int, today: int)
    requires NoOverlap(bookings)
    ensures var ranges := GetBookedDateRanges(bookings, propertyId, today);
      forall x, y :: x in ranges && y in ranges && x != y ==>
        !RangesOverlap(x.checkIn, x.checkOut, y.checkIn, y.checkOut)
  {
    var ranges := GetBookedDateRanges(bookings, propertyId, today);
    var active := FindActiveBookingsByPropertyId(bookings, propertyId, today);
    forall x, y | x in ranges && y in ranges && x != y
      ensures !RangesOverlap(x.checkIn, x.checkOut, y.checkIn, y.checkOut)
    {
      var i :| i in active && x == BookingController.BookedDateRange(active[i].checkInDate, active[i].checkOutDate);
      var j :| j in active && y == BookingController.BookedDateRange(active[j].checkInDate, active[j].checkOutDate);
      assert i != j;
    }
  }

  /** A stay starting today or later is refused by the conflict query exactly
      when it overlaps one of the ranges the calendar reports. */
  lemma BookedDateRangesDecideConflicts(bookings: map<int, Booking>, propertyId: int,
                                        checkIn: int, checkOut: int, today: int)
    requires checkIn >= today
    ensures var ranges := GetBookedDateRanges(bookings, propertyId, today);
      ExistsConflictingBooking(bookings, propertyId, checkIn, checkOut) <==>
      exists x | x in ranges :: RangesOverlap(x.checkIn, x.checkOut, checkIn, checkOut)
  {
    var ranges := GetBookedDateRanges(bookings, propertyId, today);
    var active := FindActiveBookingsByPropertyId(bookings, propertyId, today);
    ActiveBookingsDecideConflicts(bookings, propertyId, checkIn, checkOut, today);
    if exists id | id in active ::
         RangesOverlap(active[id].checkInDate, active[id].checkOutDate, checkIn, checkOut) {
      var k :| k in active
        && RangesOverlap(active[k].checkInDate, active[k].checkOutDate, checkIn, checkOut);
      assert BookingController.BookedDateRange(active[k].checkInDate, active[k].checkOutDate) in ranges;
    }
    if exists x | x in ranges :: RangesOverlap(x.checkIn, x.checkOut, checkIn, checkOut) {
      var x :| x in ranges && RangesOverlap(x.checkIn, x.checkOut, checkIn, checkOut);
      var k :| k in active && x == BookingController.BookedDateRange(active[k].checkInDate, active[k].checkOutDate);
      assert RangesOverlap(active[k].checkInDate, active[k].checkOutDate, checkIn, checkOut);
    }
  }

  /** `getBookingsByCurrentUser`: the actor's own bookings. */
  function GetBookingsByCurrentUser(users: map<int, User>, bookings: map<int, Booking>, actorId: int)
    : (r: Result<map<int, Booking>>)
    ensures r.Err? <==> actorId !in users
    ensures r.Err? ==> r.error == ResourceNotFound(UserService.AuthenticatedUserNotFound)
    ensures r.Ok? ==> forall id :: id in r.value <==> id in bookings && bookings[id].userId == actorId
    ensures r.Ok? ==> forall id :: id in r.value ==> r.value[id] == bookings[id]
  {
    match UserService.AuthenticatedUser(users, actorId)
    case Err(e) => Err(e)
    case Ok(u) => Ok(FindByUser(bookings, actorId))
  }

  /** `getBookingsByProperty`: all bookings of a stored property, with no
      ownership check. */
  function GetBookingsByProperty(properties: map<int, Property>, bookings: map<int, Booking>, propertyId: int)
    : (r: Result<map<int, Booking>>)
    ensures propertyId !in properties ==> r == Err(ResourceNotFound(PropertyNotFoundMessage))
    ensures propertyId in properties ==>
      r.Ok? && (forall id :: id in r.value <==> id in bookings && bookings[id].propertyId == propertyId)
    ensures r.Ok? ==> forall id :: id in r.value ==> r.value[id] == bookings[id]
  {
    if propertyId !in properties then Err(ResourceNotFound(PropertyNotFoundMessage))
    else Ok(FindByProperty(bookings, propertyId))
  }

  /** `getBookingById`: the booking, if the actor may see it. */
  function GetBookingById(users: map<int, User>, properties: map<int, Property>,
                          bookings: map<int, Booking>, actorId: int, id: int): (r: Result<Booking>)
    requires BookingsReferToProperties(bookings, properties)
    ensures id !in bookings ==> r == Err(ResourceNotFound(BookingNotFoundMessage(id)))
    ensures id in bookings ==>
      (r.Ok? <==> CheckAccessToBooking(users, actorId, bookings[id], AgentOf(properties, bookings[id])) == Pass)
    ensures id in bookings && r.Err? ==>
      r.error == CheckAccessToBooking(users, actorId, bookings[id], AgentOf(properties, bookings[id])).error
    ensures r.Ok? ==> r.value == bookings[id]
  {
    if id !in bookings then Err(ResourceNotFound(BookingNotFoundMessage(id)))
    else
      var b := bookings[id];
      match CheckAccessToBooking(users, actorId, b, AgentOf(properties, b))
      case Fail(e) => Err(e)
      case Pass => Ok(b)
  }

  /** The booking as the API reports it. */
  datatype BookingResponse = BookingResponse(
    id: int,
    propertyId: int,
    propertyTitle: string,
    propertyCity: string,
    userId: int,
    userName: string,
    checkInDate: int,
    checkOutDate: int,
    guests: int,
    totalPrice: real,
    status: string,
    specialRequests: Option<string>,
    createdAt: int)

  /** `toResponse`, given the booking's property and renter. */
  function ToResponse(b: Booking, p: Property, renter: User): (r: BookingResponse)
    requires p.id == b.propertyId && renter.id == b.userId
    ensures StatusFromName(r.status) == Some(b.status)
    ensures r.id == b.id && r.propertyId == b.propertyId && r.userId == b.userId
  {
    BookingResponse(b.id, p.id, p.title, p.city, renter.id, renter.firstName + " " + renter.lastName,
                    b.checkInDate, b.checkOutDate, b.guests, b.totalPrice, StatusName(b.status),
                    b.specialRequests, b.createdAt)
  }

  // ----------------------------------------------------------------- writes

  /** `createBooking`. The checks run in order and the first failure is the
      result, with nothing stored; a request that passes them is stored as a
      PENDING booking of the actor, priced at nights times price. */
  method CreateBooking(s: Store, actorId: int, req: Requests.BookingRequest, createdAt: int)
    returns (r: Result<Booking>)
    requires s.Valid()
    modifies s`bookings, s`nextBookingId
    ensures s.Valid()
    ensures actorId !in old(s.users) ==> r == Err(ResourceNotFound(UserService.AuthenticatedUserNotFound))
    ensures actorId in old(s.users) && req.propertyId.None? ==> r == Err(Unexpected(NullValueMessage))
    ensures actorId in old(s.users) && req.propertyId.Some? && req.propertyId.value !in old(s.properties) ==>
      r == Err(ResourceNotFound(PropertyNotFoundMessage))
    ensures actorId in old(s.users) && req.propertyId.Some? && req.propertyId.value in old(s.properties) ==>
      var p := old(s.properties)[req.propertyId.value];
      if !p.available then r == Err(BadRequest(NotAvailableMessage))
      else if req.checkInDate.None? || req.checkOutDate.None? then r == Err(Unexpected(NullValueMessage))
      else
        var checkIn, checkOut := req.checkInDate.value, req.checkOutDate.value;
        if checkOut <= checkIn then r == Err(BadRequest(DatesOutOfOrderMessage))
        else if p.maxGuests.None? then r == Err(Unexpected(NullValueMessage))
        else if req.guests > p.maxGuests.value then r == Err(BadRequest(GuestsExceedMessage(p.maxGuests.value)))
        else if ExistsConflictingBooking(old(s.bookings), p.id, checkIn, checkOut) then
          r == Err(BadRequest(AlreadyBookedMessage))
        else r == Ok(Booking(old(s.nextBookingId), p.id, actorId, checkIn, checkOut, req.guests,
                             TotalPrice(checkIn, checkOut, p.pricePerNight), req.specialRequests,
                             DefaultBookingStatus, createdAt))
    ensures r.Err? ==> s.bookings == old(s.bookings) && s.nextBookingId == old(s.nextBookingId)
    ensures r.Ok? ==>
      && r.value.id !in old(s.bookings) && r.value.status == PENDING
      && s.bookings == old(s.bookings)[r.value.id := r.value]
      && s.nextBookingId == old(s.nextBookingId) + 1
    ensures NoOverlap(old(s.bookings)) ==> NoOverlap(s.bookings)
  {
    var found := UserService.AuthenticatedUser(s.users, actorId);
    if found.Err? {
      return Err(found.error);
    }
    if req.propertyId.None? {
      return Err(Unexpected(NullValueMessage));
    }
    if req.propertyId.value !in s.properties {
      return Err(ResourceNotFound(PropertyNotFoundMessage));
    }
    var property := s.properties[req.propertyId.value];
    assert property.id == req.propertyId.value;
    if !property.available {
      return Err(BadRequest(NotAvailableMessage));
    }
    if req.checkInDate.None? || req.checkOutDate.None? {
      return Err(Unexpected(NullValueMessage));
    }
    var checkIn, checkOut := req.checkInDate.value, req.checkOutDate.value;
    if !(checkOut > checkIn) {
      return Err(BadRequest(DatesOutOfOrderMessage));
    }
    if property.maxGuests.None? {
      return Err(Unexpected(NullValueMessage));
    }
    if req.guests > property.maxGuests.value {
      return Err(BadRequest(GuestsExceedMessage(property.maxGuests.value)));
    }
    var hasConflict := ExistsConflictingBooking(s.bookings, property.id, checkIn, checkOut);
    if hasConflict {
      return Err(BadRequest(AlreadyBookedMessage));
    }
    var totalPrice := TotalPrice(checkIn, checkOut, property.pricePerNight);
    var booking := Booking(s.nextBookingId, property.id, actorId, checkIn, checkOut, req.guests,
                           totalPrice, req.specialRequests, DefaultBookingStatus, createdAt);
    if NoOverlap(s.bookings) {
      InsertPreservesNoOverlap(s.bookings, booking);
    }
    s.bookings := s.bookings[booking.id := booking];
    s.nextBookingId := s.nextBookingId + 1;
    r := Ok(booking);
  }

  /** `cancelBooking`: after the access check, PENDING and (as written)
      REJECTED bookings become CANCELLED; only the status changes. */
  method CancelBooking(s: Store, actorId: int, id: int) returns (r: Result<Booking>)
    requires s.Valid()
    modifies s`bookings
    ensures s.Valid()
    ensures id !in old(s.bookings) ==> r == Err(ResourceNotFound(BookingNotFoundMessage(id)))
    ensures id in old(s.bookings) ==>
      var b := old(s.bookings)[id];
      var access := CheckAccessToBooking(s.users, actorId, b, AgentOf(s.properties, b));
      && (access.Fail? ==> r == Err(access.error))
      && (access.Pass? ==> match CancelTransition(b.status)
                           case Err(e) => r == Err(e)
                           case Ok(st) => r == Ok(b.(status := st)))
    ensures r.Err? ==> s.bookings == old(s.bookings)
    ensures r.Ok? ==> s.bookings == old(s.bookings)[id := r.value]
    ensures NoOverlap(old(s.bookings)) ==> NoOverlap(s.bookings)
  {
    if id !in s.bookings {
      return Err(ResourceNotFound(BookingNotFoundMessage(id)));
    }
    var booking := s.bookings[id];
    var access := CheckAccessToBooking(s.users, actorId, booking, AgentOf(s.properties, booking));
    if access.Fail? {
      return Err(access.error);
    }
    var next := CancelTransition(booking.status);
    if next.Err? {
      return Err(next.error);
    }
    if NoOverlap(s.bookings) {
      DeactivatePreservesNoOverlap(s.bookings, id, CANCELLED);
    }
    var updated := booking.(status := next.value);
    s.bookings := s.bookings[id := updated];
    r := Ok(updated);
  }

  /** `confirmBooking`: after the agent-or-admin check the status becomes
      CONFIRMED, whatever it was; only the status changes. */
  method ConfirmBooking(s: Store, actorId: int, id: int) returns (r: Result<Booking>)
    requires s.Valid()
    modifies s`bookings
    ensures s.Valid()
    ensures id !in old(s.bookings) ==> r == Err(ResourceNotFound(BookingNotFoundMessage(id)))
    ensures id in old(s.bookings) ==>
      var b := old(s.bookings)[id];
      var access := CheckAgentOrAdminAccess(s.users, actorId, AgentOf(s.properties, b));
      && (access.Fail? ==> r == Err(access.error))
      && (access.Pass? ==> r == Ok(b.(status := CONFIRMED)))
    ensures r.Err? ==> s.bookings == old(s.bookings)
    ensures r.Ok? ==> s.bookings == old(s.bookings)[id := r.value]
  {
    if id !in s.bookings {
      return Err(ResourceNotFound(BookingNotFoundMessage(id)));
    }
    var booking := s.bookings[id];
    var access := CheckAgentOrAdminAccess(s.users, actorId, AgentOf(s.properties, booking));
    if access.Fail? {
      return Err(access.error);
    }
    var updated := booking.(status := CONFIRMED);
    s.bookings := s.bookings[id := updated];
    r := Ok(updated);
  }

  /** `rejectBooking`: after the agent-or-admin check the status becomes
      REJECTED, whatever it was; only the status changes. */
  method RejectBooking(s: Store, actorId: int, id: int) returns (r: Result<Booking>)
    requires s.Valid()
    modifies s`bookings
    ensures s.Valid()
    ensures id !in old(s.bookings) ==> r == Err(ResourceNotFound(BookingNotFoundMessage(id)))
    ensures id in old(s.bookings) ==>
      var b := old(s.bookings)[id];
      var access := CheckAgentOrAdminAccess(s.users, actorId, AgentOf(s.properties, b));
      && (access.Fail? ==> r == Err(access.error))
      && (access.Pass? ==> r == Ok(b.(status := REJECTED)))
    ensures r.Err? ==> s.bookings == old(s.bookings)
    ensures r.Ok? ==> s.bookings == old(s.bookings)[id := r.value]
    ensures NoOverlap(old(s.bookings)) ==> NoOverlap(s.bookings)
  {
    if id !in s.bookings {
      return Err(ResourceNotFound(BookingNotFoundMessage(id)));
    }
    var booking := s.bookings[id];
    var access := CheckAgentOrAdminAccess(s.users, actorId, AgentOf(s.properties, booking));
    if access.Fail? {
      return Err(access.error);
    }
    if NoOverlap(s.bookings) {
      DeactivatePreservesNoOverlap(s.bookings, id, REJECTED);
    }
    var updated := booking.(status := REJECTED);
    s.bookings := s.bookings[id := updated];
    r := Ok(updated);
  }

  /** `deleteBooking`: removes the booking whatever its status. */
  method DeleteBooking(s: Store, id: int) returns (r: Outcome)
    requires s.Valid()
    modifies s`bookings
    ensures s.Valid()
    ensures id !in old(s.bookings) ==>
      r == Fail(ResourceNotFound(BookingNotFoundMessage(id))) && s.bookings == old(s.bookings)
    ensures id in old(s.bookings) ==> r == Pass && s.bookings == old(s.bookings) - {id}
    ensures NoOverlap(old(s.bookings)) ==> NoOverlap(s.bookings)
  {
    if id !in s.bookings {
      return Fail(ResourceNotFound(BookingNotFoundMessage(id)));
    }
    if NoOverlap(s.bookings) {
      SubmapPreservesNoOverlap(s.bookings, s.bookings - {id});
    }
    s.bookings := s.bookings - {id};
    r := Pass;
  }
}
