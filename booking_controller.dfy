/** The booking endpoints under /api/bookings and the role each one demands
    before the service runs. */
module BookingController {
  import opened Model
  import opened Security

  /** One stay reported to the calendar, check-out day exclusive. */
  datatype BookedDateRange = BookedDateRange(checkIn: int, checkOut: int)

  datatype Endpoint =
    | CreateBooking       // POST   /api/bookings
    | GetMyBookings       // GET    /api/bookings/my-bookings
    | GetBookingById      // GET    /api/bookings/{id}
    | CancelBooking       // PATCH  /api/bookings/{id}/cancel
    | GetBookedDates      // GET    /api/bookings/property/{propertyId}/booked-dates
    | GetByProperty       // GET    /api/bookings/property/{propertyId}
    | ConfirmBooking      // PATCH  /api/bookings/{id}/confirm
    | RejectBooking       // PATCH  /api/bookings/{id}/reject
    | GetAllBookings      // GET    /api/bookings
    | DeleteBooking       // DELETE /api/bookings/{id}

  /** The endpoint's `@PreAuthorize` expression admits the caller. Seen per
      role: an admin passes every gate; an agent is kept from creating,
      cancelling, listing all and deleting; a plain user reaches only the
      renter's endpoints. */
  function Permits(e: Endpoint, p: Principal): (r: bool)
    ensures r ==> IsAuthenticated(p)
    ensures p.Authenticated? && p.authority == RoleAdmin ==> r
    ensures p.Authenticated? && p.authority == RoleAgent ==>
      (r <==> e !in {CreateBooking, CancelBooking, GetAllBookings, DeleteBooking})
    ensures p.Authenticated? && p.authority == RoleUser ==>
      (r <==> e in {CreateBooking, GetMyBookings, GetBookingById, CancelBooking, GetBookedDates})
  {
    GrantedRoleNames();
    match e
    case CreateBooking => HasAnyRole(p, "USER", "ADMIN")
    case GetMyBookings => IsAuthenticated(p)
    case GetBookingById => IsAuthenticated(p)
    case CancelBooking => HasAnyRole(p, "USER", "ADMIN")
    case GetBookedDates => IsAuthenticated(p)
    case GetByProperty => HasAnyRole(p, "ADMIN", "AGENT")
    case ConfirmBooking => HasAnyRole(p, "ADMIN", "AGENT")
    case RejectBooking => HasAnyRole(p, "ADMIN", "AGENT")
    case GetAllBookings => HasRole(p, "ADMIN")
    case DeleteBooking => HasRole(p, "ADMIN")
  }
}
