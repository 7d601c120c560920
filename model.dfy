/** The persistent entities: users, properties, property images and bookings.
    References between entities are by id (a booking names its property and
    its renter, a property its agent, an image its property). */
module Model {
  import opened Base

  /** Spring Security's prefix for authority names. */
  const RolePrefix := "ROLE_"
  const RoleAdmin := "ROLE_ADMIN"
  const RoleAgent := "ROLE_AGENT"
  const RoleUser := "ROLE_USER"

  /** A user account; `role` is the name of its role (e.g. "ROLE_AGENT"). */
  datatype User = User(
    id: int,
    firstName: string,
    lastName: string,
    email: string,
    phone: Option<string>,
    password: string,
    role: string,
    active: bool,
    createdAt: int)

  /** A listing. The nullable `Integer` columns are options; `agentId` is the
      owning agent. Its images and bookings are rows of their own tables. */
  datatype Property = Property(
    id: int,
    title: string,
    description: Option<string>,
    address: string,
    city: string,
    country: string,
    propertyType: string,
    pricePerNight: real,
    bedrooms: Option<int>,
    bathrooms: Option<int>,
    maxGuests: Option<int>,
    available: bool,
    agentId: int,
    createdAt: int)

  /** The builder default of `available`. */
  const DefaultAvailable := true

  datatype PropertyImage = PropertyImage(id: int, propertyId: int, imageUrl: string, isMain: bool)

  datatype BookingStatus = PENDING | CONFIRMED | CANCELLED | REJECTED

  /** The builder default of a booking's status. */
  const DefaultBookingStatus := PENDING

  /** A reservation. Dates are day numbers; the stay is [checkInDate, checkOutDate). */
  datatype Booking = Booking(
    id: int,
    propertyId: int,
    userId: int,
    checkInDate: int,
    checkOutDate: int,
    guests: int,
    totalPrice: real,
    specialRequests: Option<string>,
    status: BookingStatus,
    createdAt: int)

  /** The status column holds the enum constant's name. */
  function StatusName(st: BookingStatus): string {
    match st
    case PENDING => "PENDING"
    case CONFIRMED => "CONFIRMED"
    case CANCELLED => "CANCELLED"
    case REJECTED => "REJECTED"
  }

  /** Reading a status column back (`BookingStatus.valueOf`). */
  function StatusFromName(name: string): Option<BookingStatus> {
    if name == "PENDING" then Some(PENDING)
    else if name == "CONFIRMED" then Some(CONFIRMED)
    else if name == "CANCELLED" then Some(CANCELLED)
    else if name == "REJECTED" then Some(REJECTED)
    else None
  }

  /** A status stored by name reads back as the same status ... */
  lemma StatusNameRoundTrip(st: BookingStatus)
    ensures StatusFromName(StatusName(st)) == Some(st)
  {
  }

  /** ... and only the four enum names are readable, each as its own status. */
  lemma StatusFromNameExact(name: string, st: BookingStatus)
    ensures StatusFromName(name) == Some(st) <==> name == StatusName(st)
  {
  }
}
