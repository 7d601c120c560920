/** The request bodies and the Bean Validation constraints declared on their
    fields. A violated constraint yields a field error carrying the
    constraint's default message. */
module Requests {
  import opened Base
  import opened Strings

  datatype FieldError = FieldError(field: string, message: string)

  /** The fields an error list reports. */
  function FieldsOf(errors: seq<FieldError>): set<string> {
    set e | e in errors :: e.field
  }

  /** `{field}` when its check fails, otherwise nothing. */
  function Flag(field: string, failed: bool): set<string> {
    if failed then {field} else {}
  }

  lemma FieldsOfConcat(a: seq<FieldError>, b: seq<FieldError>)
    ensures FieldsOf(a + b) == FieldsOf(a) + FieldsOf(b)
  {
    assert forall e :: e in a + b <==> e in a || e in b;
  }

  /** No two errors of the list are about the same field. */
  predicate FieldsDistinct(errors: seq<FieldError>) {
    forall i, j :: 0 <= i < j < |errors| ==> errors[i].field != errors[j].field
  }

  lemma DistinctConcat(a: seq<FieldError>, b: seq<FieldError>)
    requires FieldsDistinct(a) && FieldsDistinct(b) && FieldsOf(a) !! FieldsOf(b)
    ensures FieldsDistinct(a + b)
  {
    forall i, j | 0 <= i < j < |a + b|
      ensures (a + b)[i].field != (a + b)[j].field
    {
      if i < |a| && j >= |a| {
        assert (a + b)[i] == a[i] && a[i].field in FieldsOf(a);
        assert (a + b)[j] == b[j - |a|] && b[j - |a|].field in FieldsOf(b);
      }
    }
  }

  /** The error list of one field: a single error when its check fails. */
  function Violation(field: string, failed: bool, message: string): (v: seq<FieldError>)
    ensures FieldsOf(v) == Flag(field, failed)
    ensures |v| <= 1
  {
    var v := if failed then [FieldError(field, message)] else [];
    assert failed ==> v[0] in v;
    v
  }

  const MustNotBeNull := "must not be null"
  const MustNotBeBlank := "must not be blank"
  const MustBePositive := "must be greater than 0"
  const MustBeFutureOrPresent := "must be a date in the present or in the future"
  const MustBeFuture := "must be a future date"

  function MinMessage(bound: int): string {
    "must be greater than or equal to " + IntToString(bound)
  }

  /** `@NotBlank` fails on null and on text made only of characters up to
      U+0020 (what `trim` removes). */
  predicate IsBlank(s: Option<string>) {
    s.None? || forall i :: 0 <= i < |s.value| ==> s.value[i] <= ' '
  }

  // ---------------------------------------------------------------- bookings

  /** A booking request. Dates are day numbers. */
  datatype BookingRequest = BookingRequest(
    propertyId: Option<int>,
    checkInDate: Option<int>,
    checkOutDate: Option<int>,
    guests: int,
    specialRequests: Option<string>)

  /** The field initialiser of `guests`. */
  const DefaultGuests := 1

  /** A request object before any JSON field has been bound to it. */
  const EmptyBookingRequest := BookingRequest(None, None, None, DefaultGuests, None)

  /** The fields the service dereferences are present. */
  predicate BookingRequestBound(r: BookingRequest) {
    r.propertyId.Some? && r.checkInDate.Some? && r.checkOutDate.Some?
  }

  /** `@Valid` succeeds on a booking request, relative to the current day. */
  predicate ValidBookingRequest(r: BookingRequest, today: int) {
    && r.propertyId.Some?
    && r.checkInDate.Some? && r.checkInDate.value >= today
    && r.checkOutDate.Some? && r.checkOutDate.value > today
    && r.guests >= 1
  }

  /** The field errors of a booking request, one per failing field (the model
      lists them in declaration order; the source collects them in some order).
      A null date satisfies `@Future`/`@FutureOrPresent`, so only `@NotNull`
      reports it. */
  function BookingRequestViolations(r: BookingRequest, today: int): (v: seq<FieldError>)
    ensures FieldsOf(v) ==
      Flag("propertyId", r.propertyId.None?)
      + Flag("checkInDate", r.checkInDate.None? || r.checkInDate.value < today)
      + Flag("checkOutDate", r.checkOutDate.None? || r.checkOutDate.value <= today)
      + Flag("guests", r.guests < 1)
  {
    var p, i, o, g := PropertyIdViolation(r), CheckInViolation(r, today),
                      CheckOutViolation(r, today), GuestsViolation(r);
    FieldsOfConcat(p, i);
    FieldsOfConcat(p + i, o);
    FieldsOfConcat(p + i + o, g);
    p + i + o + g
  }

  function PropertyIdViolation(r: BookingRequest): seq<FieldError> {
    Violation("propertyId", r.propertyId.None?, MustNotBeNull)
  }

  function CheckInViolation(r: BookingRequest, today: int): seq<FieldError> {
    Violation("checkInDate", r.checkInDate.None? || r.checkInDate.value < today,
              if r.checkInDate.None? then MustNotBeNull else MustBeFutureOrPresent)
  }

  function CheckOutViolation(r: BookingRequest, today: int): seq<FieldError> {
    Violation("checkOutDate", r.checkOutDate.None? || r.checkOutDate.value <= today,
              if r.checkOutDate.None? then MustNotBeNull else MustBeFuture)
  }

  function GuestsViolation(r: BookingRequest): seq<FieldError> {
    Violation("guests", r.guests < 1, MinMessage(1))
  }

  /** The field errors are empty exactly when the request is valid. */
  lemma BookingViolationsIffInvalid(r: BookingRequest, today: int)
    ensures BookingRequestViolations(r, today) == [] <==> ValidBookingRequest(r, today)
  {
  }

  /** Each field is reported at most once. */
  lemma BookingViolationFieldsDistinct(r: BookingRequest, today: int)
    ensures var v := BookingRequestViolations(r, today);
            forall i, j :: 0 <= i < j < |v| ==> v[i].field != v[j].field
  {
    var p, i, o, g := PropertyIdViolation(r), CheckInViolation(r, today),
                      CheckOutViolation(r, today), GuestsViolation(r);
    DistinctConcat(p, i);
    FieldsOfConcat(p, i);
    DistinctConcat(p + i, o);
    FieldsOfConcat(p + i, o);
    DistinctConcat(p + i + o, g);
  }

  /** A valid request is one the service can read. */
  lemma ValidBookingRequestIsBound(r: BookingRequest, today: int)
    requires ValidBookingRequest(r, today)
    ensures BookingRequestBound(r)
  {
  }

  /** An unbound request is reported for its three required fields and not for
      `guests`, whose initial value satisfies `@Min(1)`. */
  lemma EmptyBookingRequestViolations(today: int)
    ensures BookingRequestViolations(EmptyBookingRequest, today) ==
      [FieldError("propertyId", MustNotBeNull),
       FieldError("checkInDate", MustNotBeNull),
       FieldError("checkOutDate", MustNotBeNull)]
  {
  }

  // -------------------------------------------------------------- properties

  /** A listing's create/update request; `propertyType` is the JSON field "type". */
  datatype PropertyRequest = PropertyRequest(
    title: Option<string>,
    description: Option<string>,
    address: Option<string>,
    city: Option<string>,
    country: Option<string>,
    propertyType: Option<string>,
    pricePerNight: Option<real>,
    bedrooms: Option<int>,
    bathrooms: Option<int>,
    maxGuests: Option<int>,
    available: bool)

  /** The field initialiser of `available`. */
  const DefaultRequestAvailable := true

  /** The non-nullable columns the service copies are present. */
  predicate PropertyRequestBound(r: PropertyRequest) {
    && r.title.Some? && r.address.Some? && r.city.Some? && r.country.Some?
    && r.propertyType.Some? && r.pricePerNight.Some?
  }

  /** `@Valid` succeeds on a property request. `@Min` accepts a null. */
  predicate ValidPropertyRequest(r: PropertyRequest) {
    && !IsBlank(r.title) && !IsBlank(r.address) && !IsBlank(r.city)
    && !IsBlank(r.country) && !IsBlank(r.propertyType)
    && r.pricePerNight.Some? && r.pricePerNight.value > 0.0
    && (r.bedrooms.None? || r.bedrooms.value >= 0)
    && (r.bathrooms.None? || r.bathrooms.value >= 0)
    && (r.maxGuests.None? || r.maxGuests.value >= 1)
  }

  function NotBlankViolation(field: string, s: Option<string>): (v: seq<FieldError>)
    ensures FieldsOf(v) == Flag(field, IsBlank(s))
    ensures |v| <= 1
  {
    Violation(field, IsBlank(s), MustNotBeBlank)
  }

  function MinViolation(field: string, n: Option<int>, bound: int): (v: seq<FieldError>)
    ensures FieldsOf(v) == Flag(field, n.Some? && n.value < bound)
    ensures |v| <= 1
  {
    Violation(field, n.Some? && n.value < bound, MinMessage(bound))
  }

  /** The field errors of a property request, one per failing field (the model
      lists them in declaration order; the source collects them in some order). */
  function PropertyRequestViolations(r: PropertyRequest): (v: seq<FieldError>)
    ensures FieldsOf(v) ==
      (Flag("title", IsBlank(r.title)) + Flag("address", IsBlank(r.address))
       + Flag("city", IsBlank(r.city)) + Flag("country", IsBlank(r.country))
       + Flag("type", IsBlank(r.propertyType)))
      + Flag("pricePerNight", r.pricePerNight.None? || r.pricePerNight.value <= 0.0)
      + (Flag("bedrooms", r.bedrooms.Some? && r.bedrooms.value < 0)
         + Flag("bathrooms", r.bathrooms.Some? && r.bathrooms.value < 0)
         + Flag("maxGuests", r.maxGuests.Some? && r.maxGuests.value < 1))
  {
    var names, price, counts := TextViolations(r), PriceViolation(r), CountViolations(r);
    FieldsOfConcat(names, price);
    FieldsOfConcat(names + price, counts);
    names + price + counts
  }

  /** The `@NotBlank` fields. */
  function TextViolations(r: PropertyRequest): (v: seq<FieldError>)
    ensures FieldsOf(v) ==
      Flag("title", IsBlank(r.title)) + Flag("address", IsBlank(r.address))
      + Flag("city", IsBlank(r.city)) + Flag("country", IsBlank(r.country))
      + Flag("type", IsBlank(r.propertyType))
  {
    var t := NotBlankViolation("title", r.title);
    var a := NotBlankViolation("address", r.address);
    var c := NotBlankViolation("city", r.city);
    var n := NotBlankViolation("country", r.country);
    var y := NotBlankViolation("type", r.propertyType);
    FieldsOfConcat(t, a);
    FieldsOfConcat(t + a, c);
    FieldsOfConcat(t + a + c, n);
    FieldsOfConcat(t + a + c + n, y);
    t + a + c + n + y
  }

  function PriceViolation(r: PropertyRequest): (v: seq<FieldError>)
    ensures FieldsOf(v) == Flag("pricePerNight", r.pricePerNight.None? || r.pricePerNight.value <= 0.0)
  {
    Violation("pricePerNight", r.pricePerNight.None? || r.pricePerNight.value <= 0.0,
              if r.pricePerNight.None? then MustNotBeNull else MustBePositive)
  }

  /** The `@Min` fields. */
  function CountViolations(r: PropertyRequest): (v: seq<FieldError>)
    ensures FieldsOf(v) ==
      Flag("bedrooms", r.bedrooms.Some? && r.bedrooms.value < 0)
      + Flag("bathrooms", r.bathrooms.Some? && r.bathrooms.value < 0)
      + Flag("maxGuests", r.maxGuests.Some? && r.maxGuests.value < 1)
  {
    var bd := MinViolation("bedrooms", r.bedrooms, 0);
    var bt := MinViolation("bathrooms", r.bathrooms, 0);
    var m := MinViolation("maxGuests", r.maxGuests, 1);
    FieldsOfConcat(bd, bt);
    FieldsOfConcat(bd + bt, m);
    bd + bt + m
  }

  lemma PropertyViolationsIffInvalid(r: PropertyRequest)
    ensures PropertyRequestViolations(r) == [] <==> ValidPropertyRequest(r)
  {
  }

  lemma ValidPropertyRequestIsBound(r: PropertyRequest)
    requires ValidPropertyRequest(r)
    ensures PropertyRequestBound(r)
  {
  }

  // ------------------------------------------------------------------- users

  /** A partial profile update: a null field means "leave as is". */
  datatype UpdateUserRequest = UpdateUserRequest(
    firstName: Option<string>,
    lastName: Option<string>,
    email: Option<string>,
    phone: Option<string>)
}
