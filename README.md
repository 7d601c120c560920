# Property management backend, modelled in Dafny

This project models the Spring backend of a property-rental application.
Agents publish listings with images. Users book stays. Admins manage
accounts. The model covers five parts:

- **Booking ledger.** How `createBooking` admits a booking: its checks run
  in a fixed order, an overlapping active booking makes the request fail,
  and the price is fixed when the booking is made. It also covers the
  status changes (cancel, confirm, reject, delete), the access checks
  behind them and the read queries.
- **Property catalog.** Creating, updating, toggling and deleting listings
  behind the ownership-or-admin check, which listings a search returns, and
  the image table with its "main image" flag.
- **User administration.** The partial profile update, the role change,
  user deletion, the start-up seeding of the roles and the administrator
  account, and each controller endpoint's role gate.
- **Helpers.** The file-storage naming helpers, and the exception handler's
  mapping from exception kind to HTTP status and body.
- **Access policy.** The role gates combined with each service's ownership
  check, answering who can actually do what.

The database is one `Persistence.Store` object. It holds the user, role,
property, image and booking tables and one IDENTITY counter per table.
Service operations that save or delete rows are methods that modify
only the tables they name. They keep `Store.Valid()`:

- every row sits under its own id;
- every id is below its table's counter;
- every image and every booking names a stored property;
- every booking checks out after it checks in;
- images are kept in id order.

The model proves five invariants of the data:

- `createBooking` keeps the ledger free of two active, overlapping bookings
  on one property (`BookingRepository.NoOverlap`).
- Cancelling, rejecting and deleting a booking, and deleting a property,
  keep that invariant too.
- Confirming a booking can break it. This holds because the code as written
  lets a CANCELLED booking be confirmed again.
- Uploading images, deleting a property and, when the image belongs to the
  listing, setting or deleting a main image keep each listing to at most one
  main image (`PropertyImages.AtMostOneMain`).
- Because `setMainImage` and `deleteImage` look the image up in the whole
  table, an image of another listing can break that invariant. The model
  shows this with concrete counterexamples.

Modelling conventions:

- **Caller.** The caller is an explicit actor: a user id for the services,
  and a `Security.Principal` (user id plus granted authority) for the gates.
- **Time.** Dates are integer day numbers. Today, the current time and
  creation timestamps are parameters.
- **Outside inputs.** Generated UUIDs and the encoded admin password are
  parameters.
- **Prices** are `real`.
- **Errors.** Every exception a service throws is a `Base.Error` value:
  not found, access denied, bad request, illegal argument, or any other
  runtime exception. When an operation fails, its tables are unchanged,
  because the transaction rolls back. The model also leaves the id
  counters unchanged on failure, although the database does not roll back
  an IDENTITY value it has handed out.

The model follows the code wherever it and its documentation differ:

- confirmation and rejection do not look at the current status;
- a REJECTED booking can be cancelled;
- listing a property's bookings has no ownership check;
- the image id given to `setMainImage` and `deleteImage` is not checked
  against the listing.

Paths below are relative to the repository root. All services, controllers
and repositories are under
`ManagementProject/src/main/java/org/example/managementproject/`.

## Model

| member | source | states |
|---|---|---|
| Base.FirstWhere | ManagementProject/src/main/java/org/example/managementproject/service/PropertyService.java:195-197 | the first index at or after `from` whose element satisfies the predicate, or none when no element does (a stream's `filter(..).findFirst()`) |
| Strings.ToUpper | ManagementProject/src/main/java/org/example/managementproject/service/UserService.java:51 | `toUpperCase` on ASCII letters: keeps the length and upper-cases each character |
| Strings.ToLower | ManagementProject/src/main/java/org/example/managementproject/repository/PropertyRepository.java:20 | `LOWER` keeps the length and lower-cases each character |
| Strings.LowerOfUpper | ManagementProject/src/main/java/org/example/managementproject/repository/PropertyRepository.java:20 | lower-casing an upper-cased string gives the original lower-cased: the case of the input does not matter to the city filter |
| Strings.UpperOfUpper | ManagementProject/src/main/java/org/example/managementproject/service/UserService.java:51 | upper-casing is idempotent |
| Strings.LastIndexOf | ManagementProject/src/main/java/org/example/managementproject/service/FileStorageService.java:35 | `lastIndexOf`: -1 exactly when the character is absent; otherwise the index holds the character and no later index does |
| Model.StatusNameRoundTrip | ManagementProject/src/main/java/org/example/managementproject/model/Booking.java:45-46 | a status is stored by its name and read back as the same status |
| Model.StatusFromNameExact | ManagementProject/src/main/java/org/example/managementproject/model/Booking.java:45-46 | a stored name decodes to a status exactly when it is that status's name |
| Requests.BookingViolationsIffInvalid | ManagementProject/src/main/java/org/example/managementproject/dto/request/BookingRequest.java:13-25 | a booking request has no constraint violation exactly when property id and both dates are present, check-in is today or later, check-out is after today and guests is at least 1 |
| Requests.BookingViolationFieldsDistinct | ManagementProject/src/main/java/org/example/managementproject/dto/request/BookingRequest.java:13-25 | each field is reported at most once |
| Requests.ValidBookingRequestIsBound | ManagementProject/src/main/java/org/example/managementproject/dto/request/BookingRequest.java:13-22 | a valid booking request has its property id and both dates |
| Requests.EmptyBookingRequestViolations | ManagementProject/src/main/java/org/example/managementproject/dto/request/BookingRequest.java:13-25 | an empty request body (guests defaulting to 1) is reported for exactly the three missing fields (listed here in declaration order; the source reports them in some order) |
| Requests.BookingRequestViolations | ManagementProject/src/main/java/org/example/managementproject/dto/request/BookingRequest.java:13-25 | the fields reported are exactly those whose constraint fails: a missing property id, a missing or past check-in, a missing check-out or one not after today, fewer than one guest |
| Requests.PropertyViolationsIffInvalid | ManagementProject/src/main/java/org/example/managementproject/dto/request/PropertyRequest.java:11-41 | a property request has no violation exactly when title, address, city, country and type are non-blank, the price is present and positive, bedrooms and bathrooms are null or at least 0, and maxGuests is null or at least 1 |
| Requests.PropertyRequestViolations | ManagementProject/src/main/java/org/example/managementproject/dto/request/PropertyRequest.java:11-41 | the fields reported are exactly those whose constraint fails: a blank title, address, city, country or type, a missing or non-positive price, negative bedrooms or bathrooms, fewer than one maximum guest |
| Requests.ValidPropertyRequestIsBound | ManagementProject/src/main/java/org/example/managementproject/dto/request/PropertyRequest.java:11-30 | a valid property request carries every mandatory column |
| BookingRepository.ConflictIsActiveOverlap | ManagementProject/src/main/java/org/example/managementproject/repository/BookingRepository.java:21-32 | a booking conflicts with a requested stay exactly when it is on that property, is not CANCELLED or REJECTED, starts before the check-out and ends after the check-in |
| BookingRepository.ExistsConflictingBooking | ManagementProject/src/main/java/org/example/managementproject/repository/BookingRepository.java:21-32 | true exactly when some booking of the property that is neither CANCELLED nor REJECTED shares a night with the stay |
| BookingRepository.OverlapSymmetric | ManagementProject/src/main/java/org/example/managementproject/repository/BookingRepository.java:26-27 | the overlap test is symmetric in the two stays |
| BookingRepository.BackToBackNoConflict | ManagementProject/src/main/java/org/example/managementproject/repository/BookingRepository.java:26-27 | stays are half-open: one ending on the day the other starts does not conflict |
| BookingRepository.IrrelevantBookingNeverConflicts | ManagementProject/src/main/java/org/example/managementproject/repository/BookingRepository.java:24-25 | adding a booking of another property, or a CANCELLED or REJECTED one, changes no conflict answer |
| BookingRepository.InsertPreservesNoOverlap | ManagementProject/src/main/java/org/example/managementproject/repository/BookingRepository.java:21-32 | a fresh booking that the conflict query clears keeps the ledger free of overlaps |
| BookingRepository.SubmapPreservesNoOverlap | ManagementProject/src/main/java/org/example/managementproject/service/BookingService.java:125-128 | removing bookings keeps the ledger free of overlaps |
| BookingRepository.FindActiveBookingsByPropertyId | ManagementProject/src/main/java/org/example/managementproject/repository/BookingRepository.java:34-47 | exactly the property's bookings that are neither CANCELLED nor REJECTED and end today or later, unchanged |
| BookingRepository.FindByUser | ManagementProject/src/main/java/org/example/managementproject/repository/BookingRepository.java:17 | exactly the user's bookings |
| BookingRepository.FindByProperty | ManagementProject/src/main/java/org/example/managementproject/repository/BookingRepository.java:19 | exactly the property's bookings |
| BookingRepository.RemoveBookingsOf | ManagementProject/src/main/java/org/example/managementproject/model/Property.java:65-67 | the cascade on delete: exactly the bookings of other properties remain, unchanged |
| BookingRepository.CascadeKeepsReferences | ManagementProject/src/main/java/org/example/managementproject/model/Property.java:65-67 | after the cascade no booking names the deleted property |
| BookingRepository.ActiveBookingsDecideConflicts | ManagementProject/src/main/java/org/example/managementproject/repository/BookingRepository.java:21-47 | for a stay starting today or later, the conflict query answers yes exactly when one of the active bookings that end today or later overlaps it |
| PropertyRepository.FindByFilters | ManagementProject/src/main/java/org/example/managementproject/repository/PropertyRepository.java:18-33 | exactly the available listings matching every given filter, unchanged |
| PropertyRepository.MatchesFilter | ManagementProject/src/main/java/org/example/managementproject/repository/PropertyRepository.java:18-25 | a matching listing is available, its lower-cased city contains the lower-cased search term, its type equals the given type, its price lies within both given bounds (inclusive), and it has a bedroom count at least the given minimum; with no parameter every available listing matches |
| PropertyRepository.FindByAgent | ManagementProject/src/main/java/org/example/managementproject/repository/PropertyRepository.java:13 | exactly the agent's listings |
| PropertyRepository.FindAllProperties | ManagementProject/src/main/java/org/example/managementproject/repository/PropertyRepository.java:15-16 | every listing, available or not |
| PropertyRepository.NoFilterIsAvailability | ManagementProject/src/main/java/org/example/managementproject/repository/PropertyRepository.java:20-25 | with every parameter null the search returns exactly the available listings |
| PropertyRepository.CityFilterIgnoresCase | ManagementProject/src/main/java/org/example/managementproject/repository/PropertyRepository.java:20 | the city filter ignores the case of the search term |
| PropertyRepository.CitySubstringMatches | ManagementProject/src/main/java/org/example/managementproject/repository/PropertyRepository.java:20 | any piece of a listing's city, in any case, matches it |
| PropertyRepository.PriceBoundsInclusive | ManagementProject/src/main/java/org/example/managementproject/repository/PropertyRepository.java:22-23 | both price bounds are inclusive |
| PropertyRepository.FilterNarrows | ManagementProject/src/main/java/org/example/managementproject/repository/PropertyRepository.java:20-24 | adding or tightening filters never adds a listing to the result |
| PropertyImages.ImagesOf | ManagementProject/src/main/java/org/example/managementproject/repository/PropertyImageRepository.java:11 | `findByProperty`: exactly the listing's images, in table order |
| PropertyImages.ImagesOfAppend | ManagementProject/src/main/java/org/example/managementproject/repository/PropertyImageRepository.java:11 | the listing's images of two table parts are the images of each part, in order |
| PropertyImages.IndexOfImage | ManagementProject/src/main/java/org/example/managementproject/service/PropertyService.java:123-124 | `findById` on the whole image table: the position of the image with that id, or none |
| PropertyImages.FindMainImage | ManagementProject/src/main/java/org/example/managementproject/repository/PropertyImageRepository.java:12 | `findByPropertyAndIsMainTrue`: the listing's one main image, none when it has none, and a non-unique-result error exactly when it has two |
| PropertyImages.FindMainImageSucceeds | ManagementProject/src/main/java/org/example/managementproject/repository/PropertyImageRepository.java:12 | under the at-most-one-main invariant the lookup never fails |
| PropertyImages.RemoveImagesOf | ManagementProject/src/main/java/org/example/managementproject/model/Property.java:57-59 | the cascade on delete: exactly the images of other listings remain, in order |
| PropertyImages.RemoveImagesOfKeepsOneMain | ManagementProject/src/main/java/org/example/managementproject/model/Property.java:57-59 | the cascade keeps at most one main image per listing |
| PropertyImages.RemoveImagesOfKeepsIdOrder | ManagementProject/src/main/java/org/example/managementproject/model/Property.java:57-59 | the cascade keeps the table in id order |
| PropertyImages.SetMainWithinPropertyPreserves | ManagementProject/src/main/java/org/example/managementproject/service/PropertyService.java:110-127 | setting one of the listing's own images as main keeps at most one main image per listing |
| PropertyImages.DeleteWithinPropertyPreserves | ManagementProject/src/main/java/org/example/managementproject/service/PropertyService.java:129-149 | deleting one of the listing's own images, with promotion of the first remaining one, keeps at most one main image per listing |
| PropertyImages.AppendPreserves | ManagementProject/src/main/java/org/example/managementproject/service/PropertyService.java:91-105 | appending a listing's new images, at most the first of them main and only if it had none, keeps at most one main image per listing |
| PropertyImages.DeleteMainPromotesFirstRemaining | ManagementProject/src/main/java/org/example/managementproject/service/PropertyService.java:140-148 | after deleting a main image, the first remaining image of the listing is main; when the deleted image was the listing's own and the listing had at most one main image, that is its only main image |
| PropertyImages.DeleteRemovesImage | ManagementProject/src/main/java/org/example/managementproject/service/PropertyService.java:134-138 | with increasing ids, the deleted image's id is gone from the table and every other image can still be found by its id |
| PropertyImages.DeleteKeepsOtherImages | ManagementProject/src/main/java/org/example/managementproject/service/PropertyService.java:134-138 | every image but the deleted one can still be found by its id |
| PropertyImages.EffectsKeepRows | ManagementProject/src/main/java/org/example/managementproject/service/PropertyService.java:110-149 | setting and deleting main images change only flags: every row keeps its id, listing and URL, and deleting keeps the order of the others |
| PropertyImages.AppendKeepsIdOrder | ManagementProject/src/main/java/org/example/managementproject/service/PropertyService.java:98-103 | rows numbered from the counter keep the table in id order |
| PropertyImages.SetMainKeepsRowsValid | ManagementProject/src/main/java/org/example/managementproject/service/PropertyService.java:110-127 | setting a main image keeps the table's row invariant |
| PropertyImages.SetMainEffect | ManagementProject/src/main/java/org/example/managementproject/service/PropertyService.java:115-126 | the chosen image is flagged main and the previous main image is cleared, both keeping their other columns; every other row is unchanged |
| PropertyImages.DeleteImageEffect | ManagementProject/src/main/java/org/example/managementproject/service/PropertyService.java:137-148 | exactly one row goes; a non-main image leaves the rest as they were, and otherwise the only change is that a row of the listing becomes main |
| PropertyImages.DeleteKeepsRowsValid | ManagementProject/src/main/java/org/example/managementproject/service/PropertyService.java:129-149 | deleting an image keeps the table's row invariant |
| PropertyImages.AppendKeepsRowsValid | ManagementProject/src/main/java/org/example/managementproject/service/PropertyService.java:96-105 | saving new rows numbered from the counter keeps the table's row invariant with the counter advanced |
| PropertyImages.CascadeKeepsRowsValid | ManagementProject/src/main/java/org/example/managementproject/model/Property.java:57-59 | after the cascade no image names the deleted listing |
| PropertyImages.NoRowsNoImages | ManagementProject/src/main/java/org/example/managementproject/model/Property.java:57-59 | a listing created with a fresh id starts with no images |
| PropertyImages.SetMainAcrossPropertiesBreaks | ManagementProject/src/main/java/org/example/managementproject/service/PropertyService.java:123-126 | as written, naming another listing's image gives that listing two main images |
| PropertyImages.DeleteAcrossPropertiesBreaks | ManagementProject/src/main/java/org/example/managementproject/service/PropertyService.java:134-148 | as written, deleting another listing's main image promotes an image of the given listing, which then has two |
| Persistence.Store.constructor | ManagementProject/src/main/java/org/example/managementproject/model/Property.java:19-21 | an empty database with every IDENTITY counter at 1 satisfies the store invariant |
| Security.GrantedRoleNames | ManagementProject/src/main/java/org/example/managementproject/controller/BookingController.java:28 | "ROLE_" + the annotation's role is the stored role name, and the three role names differ |
| BookingController.Permits | ManagementProject/src/main/java/org/example/managementproject/controller/BookingController.java:27-95 | admins pass every booking gate; agents all but create, cancel, list-all and delete; plain users only create, my-bookings, get-by-id, cancel and booked-dates; anonymous callers none |
| PropertyController.Permits | ManagementProject/src/main/java/org/example/managementproject/controller/PropertyController.java:30-101 | admins and agents pass every property gate; plain users only listing and get-by-id; anonymous callers none |
| UserController.Permits | ManagementProject/src/main/java/org/example/managementproject/controller/UserController.java:23-71 | admins pass every user gate; any other authenticated caller only the two /me endpoints; anonymous callers none |
| UserService.AuthenticatedUser | ManagementProject/src/main/java/org/example/managementproject/service/UserService.java:78-82 | the actor's row, or not-found "Authenticated user not found" |
| UserService.FindUserById | ManagementProject/src/main/java/org/example/managementproject/service/UserService.java:84-87 | the row with that id, or not-found with the id in the message |
| UserService.ApplyUpdates | ManagementProject/src/main/java/org/example/managementproject/service/UserService.java:71-76 | each non-null request field replaces the user's field; a null one keeps it; id, password, role, active and createdAt are untouched |
| UserService.ApplyUpdatesIdempotent | ManagementProject/src/main/java/org/example/managementproject/service/UserService.java:35-40 | applying the same update twice equals applying it once |
| UserService.ApplyUpdatesCompose | ManagementProject/src/main/java/org/example/managementproject/service/UserService.java:71-76 | two updates in a row equal one update in which the later non-null fields win |
| UserService.ToResponse | ManagementProject/src/main/java/org/example/managementproject/service/UserService.java:89-100 | the response reports id, first and last name, email, phone, role, active flag and createdAt unchanged |
| UserService.ResponseIsUserWithoutPassword | ManagementProject/src/main/java/org/example/managementproject/service/UserService.java:89-100 | two users give the same response exactly when they agree on every column except the password |
| UserService.RoleFullName | ManagementProject/src/main/java/org/example/managementproject/service/UserService.java:51 | the looked-up name is "ROLE_" followed by the parameter upper-cased (ASCII letters only), so it is as long as the prefix and the parameter together |
| UserService.RoleFullNameIgnoresCase | ManagementProject/src/main/java/org/example/managementproject/service/UserService.java:51 | the role parameter is case-insensitive |
| UserService.RoleFullNameOfUpperCase | ManagementProject/src/main/java/org/example/managementproject/service/UserService.java:51 | a parameter without lower-case letters is prefixed as given |
| UserService.RoleFullNameOfAdmin | ManagementProject/src/main/java/org/example/managementproject/service/UserService.java:48-56 | "ADMIN" selects ROLE_ADMIN |
| UserService.RoleFullNameOfPrefixedName | ManagementProject/src/main/java/org/example/managementproject/service/UserService.java:48-56 | "ROLE_USER" is looked up as "ROLE_ROLE_USER": the parameter must be the bare role name |
| UserService.GetAllUsers | ManagementProject/src/main/java/org/example/managementproject/service/UserService.java:25-29 | one response per stored user, under the same id |
| UserService.GetUserById | ManagementProject/src/main/java/org/example/managementproject/service/UserService.java:31-33 | the user's response, or not-found |
| UserService.GetCurrentUser | ManagementProject/src/main/java/org/example/managementproject/service/UserService.java:58-60 | the actor's response, or not-found |
| UserService.UpdateUser | ManagementProject/src/main/java/org/example/managementproject/service/UserService.java:35-40 | not-found with nothing changed for an unknown id; otherwise the row is replaced by its partial update and no other row changes |
| UserService.UpdateCurrentUser | ManagementProject/src/main/java/org/example/managementproject/service/UserService.java:62-67 | the same partial update on the actor's own row |
| UserService.DeleteUser | ManagementProject/src/main/java/org/example/managementproject/service/UserService.java:42-46 | not-found with nothing changed for an unknown id; otherwise exactly that row is removed, whatever it owns |
| UserService.ChangeUserRole | ManagementProject/src/main/java/org/example/managementproject/service/UserService.java:48-56 | not-found for an unknown id; illegal argument "Role not found: " + the full name when that role is not stored; otherwise only the user's role changes |
| FileStorage.Extension | ManagementProject/src/main/java/org/example/managementproject/service/FileStorageService.java:33-36 | ".jpg" for a missing name or one without a dot; otherwise the suffix from the last dot, which contains no other dot |
| FileStorage.ExtensionKept | ManagementProject/src/main/java/org/example/managementproject/service/FileStorageService.java:33-36 | a name ending in "." + an extension without dots keeps exactly that extension |
| FileStorage.StoreFile | ManagementProject/src/main/java/org/example/managementproject/service/FileStorageService.java:20-48 | illegal argument "Only image files are allowed" exactly when the content type is missing or not "image/..."; otherwise the URL "/uploads/" + uuid + extension |
| FileStorage.FileToDelete | ManagementProject/src/main/java/org/example/managementproject/service/FileStorageService.java:50-59 | a file is deleted exactly when the URL is present and starts with "/uploads/", and the file is the rest of the URL |
| FileStorage.StoreThenDeleteRoundTrip | ManagementProject/src/main/java/org/example/managementproject/service/FileStorageService.java:43-53 | deleting a stored image's URL removes the generated file name |
| BookingService.TotalPrice | ManagementProject/src/main/java/org/example/managementproject/service/BookingService.java:50-51 | the price is positive for a stay of at least one night at a positive price, and zero for no nights |
| BookingService.TotalPriceSplits | ManagementProject/src/main/java/org/example/managementproject/service/BookingService.java:50-51 | splitting a stay at any day splits its price |
| BookingService.CheckAccessToBooking | ManagementProject/src/main/java/org/example/managementproject/service/BookingService.java:137-144 | passes exactly for a stored actor who is an admin, the renter or the property's agent; not-found for an unknown actor; otherwise access denied |
| BookingService.CheckAgentOrAdminAccess | ManagementProject/src/main/java/org/example/managementproject/service/BookingService.java:146-152 | passes exactly for a stored actor who is an admin or the property's agent; not-found for an unknown actor; otherwise access denied |
| BookingService.AgentOrAdminAccessIsNarrower | ManagementProject/src/main/java/org/example/managementproject/service/BookingService.java:137-152 | whoever passes the agent-or-admin check passes the general one, and a renter passes only the general one |
| BookingService.CancelTransition | ManagementProject/src/main/java/org/example/managementproject/service/BookingService.java:91-95 | cancelling succeeds exactly from PENDING or REJECTED and yields inactive CANCELLED; CANCELLED and CONFIRMED give their bad-request messages |
| BookingService.DeactivatePreservesNoOverlap | ManagementProject/src/main/java/org/example/managementproject/service/BookingService.java:95-111 | setting a booking to CANCELLED or REJECTED keeps the ledger free of overlaps |
| BookingService.ConfirmPreservesNoOverlapIff | ManagementProject/src/main/java/org/example/managementproject/service/BookingService.java:99-105 | confirming keeps the ledger free of overlaps exactly when the booking was active or no other active booking of its property overlaps it |
| BookingService.ConfirmCanBreakNoOverlap | ManagementProject/src/main/java/org/example/managementproject/service/BookingService.java:99-105 | a concrete overlap-free ledger where confirming a cancelled booking creates an overlap |
| BookingService.BookedDateRangesDisjoint | ManagementProject/src/main/java/org/example/managementproject/service/BookingService.java:67-74 | on an overlap-free ledger the reported booked ranges are pairwise disjoint |
| BookingService.GetBookedDateRanges | ManagementProject/src/main/java/org/example/managementproject/service/BookingService.java:67-74 | a range is reported exactly when it is the stay of a booking of the property that is neither CANCELLED nor REJECTED and has not checked out before today |
| BookingService.BookedDateRangesDecideConflicts | ManagementProject/src/main/java/org/example/managementproject/service/BookingService.java:67-74 | a stay from today on is refused by the conflict query exactly when it overlaps a reported booked range |
| BookingService.GetBookingsByCurrentUser | ManagementProject/src/main/java/org/example/managementproject/service/BookingService.java:76-79 | not-found ("Authenticated user not found") exactly for an unknown actor; otherwise exactly the actor's bookings, unchanged |
| BookingService.GetBookingsByProperty | ManagementProject/src/main/java/org/example/managementproject/service/BookingService.java:115-119 | not-found for an unknown property; otherwise exactly its bookings, unchanged, whoever asks |
| BookingService.GetBookingById | ManagementProject/src/main/java/org/example/managementproject/service/BookingService.java:81-85 | not-found for an unknown id; otherwise the booking exactly when the actor passes the access check, and on failure the check's own error: not-found "Authenticated user not found" for an unknown actor, otherwise access denied "Access denied to this booking" |
| BookingService.ToResponse | ManagementProject/src/main/java/org/example/managementproject/service/BookingService.java:154-170 | the response names the booking, its property and renter, and its status by a name that decodes back to the status |
| BookingService.CreateBooking | ManagementProject/src/main/java/org/example/managementproject/service/BookingService.java:32-65 | fails, storing nothing, on the first of: unknown actor, null property id, unknown property, unavailable property, null dates, check-out not after check-in, null guest limit, guests above it, a conflicting active booking; otherwise stores a PENDING booking of the actor under the next id priced nights times price; keeps the ledger free of overlaps |
| BookingService.CancelBooking | ManagementProject/src/main/java/org/example/managementproject/service/BookingService.java:87-97 | not-found, then the access check, then the cancel transition; on success only the status becomes CANCELLED; overlap freedom is kept |
| BookingService.ConfirmBooking | ManagementProject/src/main/java/org/example/managementproject/service/BookingService.java:99-105 | not-found, then the agent-or-admin check; on success only the status becomes CONFIRMED, from any status |
| BookingService.RejectBooking | ManagementProject/src/main/java/org/example/managementproject/service/BookingService.java:107-113 | not-found, then the agent-or-admin check; on success only the status becomes REJECTED, from any status; overlap freedom is kept |
| BookingService.DeleteBooking | ManagementProject/src/main/java/org/example/managementproject/service/BookingService.java:125-135 | not-found with nothing changed for an unknown id; otherwise exactly that booking is removed, whatever its status |
| PropertyService.FindPropertyById | ManagementProject/src/main/java/org/example/managementproject/service/PropertyService.java:178-181 | the listing, or not-found with the id in the message |
| PropertyService.GetPropertyById | ManagementProject/src/main/java/org/example/managementproject/service/PropertyService.java:40-42 | the stored listing when the id exists, otherwise not-found with the id in the message |
| PropertyService.CheckOwnershipOrAdmin | ManagementProject/src/main/java/org/example/managementproject/service/PropertyService.java:183-190 | passes exactly for a stored actor who is an admin or the listing's agent; not-found for an unknown actor; otherwise access denied |
| PropertyService.Guard | ManagementProject/src/main/java/org/example/managementproject/service/PropertyService.java:66-69 | first not-found for an unknown listing, then the ownership check |
| PropertyService.WithRequest | ManagementProject/src/main/java/org/example/managementproject/service/PropertyService.java:71-81 | the eleven request columns are written, and id, agent and createdAt are kept |
| PropertyService.RequestOf | ManagementProject/src/main/java/org/example/managementproject/service/PropertyService.java:71-81 | a row's own values make a complete request |
| PropertyService.ResubmitChangesNothing | ManagementProject/src/main/java/org/example/managementproject/service/PropertyService.java:66-84 | updating a listing with its own values leaves it unchanged |
| PropertyService.UpdateForgetsOldColumns | ManagementProject/src/main/java/org/example/managementproject/service/PropertyService.java:66-84 | an update's result depends only on the request and the kept columns |
| PropertyService.Toggled | ManagementProject/src/main/java/org/example/managementproject/service/PropertyService.java:167 | availability is flipped and nothing else changes |
| PropertyService.ToggleTwiceRestores | ManagementProject/src/main/java/org/example/managementproject/service/PropertyService.java:163-169 | toggling twice restores the listing |
| PropertyService.GetPropertiesByCurrentAgent | ManagementProject/src/main/java/org/example/managementproject/service/PropertyService.java:171-174 | not-found ("Authenticated user not found") exactly for an unknown actor; otherwise exactly the actor's listings, unchanged |
| PropertyService.ImageUrls | ManagementProject/src/main/java/org/example/managementproject/service/PropertyService.java:202-204 | one URL per image, in order, each the host followed by the stored URL |
| PropertyService.MainImageUrl | ManagementProject/src/main/java/org/example/managementproject/service/PropertyService.java:195-200 | the first main image's URL; failing that the first image's; none exactly when there are no images |
| PropertyService.ToResponse | ManagementProject/src/main/java/org/example/managementproject/service/PropertyService.java:192-225 | the response carries the listing's id, agent and availability, its image URLs and its main image URL |
| PropertyService.ReportedMainIsTheMainImage | ManagementProject/src/main/java/org/example/managementproject/service/PropertyService.java:192-200 | under the at-most-one-main invariant the reported main image is the listing's main image |
| PropertyService.UploadedRows | ManagementProject/src/main/java/org/example/managementproject/service/PropertyService.java:96-103 | one row per URL, numbered from the counter, of this listing, and only the first is main, and only if the listing had none |
| PropertyService.BuildImages | ManagementProject/src/main/java/org/example/managementproject/service/PropertyService.java:94-107 | fails with "Only image files are allowed" exactly when some file is not an image; otherwise one stored URL per file, in file order |
| PropertyService.CreateProperty | ManagementProject/src/main/java/org/example/managementproject/service/PropertyService.java:44-64 | not-found for an unknown actor; otherwise a new listing under the next id, owned by the actor, with the request's columns, no images and no bookings; a request missing a mandatory column is an unexpected error |
| PropertyService.UpdateProperty | ManagementProject/src/main/java/org/example/managementproject/service/PropertyService.java:66-84 | the guard, then the eleven columns are overwritten and id, agent, createdAt, images and bookings are kept |
| PropertyService.ToggleAvailability | ManagementProject/src/main/java/org/example/managementproject/service/PropertyService.java:163-169 | the guard, then only availability flips |
| PropertyService.DeleteProperty | ManagementProject/src/main/java/org/example/managementproject/service/PropertyService.java:151-161 | the guard, then the listing is removed and its images and bookings with it; the image and overlap invariants are kept |
| PropertyService.CascadeKeepsTables | ManagementProject/src/main/java/org/example/managementproject/service/PropertyService.java:151-161 | removing a listing with its images and bookings keeps every table's row invariant and the references between tables, at most one main image per listing, and an overlap-free ledger |
| PropertyService.UploadImages | ManagementProject/src/main/java/org/example/managementproject/service/PropertyService.java:86-108 | the guard, the main-image lookup, then the uploaded rows are appended and the URLs returned in file order; a non-image file fails with IllegalArgument "Only image files are allowed" and adds no row; at most one main image per listing is kept |
| PropertyService.SetMainImage | ManagementProject/src/main/java/org/example/managementproject/service/PropertyService.java:110-127 | the guard, the main-image lookup, then not-found for an unknown image; otherwise the chosen image is main and the previous main is cleared; the invariant is kept when the image is the listing's own |
| PropertyService.DeleteImage | ManagementProject/src/main/java/org/example/managementproject/service/PropertyService.java:129-149 | the guard, then not-found for an unknown image; otherwise it is removed, its file is deleted, and if it was main the listing's first remaining image becomes main; the invariant is kept when the image is the listing's own |
| ExceptionHandler.Code | ManagementProject/src/main/java/org/example/managementproject/model/exception/GlobalExceptionHandler.java:56-58 | the four statuses have the codes 400, 403, 404 and 500 of section 15 of RFC 9110, and only the last is a server error |
| ExceptionHandler.Handle | ManagementProject/src/main/java/org/example/managementproject/model/exception/GlobalExceptionHandler.java:17-59 | not-found is 404 and access denied 403, with their messages; bad request and illegal argument are 400 with theirs; anything else is 500 with a fixed message that hides the original; the body's status is the response code |
| ExceptionHandler.FieldErrorMapKeys | ManagementProject/src/main/java/org/example/managementproject/model/exception/GlobalExceptionHandler.java:39-43 | the map's keys are exactly the fields with an error |
| ExceptionHandler.FieldErrorMap | ManagementProject/src/main/java/org/example/managementproject/model/exception/GlobalExceptionHandler.java:39-43 | every entry of the map is the field and message of one of the errors |
| ExceptionHandler.FieldErrorMapLastWins | ManagementProject/src/main/java/org/example/managementproject/model/exception/GlobalExceptionHandler.java:39-43 | a field's message is that of its last error |
| ExceptionHandler.DistinctFieldsAllKept | ManagementProject/src/main/java/org/example/managementproject/model/exception/GlobalExceptionHandler.java:39-43 | with one error per field every error is in the map |
| ExceptionHandler.HandleValidation | ManagementProject/src/main/java/org/example/managementproject/model/exception/GlobalExceptionHandler.java:37-45 | 400, "Validation failed", and the field errors put into a map in order |
| ExceptionHandler.BookingValidationReportsEveryViolation | ManagementProject/src/main/java/org/example/managementproject/model/exception/GlobalExceptionHandler.java:37-45 | for a booking request, every violated field appears with its message |
| DataSeeder.WithRole | ManagementProject/src/main/java/org/example/managementproject/config/DataSeeder.java:37-42 | afterwards the role exists, all old roles are kept, and at most the one role is added |
| DataSeeder.SeededRoles | ManagementProject/src/main/java/org/example/managementproject/config/DataSeeder.java:30-35 | afterwards the three roles exist, the old table is a prefix and nothing else is added |
| DataSeeder.WithRoleKeepsNoDuplicates | ManagementProject/src/main/java/org/example/managementproject/config/DataSeeder.java:37-42 | creating a missing role never duplicates a name |
| DataSeeder.SeedEmptyRoles | ManagementProject/src/main/java/org/example/managementproject/config/DataSeeder.java:30-35 | seeding an empty table gives exactly ROLE_ADMIN, ROLE_AGENT, ROLE_USER |
| DataSeeder.SeedRolesIdempotent | ManagementProject/src/main/java/org/example/managementproject/config/DataSeeder.java:30-42 | seeding keeps names unique, and seeding twice equals seeding once |
| DataSeeder.AdminUser | ManagementProject/src/main/java/org/example/managementproject/config/DataSeeder.java:53-60 | the administrator: "Super" "Admin", admin@gmail.com, the encoded password, ROLE_ADMIN, active |
| DataSeeder.CreateRoleIfNotExists | ManagementProject/src/main/java/org/example/managementproject/config/DataSeeder.java:37-42 | the role table afterwards is the role added only when absent |
| DataSeeder.SeedRoles | ManagementProject/src/main/java/org/example/managementproject/config/DataSeeder.java:30-35 | the role table afterwards is the seeded table |
| DataSeeder.SeedAdminUser | ManagementProject/src/main/java/org/example/managementproject/config/DataSeeder.java:46-70 | nothing is changed when a user has the admin email; the error "ROLE_ADMIN not found after seeding" when the role is missing; otherwise the administrator is saved under the next id |
| DataSeeder.Run | ManagementProject/src/main/java/org/example/managementproject/config/DataSeeder.java:22-26 | always succeeds; afterwards the three roles and the admin email exist; a second run leaves the users unchanged |
| AccessPolicy.CancelCapability | ManagementProject/src/main/java/org/example/managementproject/controller/BookingController.java:45-49 | with the service check behind the gate, an admin may cancel any booking and a plain user one they rented or whose listing they own; an agent is blocked by the gate even on the agent's own listing, which the service check would admit |
| AccessPolicy.DecideCapability | ManagementProject/src/main/java/org/example/managementproject/controller/BookingController.java:70-80 | confirming or rejecting is open to admins and to the agent of the booking's listing only |
| AccessPolicy.ModifyListingCapability | ManagementProject/src/main/java/org/example/managementproject/controller/PropertyController.java:59-95 | changing a listing is open to admins and to its own agent only |
| AccessPolicy.ListingBookingsOpenToEveryAgent | ManagementProject/src/main/java/org/example/managementproject/controller/BookingController.java:63-68 | any admin or agent lists any listing's bookings; the gate is the only check |
| AccessPolicy.RoleChangeIsAdminOnly | ManagementProject/src/main/java/org/example/managementproject/controller/UserController.java:50-56 | only admins change roles |
| AccessPolicy.AnonymousPassesNoGate | ManagementProject/src/main/java/org/example/managementproject/controller/BookingController.java:27-95 | an anonymous caller passes no gate of any controller |

## Left out

- Disk I/O: creating the upload directory, copying and deleting files. `StoreFile` returns the URL it would create. `DeleteImage` returns the name of the file it would delete.
- The "Failed to store file" runtime exception, raised when a copy fails, is not modelled.
- Row order: `findByProperty` has no ORDER BY, so the database may return a listing's images in any order. The model keeps the image table in id order. Three behaviours depend on that order: which image `deleteImage` promotes (PropertyImages.DeleteImageEffect, PropertyImages.DeleteMainPromotesFirstRemaining), which image `toResponse` reports as main (PropertyService.MainImageUrl), and the order of the image URLs (PropertyService.ImageUrls). The model states each of them for id order only.
- Id counters: the model leaves the counters unchanged when an operation fails. The database does not roll back an IDENTITY value it has handed out: a `createProperty` whose INSERT fails a NOT NULL column, and an `uploadImages` that rejects a file after inserting rows for the earlier ones, use up ids. Real ids can therefore have gaps the model does not show.
- UploadImages: a failing upload adds no rows, because the transaction rolls back. The files stored before the failing one stay on disk, and the model does not track them.
- DeleteProperty: the image files it deletes from disk are not reported.
- UUID generation is a parameter, one UUID per uploaded file.
- Password encoding is a parameter. `SeedAdminUser` and `Run` take the encoded form of "admin123".
- Logging in the seeder is not modelled.
- The caller is modelled as explicit values. `getAuthenticatedUser` reads the security context and finds the user by email; the model instead looks the actor up by id. The JWT filter, the login endpoints and how a denied gate is answered belong to the security layer, which is not part of this model.
- Concurrency is not modelled. Every operation runs alone, so the model does not claim that two simultaneous bookings are kept from overlapping.
- Paging (`Pageable`) and sorting: queries return id-indexed maps instead of pages.
- The booked-date ranges are returned as a set, so their order and duplicates are not modelled.
- `getAllBookings`, the search, and each controller method's forwarding of its id, request and parameters are one-line delegations. Only the gates in front of them are modelled.
- Case mapping covers ASCII letters only. SQL `LIKE` wildcards in the city term are treated as literal characters.
- Prices are `real`, so Java `double` rounding is not modelled.
- Null checks. Every runtime exception from a null value (property id, dates, maximum guests) becomes one `Unexpected` error with a placeholder message. Its text is never shown, because the handler replaces it.
- Validation messages are the framework's default texts and are written out as constants.
- The `@Email` check on profile updates belongs to a library and is not modelled.
- Database constraints. `User.java` and the role entity are not part of this model, so deleting a user who owns rows has no foreign-key effect in the model.
- Services return the saved entities; the `ToResponse` functions map them to the API shapes separately.
- Response DTOs are modelled as datatypes; the JSON serialisation is not modelled.
- BookingService.ToResponse: states the ids and the status round trip, not every copied column.
- PropertyService.ToResponse: states the ids, availability and image URLs, not every copied column.
