/** Who can actually do what: each endpoint's role gate composed with the
    ownership check its service performs. The caller is a principal that
    speaks for a stored user, so the service's actor is that user. */
module AccessPolicy {
  import opened Base
  import opened Model
  import opened Security
  import BookingController
  import PropertyController
  import UserController
  import BookingService
  import PropertyService

  /** Cancelling a booking gets past both the gate and `checkAccessToBooking`. */
  predicate CanCancel(p: Principal, users: map<int, User>, properties: map<int, Property>, b: Booking)
    requires b.propertyId in properties
  {
    && BookingController.Permits(BookingController.CancelBooking, p)
    && BookingService.CheckAccessToBooking(users, p.userId, b, BookingService.AgentOf(properties, b)) == Pass
  }

  /** Confirming or rejecting a booking gets past the gate and the
      agent-or-admin check. */
  predicate CanDecide(e: BookingController.Endpoint, p: Principal, users: map<int, User>,
                      properties: map<int, Property>, b: Booking)
    requires e == BookingController.ConfirmBooking || e == BookingController.RejectBooking
    requires b.propertyId in properties
  {
    && BookingController.Permits(e, p)
    && BookingService.CheckAgentOrAdminAccess(users, p.userId, BookingService.AgentOf(properties, b)) == Pass
  }

  /** A listing mutation gets past the gate and `checkOwnershipOrAdmin`. */
  predicate CanModifyListing(e: PropertyController.Endpoint, p: Principal, users: map<int, User>, listing: Property)
    requires e in {PropertyController.UpdateProperty, PropertyController.DeleteProperty,
                   PropertyController.ToggleAvailability, PropertyController.UploadImages,
                   PropertyController.SetMainImage}
  {
    && PropertyController.Permits(e, p)
    && PropertyService.CheckOwnershipOrAdmin(users, p.userId, listing) == Pass
  }

  /** An admin may cancel any booking; a plain user may cancel one they
      rented or one on a listing they own; an agent never gets past the
      gate, not even for a booking on the agent's own listing. */
  lemma CancelCapability(p: Principal, users: map<int, User>, properties: map<int, Property>, b: Booking)
    requires ActsAs(p, users)
    requires b.propertyId in properties
    ensures CanCancel(p, users, properties, b) <==>
      || p.authority == RoleAdmin
      || (p.authority == RoleUser && (b.userId == p.userId || properties[b.propertyId].agentId == p.userId))
    ensures p.authority == RoleAgent && properties[b.propertyId].agentId == p.userId ==>
      !CanCancel(p, users, properties, b)
      && BookingService.CheckAccessToBooking(users, p.userId, b, properties[b.propertyId].agentId) == Pass
  {
    GrantedRoleNames();
  }

  /** An admin may confirm or reject any booking; an agent only bookings on
      the agent's own listings; a plain user none. */
  lemma DecideCapability(e: BookingController.Endpoint, p: Principal, users: map<int, User>,
                         properties: map<int, Property>, b: Booking)
    requires e == BookingController.ConfirmBooking || e == BookingController.RejectBooking
    requires ActsAs(p, users)
    requires b.propertyId in properties
    ensures CanDecide(e, p, users, properties, b) <==>
      || p.authority == RoleAdmin
      || (p.authority == RoleAgent && properties[b.propertyId].agentId == p.userId)
  {
    GrantedRoleNames();
  }

  /** An admin may change any listing; an agent only the agent's own; a
      plain user none. */
  lemma ModifyListingCapability(e: PropertyController.Endpoint, p: Principal, users: map<int, User>, listing: Property)
    requires e in {PropertyController.UpdateProperty, PropertyController.DeleteProperty,
                   PropertyController.ToggleAvailability, PropertyController.UploadImages,
                   PropertyController.SetMainImage}
    requires ActsAs(p, users)
    ensures CanModifyListing(e, p, users, listing) <==>
      p.authority == RoleAdmin || (p.authority == RoleAgent && listing.agentId == p.userId)
  {
    GrantedRoleNames();
  }

  /** The bookings of a listing are open to every agent: the gate is the
      only check, and it does not look at who owns the listing. */
  lemma ListingBookingsOpenToEveryAgent(p: Principal, users: map<int, User>)
    requires ActsAs(p, users)
    ensures BookingController.Permits(BookingController.GetByProperty, p) <==>
      p.authority == RoleAdmin || p.authority == RoleAgent
  {
    GrantedRoleNames();
  }

  /** Changing a role is reserved to admins. */
  lemma RoleChangeIsAdminOnly(p: Principal)
    ensures UserController.Permits(UserController.ChangeUserRole, p) <==>
      p.Authenticated? && p.authority == RoleAdmin
  {
  }

  /** An anonymous caller passes no gate. */
  lemma AnonymousPassesNoGate(be: BookingController.Endpoint, pe: PropertyController.Endpoint,
                              ue: UserController.Endpoint)
    ensures !BookingController.Permits(be, Anonymous)
    ensures !PropertyController.Permits(pe, Anonymous)
    ensures !UserController.Permits(ue, Anonymous)
  {
  }
}
