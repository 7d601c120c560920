/** The listing endpoints under /api/properties and the role each one
    demands. Deleting a single image has no endpoint. */
module PropertyController {
  import opened Model
  import opened Security

  datatype Endpoint =
    | ListProperties      // GET    /api/properties
    | GetProperty         // GET    /api/properties/{id}
    | CreateProperty      // POST   /api/properties
    | UpdateProperty      // PUT    /api/properties/{id}
    | DeleteProperty      // DELETE /api/properties/{id}
    | ToggleAvailability  // PATCH  /api/properties/{id}/availability
    | UploadImages        // POST   /api/properties/{id}/images
    | SetMainImage        // PATCH  /api/properties/{id}/images/{imageId}/main
    | GetMyListings       // GET    /api/properties/my-listings

  /** Reading the catalog needs a login; every other endpoint needs ADMIN or
      AGENT, so a plain user can only read. */
  function Permits(e: Endpoint, p: Principal): (r: bool)
    ensures r ==> IsAuthenticated(p)
    ensures p.Authenticated? && (p.authority == RoleAdmin || p.authority == RoleAgent) ==> r
    ensures p.Authenticated? && p.authority == RoleUser ==>
      (r <==> e in {ListProperties, GetProperty})
  {
    GrantedRoleNames();
    match e
    case ListProperties => IsAuthenticated(p)
    case GetProperty => IsAuthenticated(p)
    case CreateProperty => HasAnyRole(p, "ADMIN", "AGENT")
    case UpdateProperty => HasAnyRole(p, "ADMIN", "AGENT")
    case DeleteProperty => HasAnyRole(p, "ADMIN", "AGENT")
    case ToggleAvailability => HasAnyRole(p, "ADMIN", "AGENT")
    case UploadImages => HasAnyRole(p, "ADMIN", "AGENT")
    case SetMainImage => HasAnyRole(p, "ADMIN", "AGENT")
    case GetMyListings => HasAnyRole(p, "ADMIN", "AGENT")
  }
}
