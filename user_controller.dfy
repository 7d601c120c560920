/** The user endpoints under /api/users: administration by id for admins,
    the caller's own profile for everyone logged in. */
module UserController {
  import opened Model
  import opened Security

  datatype Endpoint =
    | GetAllUsers         // GET    /api/users
    | GetUserById         // GET    /api/users/{id}
    | UpdateUser          // PUT    /api/users/{id}
    | DeleteUser          // DELETE /api/users/{id}
    | ChangeUserRole      // PATCH  /api/users/{id}/role?role=...
    | GetMyProfile        // GET    /api/users/me
    | UpdateMyProfile     // PUT    /api/users/me

  /** Only admins act on users by id; any logged-in caller reads and updates
      the own profile. */
  function Permits(e: Endpoint, p: Principal): (r: bool)
    ensures r ==> IsAuthenticated(p)
    ensures p.Authenticated? && p.authority == RoleAdmin ==> r
    ensures p.Authenticated? && p.authority != RoleAdmin ==>
      (r <==> e in {GetMyProfile, UpdateMyProfile})
  {
    GrantedRoleNames();
    match e
    case GetAllUsers => HasRole(p, "ADMIN")
    case GetUserById => HasRole(p, "ADMIN")
    case UpdateUser => HasRole(p, "ADMIN")
    case DeleteUser => HasRole(p, "ADMIN")
    case ChangeUserRole => HasRole(p, "ADMIN")
    case GetMyProfile => IsAuthenticated(p)
    case UpdateMyProfile => IsAuthenticated(p)
  }
}
