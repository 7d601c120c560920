/** User administration: lookups, the partial profile update, role changes
    and deletion. The caller is an explicit actor id (the authenticated
    user's row). */
module UserService {
  import opened Base
  import opened Strings
  import opened Model
  import opened Requests
  import opened Persistence

  const AuthenticatedUserNotFound := "Authenticated user not found"

  function UserNotFoundMessage(id: int): string {
    "User not found with id: " + IntToString(id)
  }

  function RoleNotFoundMessage(fullRoleName: string): string {
    "Role not found: " + fullRoleName
  }

  /** The public view of a user; the password is not part of it. */
  datatype UserResponse = UserResponse(
    id: int,
    firstName: string,
    lastName: string,
    email: string,
    phone: Option<string>,
    role: string,
    active: bool,
    createdAt: int)

  /** `getAuthenticatedUser`: the actor's own row. */
  function AuthenticatedUser(users: map<int, User>, actorId: int): (r: Result<User>)
    ensures r.Ok? <==> actorId in users
    ensures r.Ok? ==> r.value == users[actorId]
    ensures r.Err? ==> r.error == ResourceNotFound(AuthenticatedUserNotFound)
  {
    if actorId in users then Ok(users[actorId]) else Err(ResourceNotFound(AuthenticatedUserNotFound))
  }

  /** `findUserById`. */
  function FindUserById(users: map<int, User>, id: int): (r: Result<User>)
    ensures r.Ok? <==> id in users
    ensures r.Ok? ==> r.value == users[id]
    ensures r.Err? ==> r.error == ResourceNotFound(UserNotFoundMessage(id))
  {
    if id in users then Ok(users[id]) else Err(ResourceNotFound(UserNotFoundMessage(id)))
  }

  /** `applyUpdates`: each non-null request field replaces the user's field;
      everything else is kept. */
  function ApplyUpdates(u: User, req: UpdateUserRequest): (r: User)
    ensures req.firstName.Some? ==> r.firstName == req.firstName.value
    ensures req.lastName.Some? ==> r.lastName == req.lastName.value
    ensures req.email.Some? ==> r.email == req.email.value
    ensures req.phone.Some? ==> r.phone == req.phone
    ensures r.(firstName := u.firstName, lastName := u.lastName, email := u.email, phone := u.phone) == u
    ensures req.firstName.None? ==> r.firstName == u.firstName
    ensures req.lastName.None? ==> r.lastName == u.lastName
    ensures req.email.None? ==> r.email == u.email
    ensures req.phone.None? ==> r.phone == u.phone
  {
    var u1 := if req.firstName.Some? then u.(firstName := req.firstName.value) else u;
    var u2 := if req.lastName.Some? then u1.(lastName := req.lastName.value) else u1;
    var u3 := if req.email.Some? then u2.(email := req.email.value) else u2;
    if req.phone.Some? then u3.(phone := req.phone) else u3
  }

  /** Applying the same update twice is the same as applying it once. */
  lemma ApplyUpdatesIdempotent(u: User, req: UpdateUserRequest)
    ensures ApplyUpdates(ApplyUpdates(u, req), req) == ApplyUpdates(u, req)
  {
  }

  /** Two updates in a row equal one update whose later non-null fields win. */
  lemma ApplyUpdatesCompose(u: User, a: UpdateUserRequest, b: UpdateUserRequest)
    ensures ApplyUpdates(ApplyUpdates(u, a), b) == ApplyUpdates(u, UpdateUserRequest(
      if b.firstName.Some? then b.firstName else a.firstName,
      if b.lastName.Some? then b.lastName else a.lastName,
      if b.email.Some? then b.email else a.email,
      if b.phone.Some? then b.phone else a.phone))
  {
  }

  function ToResponse(u: User): (r: UserResponse)
    ensures r.id == u.id && r.role == u.role && r.active == u.active
    ensures r.firstName == u.firstName && r.lastName == u.lastName
    ensures r.email == u.email && r.phone == u.phone && r.createdAt == u.createdAt
  {
    UserResponse(u.id, u.firstName, u.lastName, u.email, u.phone, u.role, u.active, u.createdAt)
  }

  /** The response shows every column but the password: two users give the
      same response exactly when they differ at most in their password. */
  lemma ResponseIsUserWithoutPassword(u: User, v: User)
    ensures ToResponse(u) == ToResponse(v) <==> u.(password := v.password) == v
  {
  }

  /** The role name `changeUserRole` looks up. */
  function RoleFullName(roleName: string): (r: string)
    ensures StartsWith(r, RolePrefix)
    ensures |r| == |RolePrefix| + |roleName|
    ensures r[|RolePrefix|..] == ToUpper(roleName)
  {
    RolePrefix + ToUpper(roleName)
  }

  /** The role parameter is case-insensitive. */
  lemma RoleFullNameIgnoresCase(roleName: string)
    ensures RoleFullName(ToUpper(roleName)) == RoleFullName(roleName)
  {
    UpperOfUpper(roleName);
  }

  /** A name without lower-case letters is looked up as given. */
  lemma {:induction false} RoleFullNameOfUpperCase(roleName: string)
    requires forall i :: 0 <= i < |roleName| ==> !('a' <= roleName[i] <= 'z')
    ensures RoleFullName(roleName) == RolePrefix + roleName
  {
    var t := ToUpper(roleName);
    assert forall i :: 0 <= i < |roleName| ==> t[i] == roleName[i];
  }

  /** The parameter is the bare role name: "ADMIN" selects ROLE_ADMIN. */
  lemma RoleFullNameOfAdmin()
    ensures RoleFullName("ADMIN") == RoleAdmin
  {
    RoleFullNameOfUpperCase("ADMIN");
  }

  /** A name that already carries the prefix gets it twice. */
  lemma RoleFullNameOfPrefixedName()
    ensures RoleFullName("ROLE_USER") == "ROLE_ROLE_USER"
  {
  }

  // ------------------------------------------------------------------ reads

  /** `getAllUsers`: every user, as a response. */
  function GetAllUsers(users: map<int, User>): (r: map<int, UserResponse>)
    ensures r.Keys == users.Keys
    ensures forall id :: id in r ==> r[id] == ToResponse(users[id])
  {
    map id | id in users :: ToResponse(users[id])
  }

  function GetUserById(users: map<int, User>, id: int): (r: Result<UserResponse>)
    ensures r.Ok? <==> id in users
    ensures r.Ok? ==> r.value == ToResponse(users[id])
    ensures r.Err? ==> r.error == ResourceNotFound(UserNotFoundMessage(id))
  {
    match FindUserById(users, id)
    case Ok(u) => Ok(ToResponse(u))
    case Err(e) => Err(e)
  }

  function GetCurrentUser(users: map<int, User>, actorId: int): (r: Result<UserResponse>)
    ensures r.Ok? <==> actorId in users
    ensures r.Ok? ==> r.value == ToResponse(users[actorId])
    ensures r.Err? ==> r.error == ResourceNotFound(AuthenticatedUserNotFound)
  {
    match AuthenticatedUser(users, actorId)
    case Ok(u) => Ok(ToResponse(u))
    case Err(e) => Err(e)
  }

  // ----------------------------------------------------------------- writes

  /** `updateUser`: the partial update of the user with this id. */
  method UpdateUser(s: Store, id: int, req: UpdateUserRequest) returns (r: Result<User>)
    requires s.Valid()
    modifies s`users
    ensures s.Valid()
    ensures id !in old(s.users) ==>
      r == Err(ResourceNotFound(UserNotFoundMessage(id))) && s.users == old(s.users)
    ensures id in old(s.users) ==>
      r == Ok(ApplyUpdates(old(s.users)[id], req)) && s.users == old(s.users)[id := r.value]
  {
    var found := FindUserById(s.users, id);
    if found.Err? {
      return Err(found.error);
    }
    var u := ApplyUpdates(found.value, req);
    s.users := s.users[id := u];
    r := Ok(u);
  }

  /** `updateCurrentUser`: the same partial update on the actor's own row. */
  method UpdateCurrentUser(s: Store, actorId: int, req: UpdateUserRequest) returns (r: Result<User>)
    requires s.Valid()
    modifies s`users
    ensures s.Valid()
    ensures actorId !in old(s.users) ==>
      r == Err(ResourceNotFound(AuthenticatedUserNotFound)) && s.users == old(s.users)
    ensures actorId in old(s.users) ==>
      r == Ok(ApplyUpdates(old(s.users)[actorId], req)) && s.users == old(s.users)[actorId := r.value]
  {
    var found := AuthenticatedUser(s.users, actorId);
    if found.Err? {
      return Err(found.error);
    }
    var u := ApplyUpdates(found.value, req);
    s.users := s.users[actorId := u];
    r := Ok(u);
  }

  /** `deleteUser`: removes the row; nothing guards users who still own
      properties or bookings. */
  method DeleteUser(s: Store, id: int) returns (r: Outcome)
    requires s.Valid()
    modifies s`users
    ensures s.Valid()
    ensures id !in old(s.users) ==>
      r == Fail(ResourceNotFound(UserNotFoundMessage(id))) && s.users == old(s.users)
    ensures id in old(s.users) ==> r == Pass && s.users == old(s.users) - {id}
  {
    var found := FindUserById(s.users, id);
    if found.Err? {
      return Fail(found.error);
    }
    s.users := s.users - {id};
    r := Pass;
  }

  /** `changeUserRole`: looks up "ROLE_" + the upper-cased name in the role
      table and sets it; only the role changes. */
  method ChangeUserRole(s: Store, id: int, roleName: string) returns (r: Result<User>)
    requires s.Valid()
    modifies s`users
    ensures s.Valid()
    ensures id !in old(s.users) ==>
      r == Err(ResourceNotFound(UserNotFoundMessage(id))) && s.users == old(s.users)
    ensures id in old(s.users) && RoleFullName(roleName) !in s.roles ==>
      r == Err(IllegalArgument(RoleNotFoundMessage(RoleFullName(roleName)))) && s.users == old(s.users)
    ensures id in old(s.users) && RoleFullName(roleName) in s.roles ==>
      r == Ok(old(s.users)[id].(role := RoleFullName(roleName)))
      && s.users == old(s.users)[id := r.value]
  {
    var found := FindUserById(s.users, id);
    if found.Err? {
      return Err(found.error);
    }
    var fullRoleName := RolePrefix + ToUpper(roleName);
    if fullRoleName !in s.roles {
      return Err(IllegalArgument(RoleNotFoundMessage(fullRoleName)));
    }
    var u := found.value.(role := fullRoleName);
    s.users := s.users[id := u];
    r := Ok(u);
  }
}
