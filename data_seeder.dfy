/** The start-up runner that seeds the role table with the three roles and
    creates the administrator account when no user has its email. */
module DataSeeder {
  import opened Base
  import opened Model
  import opened Persistence
  import Security

  const AdminEmail := "admin@gmail.com"
  const AdminFirstName := "Super"
  const AdminLastName := "Admin"
  const AdminRoleMissingMessage := "ROLE_ADMIN not found after seeding"

  /** The role table after `createRoleIfNotExists(name)`. */
  function WithRole(roles: seq<string>, name: string): (r: seq<string>)
    ensures name in r
    ensures forall x :: x in r <==> x in roles || x == name
    ensures |roles| <= |r| <= |roles| + 1 && r[..|roles|] == roles
  {
    if name in roles then roles else roles + [name]
  }

  /** The role table after `seedRoles`. */
  function SeededRoles(roles: seq<string>): (r: seq<string>)
    ensures RoleAdmin in r && RoleAgent in r && RoleUser in r
    ensures forall x :: x in r <==> x in roles || x in [RoleAdmin, RoleAgent, RoleUser]
    ensures |roles| <= |r| <= |roles| + 3 && r[..|roles|] == roles
  {
    WithRole(WithRole(WithRole(roles, RoleAdmin), RoleAgent), RoleUser)
  }

  predicate NoDuplicates(roles: seq<string>) {
    forall i, j :: 0 <= i < j < |roles| ==> roles[i] != roles[j]
  }

  /** Creating a role that is missing never duplicates a name. */
  lemma WithRoleKeepsNoDuplicates(roles: seq<string>, name: string)
    requires NoDuplicates(roles)
    ensures NoDuplicates(WithRole(roles, name))
  {
  }

  /** Seeding an empty role table gives exactly the three roles. */
  lemma SeedEmptyRoles()
    ensures SeededRoles([]) == [RoleAdmin, RoleAgent, RoleUser]
  {
    Security.GrantedRoleNames();
  }

  /** Seeding keeps a table free of duplicate names, and seeding twice is
      seeding once. */
  lemma SeedRolesIdempotent(roles: seq<string>)
    ensures NoDuplicates(roles) ==> NoDuplicates(SeededRoles(roles))
    ensures SeededRoles(SeededRoles(roles)) == SeededRoles(roles)
  {
    if NoDuplicates(roles) {
      WithRoleKeepsNoDuplicates(roles, RoleAdmin);
      WithRoleKeepsNoDuplicates(WithRole(roles, RoleAdmin), RoleAgent);
      WithRoleKeepsNoDuplicates(WithRole(WithRole(roles, RoleAdmin), RoleAgent), RoleUser);
    }
  }

  /** Some user has the email (`findByEmail` is not empty). */
  predicate HasUserWithEmail(users: map<int, User>, email: string) {
    exists id :: id in users && users[id].email == email
  }

  /** The administrator row saved under `id`. */
  function AdminUser(id: int, encodedPassword: string, now: int): (u: User)
    ensures u.id == id && u.email == AdminEmail && u.role == RoleAdmin && u.active
    ensures u.firstName == AdminFirstName && u.lastName == AdminLastName
    ensures u.password == encodedPassword && u.phone.None? && u.createdAt == now
  {
    User(id, AdminFirstName, AdminLastName, AdminEmail, None, encodedPassword, RoleAdmin, true, now)
  }

  method CreateRoleIfNotExists(s: Store, name: string)
    modifies s`roles
    ensures s.roles == WithRole(old(s.roles), name)
  {
    if name !in s.roles {
      s.roles := s.roles + [name];
    }
  }

  method SeedRoles(s: Store)
    modifies s`roles
    ensures s.roles == SeededRoles(old(s.roles))
  {
    CreateRoleIfNotExists(s, RoleAdmin);
    CreateRoleIfNotExists(s, RoleAgent);
    CreateRoleIfNotExists(s, RoleUser);
  }

  /** Creates the administrator when no user has its email; fails when the
      admin role is missing. `encodedPassword` is the password encoder's
      output for the initial password "admin123". */
  method SeedAdminUser(s: Store, encodedPassword: string, now: int) returns (r: Outcome)
    requires s.Valid()
    modifies s`users, s`nextUserId
    ensures s.Valid()
    ensures HasUserWithEmail(old(s.users), AdminEmail) ==>
      r == Pass && s.users == old(s.users) && s.nextUserId == old(s.nextUserId)
    ensures !HasUserWithEmail(old(s.users), AdminEmail) && RoleAdmin !in s.roles ==>
      r == Fail(Unexpected(AdminRoleMissingMessage)) && s.users == old(s.users) && s.nextUserId == old(s.nextUserId)
    ensures !HasUserWithEmail(old(s.users), AdminEmail) && RoleAdmin in s.roles ==>
      && r == Pass
      && s.users == old(s.users)[old(s.nextUserId) := AdminUser(old(s.nextUserId), encodedPassword, now)]
      && s.nextUserId == old(s.nextUserId) + 1
    ensures r.Pass? ==> HasUserWithEmail(s.users, AdminEmail)
  {
    if exists id :: id in s.users && s.users[id].email == AdminEmail {
      return Pass;
    }
    if RoleAdmin !in s.roles {
      return Fail(Unexpected(AdminRoleMissingMessage));
    }
    var id := s.nextUserId;
    s.users := s.users[id := AdminUser(id, encodedPassword, now)];
    s.nextUserId := id + 1;
    assert s.users[id].email == AdminEmail;
    r := Pass;
  }

  /** The runner: seed the roles, then the administrator. It always succeeds,
      and afterwards the three roles and the administrator's email exist. */
  method Run(s: Store, encodedPassword: string, now: int) returns (r: Outcome)
    requires s.Valid()
    modifies s`roles, s`users, s`nextUserId
    ensures s.Valid()
    ensures r == Pass
    ensures s.roles == SeededRoles(old(s.roles))
    ensures HasUserWithEmail(s.users, AdminEmail)
    ensures HasUserWithEmail(old(s.users), AdminEmail) ==>
      s.users == old(s.users) && s.nextUserId == old(s.nextUserId)
  {
    SeedRoles(s);
    r := SeedAdminUser(s, encodedPassword, now);
  }
}
