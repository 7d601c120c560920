/** The caller as method security sees it, and the role expressions used in
    the controllers' `@PreAuthorize` annotations. */
module Security {
  import opened Model

  /** An anonymous caller, or an authenticated one with its user id and the
      authority (role name) it was granted. */
  datatype Principal = Anonymous | Authenticated(userId: int, authority: string)

  /** `isAuthenticated()`. */
  predicate IsAuthenticated(p: Principal) {
    p.Authenticated?
  }

  /** `hasRole('X')`: the granted authority is "ROLE_X". */
  predicate HasRole(p: Principal, role: string) {
    p.Authenticated? && p.authority == RolePrefix + role
  }

  /** `hasAnyRole('X', 'Y')`. */
  predicate HasAnyRole(p: Principal, x: string, y: string) {
    HasRole(p, x) || HasRole(p, y)
  }

  /** The role names the annotations spell out, with the prefix added, are
      the three stored role names, and these differ. */
  lemma GrantedRoleNames()
    ensures RolePrefix + "ADMIN" == RoleAdmin
    ensures RolePrefix + "AGENT" == RoleAgent
    ensures RolePrefix + "USER" == RoleUser
    ensures RoleAdmin != RoleAgent && RoleAdmin != RoleUser && RoleAgent != RoleUser
  {
    assert RoleAdmin[6] != RoleAgent[6];
  }

  /** The principal speaks for a stored user and carries that user's role. */
  predicate ActsAs(p: Principal, users: map<int, User>) {
    p.Authenticated? && p.userId in users && users[p.userId].role == p.authority
  }
}
