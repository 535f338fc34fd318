/** `isAdmin(user)`: does the user's role array include `Role.Admin`. */
module AdminCheck {
  import opened Common
  import opened Users

  /** `Array.prototype.includes` on a role array: a left-to-right scan. */
  function Includes(roles: seq<Role>, role: Role): (found: bool)
    ensures found <==> role in roles
  {
    if roles == [] then false
    else roles[0] == role || Includes(roles[1..], role)
  }

  function IsAdmin(user: User): (admin: bool)
    ensures admin <==> Role.Admin in user.roles
  {
    Includes(user.roles, Role.Admin)
  }

  /** Only the set of roles held matters: not their order, not duplicates,
      and no other field of the user. */
  lemma IsAdminDependsOnlyOnRoleSet(u: User, v: User)
    requires forall r :: r in u.roles <==> r in v.roles
    ensures IsAdmin(u) == IsAdmin(v)
  {
  }

  /** The unit-test cases: `[User, Admin]` and `[Admin]` are admins,
      the default `[User]` is not. */
  lemma IsAdminExamples(id: Id, email: string, username: string, password: string)
    ensures IsAdmin(User.User(id, email, username, password, [Role.User, Role.Admin]))
    ensures IsAdmin(User.User(id, email, username, password, [Role.Admin]))
    ensures !IsAdmin(User.User(id, email, username, password, [Role.User]))
  {
  }
}
