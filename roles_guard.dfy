/** `RolesGuard.canActivate` as a pure decision over the route's `roles`
    metadata (absent when the route has no `@HasRoles`) and the roles held
    by the authenticated caller. */
module RolesGuard {
  import opened Common
  import opened Users
  import AdminCheck

  /** `required.some(role => held.includes(role))`, scanning `required`
      left to right. */
  function SomeHeld(required: seq<Role>, held: seq<Role>): (any: bool)
    ensures any <==> exists i :: 0 <= i < |required| && required[i] in held
  {
    if required == [] then false
    else AdminCheck.Includes(held, required[0]) || SomeHeld(required[1..], held)
  }

  function Authorize(required: Option<seq<Role>>, held: seq<Role>): (allowed: bool)
    ensures required.None? ==> allowed
    ensures Role.Admin in held ==> allowed
    ensures required.Some? && Role.Admin !in held ==>
      (allowed <==> exists r :: r in required.value && r in held)
  {
    if required.None? then true
    else if AdminCheck.Includes(held, Role.Admin) then true
    else SomeHeld(required.value, held)
  }

  /** An empty `@HasRoles()` list is present metadata, not absent metadata:
      it admits exactly the admins. */
  lemma EmptyRequiredAdmitsOnlyAdmins(held: seq<Role>)
    ensures Authorize(Some([]), held) <==> Role.Admin in held
  {
  }

  /** Holding more roles never turns an allow into a deny. */
  lemma AuthorizeMonotonic(required: Option<seq<Role>>, held: seq<Role>, more: seq<Role>)
    requires forall r :: r in held ==> r in more
    ensures Authorize(required, held) ==> Authorize(required, more)
  {
  }

  /** Route metadata of the orders controller: `@HasRoles(Role.User)` on
      create, cancel and the caller's own orders, `@HasRoles(Role.Admin)` on
      listing all, process and delete. */
  const UserRoute: Option<seq<Role>> := Some([Role.User])
  const AdminRoute: Option<seq<Role>> := Some([Role.Admin])

  /** A caller holding only the default role is refused on admin routes and
      admitted on user routes; an admin is admitted on both. */
  lemma RouteOutcomes()
    ensures !Authorize(AdminRoute, [Role.User])
    ensures Authorize(UserRoute, [Role.User])
    ensures Authorize(AdminRoute, [Role.Admin]) && Authorize(UserRoute, [Role.Admin])
  {
  }
}
