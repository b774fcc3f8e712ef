/** The guard in front of the admin pages (src/components/ProtectedRoute.tsx)
    and the header's Admin link (src/components/Header.tsx), both decided
    from the authentication state. How that state is obtained is not part of
    this model: it is given as the loading flag, the signed-in user (if any)
    and the role string read for that user (if any). */
module ProtectedRoute {
  import opened Seqs
  import opened Entities

  /** what the guard renders */
  datatype GuardView = Spinner | RedirectLogin | RedirectHome | Outlet

  /** the role strings the guard lets through */
  const StaffRoles: seq<string> := ["admin", "manager", "employee"]

  /** the guard's chain of early returns; a missing or empty role counts as
      no role */
  function Guard(loading: bool, user: Option<string>, userRole: Option<string>): GuardView {
    if loading then Spinner
    else if user.None? then RedirectLogin
    else if userRole.None? || userRole.value == "" || userRole.value !in StaffRoles then RedirectHome
    else Outlet
  }

  /** the header shows the Admin link to a signed-in user with a staff role */
  predicate ShowAdminLink(user: Option<string>, userRole: Option<string>) {
    user.Some? && userRole.Some?
    && (userRole.value == "admin" || userRole.value == "manager" || userRole.value == "employee")
  }

  /** While loading the spinner shows whoever is signed in; after loading, no
      user means the login page, and a user without a staff role goes home. */
  lemma {:induction false} GuardSpec(loading: bool, user: Option<string>, userRole: Option<string>)
    ensures loading ==> Guard(loading, user, userRole) == Spinner
    ensures !loading && user.None? ==> Guard(loading, user, userRole) == RedirectLogin
    ensures !loading && user.Some? && (userRole.None? || ParseRole(userRole.value).None?)
            ==> Guard(loading, user, userRole) == RedirectHome
  {
  }

  /** The admin pages render exactly when loading is over, a user is signed
      in and the role names one of the three staff roles of the schema. */
  lemma {:induction false} OutletIff(loading: bool, user: Option<string>, userRole: Option<string>)
    ensures Guard(loading, user, userRole) == Outlet
            <==> !loading && user.Some? && userRole.Some? && ParseRole(userRole.value).Some?
    ensures Guard(loading, user, userRole) == Outlet
            <==> !loading && user.Some? && exists role: Role :: userRole == Some(RoleName(role))
  {
    if !loading && user.Some? && userRole.Some? && ParseRole(userRole.value).Some? {
      var role := ParseRole(userRole.value).value;
      assert userRole == Some(RoleName(role));
    }
  }

  /** Once loading is over, the guard admits exactly the visitors the header
      offers the Admin link to. */
  lemma {:induction false} GuardAgreesWithHeader(user: Option<string>, userRole: Option<string>)
    ensures Guard(false, user, userRole) == Outlet <==> ShowAdminLink(user, userRole)
  {
  }
}
