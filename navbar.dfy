/** The navbar hook (hooks/use-navbar.tsx): the guest fallback for a missing
    user, the dashboard each role is sent to, and the two menu flags. */
module Navbar {
  import opened Common
  import AuthFlow

  /** The fields of the signed-in user the navbar reads. */
  datatype NavUser = NavUser(id: Option<string>, role: string)

  /** `user || { id: null, role: "guest" }`. */
  function SafeUser(user: Option<NavUser>): (r: NavUser)
    ensures user.Some? ==> r == user.value
    ensures user.None? ==> r.id.None? && r.role == "guest"
  {
    user.GetOr(NavUser(None, "guest"))
  }

  /** The dashboard of a role: `/admin`, `/staff`, otherwise `/customer`. */
  function DashboardUrl(role: string): (r: string)
    ensures role == "admin" <==> r == "/admin"
    ensures role == "staff" <==> r == "/staff"
    ensures role != "admin" && role != "staff" <==> r == "/customer"
  {
    if role == "admin" then "/admin" else if role == "staff" then "/staff" else "/customer"
  }

  /** Admins and staff land on their dashboard both after login and from
      the navbar; every other role, guests included, lands on "/" after
      login but on `/customer` from the navbar. */
  lemma DashboardAgreesWithLogin(role: string)
    ensures role in {"admin", "staff"} ==> DashboardUrl(role) == AuthFlow.LoginRoute(Some(role))
    ensures role !in {"admin", "staff"} ==> DashboardUrl(role) == "/customer" && AuthFlow.LoginRoute(Some(role)) == "/"
    ensures DashboardUrl(SafeUser(None).role) == "/customer"
  {
  }

  /** The hook's state; navigations are recorded in `pushes`. */
  class NavbarHook {
    var isMobileMenuOpen: bool
    var isProfileDropdownOpen: bool
    var pushes: seq<string>

    constructor ()
      ensures !isMobileMenuOpen && !isProfileDropdownOpen && pushes == []
    {
      isMobileMenuOpen, isProfileDropdownOpen, pushes := false, false, [];
    }

    method ToggleMobileMenu()
      modifies this
      ensures isMobileMenuOpen == !old(isMobileMenuOpen)
      ensures isProfileDropdownOpen == old(isProfileDropdownOpen) && pushes == old(pushes)
    {
      isMobileMenuOpen := !isMobileMenuOpen;
    }

    method ToggleProfileDropdown()
      modifies this
      ensures isProfileDropdownOpen == !old(isProfileDropdownOpen)
      ensures isMobileMenuOpen == old(isMobileMenuOpen) && pushes == old(pushes)
    {
      isProfileDropdownOpen := !isProfileDropdownOpen;
    }

    /** `handleDashboardClick`: goes to the user's dashboard and closes both menus. */
    method HandleDashboardClick(user: Option<NavUser>)
      modifies this
      ensures pushes == old(pushes) + [DashboardUrl(SafeUser(user).role)]
      ensures !isMobileMenuOpen && !isProfileDropdownOpen
    {
      var safeUser := SafeUser(user);
      pushes := pushes + [DashboardUrl(safeUser.role)];
      isProfileDropdownOpen := false;
      isMobileMenuOpen := false;
    }

    /** `handleLogoutClick`: logs out through the sign-in hook, which goes to
        `/auth/login`, then closes both menus. */
    method HandleLogoutClick(auth: AuthFlow.AuthHook, logout: AuthFlow.Call<bool>)
      modifies this, auth
      ensures auth.pushes == old(auth.pushes) + ["/auth/login"]
      ensures !isMobileMenuOpen && !isProfileDropdownOpen && pushes == old(pushes)
    {
      auth.HandleLogout(logout);
      isProfileDropdownOpen := false;
      isMobileMenuOpen := false;
    }
  }
}
