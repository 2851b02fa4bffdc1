/** The sign-in hook (hooks/use-auth.tsx): the register guard, the role
    redirect after login, the busy flags, and logout. Each service call
    either throws or returns a value; which one is an input, and so is the
    role the profile lookup reports. Router navigations are recorded in
    `pushes`, in order. */
module AuthFlow {
  import opened Common

  /** What an awaited service call did. */
  datatype Call<T> = Threw | Returned(value: T)

  /** Where a successful login goes: `/admin` for admins, `/staff` for
      staff, "/" for any other role or none. */
  function LoginRoute(role: Option<string>): (r: string)
    ensures role == Some("admin") <==> r == "/admin"
    ensures role == Some("staff") <==> r == "/staff"
    ensures role != Some("admin") && role != Some("staff") <==> r == "/"
  {
    if role == Some("admin") then "/admin"
    else if role == Some("staff") then "/staff"
    else "/"
  }

  /** The hook's state. */
  class AuthHook {
    var isLogin: bool
    var isRegister: bool
    var pushes: seq<string>

    constructor ()
      ensures !isLogin && !isRegister && pushes == []
    {
      isLogin, isRegister, pushes := false, false, [];
    }

    /** `handleLogin`: a login the service refuses or that throws goes
        nowhere; after a successful login the profile's role picks the
        route, unless the lookup throws. The flag is false afterwards. */
    method HandleLogin(login: Call<bool>, role: Call<Option<string>>)
      modifies this
      ensures !isLogin && isRegister == old(isRegister)
      ensures login == Returned(true) && role.Returned? ==> pushes == old(pushes) + [LoginRoute(role.value)]
      ensures !(login == Returned(true) && role.Returned?) ==> pushes == old(pushes)
    {
      isLogin := true;
      if login == Returned(true) && role.Returned? {
        pushes := pushes + [LoginRoute(role.value)];
      }
      isLogin := false;
    }

    /** `handleRegister`: mismatched passwords are refused before the
        service is called, leaving everything as it was; otherwise a
        successful registration goes to `/auth/success`, and the flag is
        false afterwards. */
    method HandleRegister(password: string, confirmPassword: string, register: Call<bool>) returns (called: bool)
      modifies this
      ensures called <==> password == confirmPassword
      ensures !called ==> isRegister == old(isRegister) && pushes == old(pushes)
      ensures called ==> !isRegister
      ensures called && register == Returned(true) ==> pushes == old(pushes) + ["/auth/success"]
      ensures called && register != Returned(true) ==> pushes == old(pushes)
      ensures isLogin == old(isLogin)
    {
      if password != confirmPassword {
        return false;
      }
      called := true;
      isRegister := true;
      if register == Returned(true) {
        pushes := pushes + ["/auth/success"];
      }
      isRegister := false;
    }

    /** `handleLogout`: whatever the service does, the last navigation is to `/auth/login`. */
    method HandleLogout(logout: Call<bool>)
      modifies this
      ensures pushes == old(pushes) + ["/auth/login"]
      ensures isLogin == old(isLogin) && isRegister == old(isRegister)
    {
      pushes := pushes + ["/auth/login"];
    }
  }
}
