/**
 * The frontend's authentication context: three pieces of state (`user`, `role`,
 * `isAuthenticated`) and the browser's `localStorage`, which outlives the component and
 * is therefore a field the constructor receives. Navigation targets are returned.
 */
module AuthContext {
  import opened Common
  import Auth

  datatype SessionUser = SessionUser(token: string, role: string)

  /** The page `login` navigates to: matched case-sensitively on the lower-case names. */
  function DashboardFor(userRole: string): (target: string)
    ensures target == "/admin-dashboard" <==> userRole == "admin"
    ensures target == "/doctor-dashboard" <==> userRole == "doctor"
    ensures target == "/patient-dashboard" <==> userRole != "admin" && userRole != "doctor"
  {
    if userRole == "admin" then "/admin-dashboard"
    else if userRole == "doctor" then "/doctor-dashboard"
    else "/patient-dashboard"
  }

  /** The backend's roles are capitalised, so every one of them, Admin and Doctor included, lands on the patient dashboard. */
  lemma BackendRolesLandOnPatientDashboard()
    ensures forall r :: r in Auth.ROLES ==> DashboardFor(r) == "/patient-dashboard"
    ensures DashboardFor("Admin") == "/patient-dashboard"
  {
  }

  class AuthState {
    var user: Option<SessionUser>
    var role: Option<string>
    var isAuthenticated: bool
    /** `localStorage`, by key. */
    var storage: map<string, string>

    /** The three state fields agree with each other, and a signed-in session is the one stored. */
    ghost predicate Valid()
      reads this
    {
      (isAuthenticated <==> user.Some?)
      && (user.Some? ==> role == Some(user.value.role))
      && (user.None? ==> role.None?)
      && (user.Some? ==> "token" in storage && storage["token"] == user.value.token
                         && "role" in storage && storage["role"] == user.value.role)
    }

    /** The initial state: no user, no role, not authenticated; storage as the browser holds it. */
    constructor (stored: map<string, string>)
      ensures Valid()
      ensures user.None? && role.None? && !isAuthenticated && storage == stored
    {
      user := None;
      role := None;
      isAuthenticated := false;
      storage := stored;
    }

    /** The mount effect: authenticated iff a non-empty token and a non-empty role are stored. */
    method Mount()
      requires Valid()
      modifies this
      ensures Valid() && storage == old(storage)
      ensures isAuthenticated <==> Present(Lookup(storage, "token")) && Present(Lookup(storage, "role"))
      ensures isAuthenticated ==>
        user == Some(SessionUser(storage["token"], storage["role"])) && role == Some(storage["role"])
      ensures !isAuthenticated ==> user.None? && role.None?
    {
      var token := Lookup(storage, "token");
      var userRole := Lookup(storage, "role");
      if Present(token) && Present(userRole) {
        isAuthenticated := true;
        role := Some(userRole.value);
        user := Some(SessionUser(token.value, userRole.value));
      } else {
        isAuthenticated := false;
        role := None;
        user := None;
      }
    }

    /** `login`: both keys stored, the session set, and the dashboard for the role returned. */
    method Login(token: string, userRole: string) returns (target: string)
      requires Valid()
      modifies this
      ensures Valid()
      ensures storage == old(storage)["token" := token]["role" := userRole]
      ensures isAuthenticated && role == Some(userRole) && user == Some(SessionUser(token, userRole))
      ensures target == DashboardFor(userRole)
    {
      storage := storage["token" := token];
      storage := storage["role" := userRole];
      isAuthenticated := true;
      role := Some(userRole);
      user := Some(SessionUser(token, userRole));
      target := DashboardFor(userRole);
    }

    /** `logout`: both keys removed, the three fields cleared, and `/` returned. */
    method Logout() returns (target: string)
      requires Valid()
      modifies this
      ensures Valid()
      ensures storage == old(storage) - {"token", "role"}
      ensures !isAuthenticated && role.None? && user.None?
      ensures target == "/"
    {
      storage := storage - {"token"};
      storage := storage - {"role"};
      isAuthenticated := false;
      role := None;
      user := None;
      target := "/";
    }
  }

  /** `localStorage.getItem(key)`: null (None) for a key never set. */
  function Lookup(storage: map<string, string>, key: string): (v: Option<string>)
    ensures v.Some? <==> key in storage
    ensures v.Some? ==> v.value == storage[key]
  {
    if key in storage then Some(storage[key]) else None
  }

  /** Login followed by logout leaves no session and no stored token or role, whatever was there before. */
  method LoginThenLogout(s: AuthState, token: string, userRole: string)
    requires s.Valid()
    modifies s
    ensures s.Valid() && !s.isAuthenticated && s.user.None?
    ensures "token" !in s.storage && "role" !in s.storage
    ensures s.storage == old(s.storage) - {"token", "role"}
  {
    var _ := s.Login(token, userRole);
    var _ := s.Logout();
  }

  /** A reload after login restores the same session exactly when the token and the role are both non-empty. */
  method LoginThenReload(s: AuthState, token: string, userRole: string) returns (restored: AuthState)
    requires s.Valid()
    modifies s
    ensures restored.Valid()
    ensures restored.isAuthenticated <==> token != "" && userRole != ""
    ensures restored.isAuthenticated ==>
      restored.user == s.user && restored.role == s.role
  {
    var _ := s.Login(token, userRole);
    restored := new AuthState(s.storage);
    restored.Mount();
  }
}
