/** The administrator login form, shared by the super-admin and admin login
    pages: the check for an existing session of the required role, and the
    role rule of the login submission. */
module AdminLogin {
  import opened JsValues
  import opened Roles
  import opened Cookies
  import opened TokenStore
  import opened Identities
  import opened AuthContext

  /** The outcome of the existing-session check. */
  datatype CheckStep = NoLookup | Stay | Redirect(to: string)

  /** The answer of the login endpoint: a credential and the administrator's
      role, or a failure with the server's message, if any. */
  datatype LoginResponse = LoginOk(accessToken: Option<string>, adminRole: Option<string>)
                         | LoginFailed(message: Option<string>)

  /** The role the existing-session check looks for: `admin` unless the page
      requires another. */
  function CheckedRole(requireRole: Option<string>): (r: string)
    ensures r != []
    ensures !Truthy(requireRole) ==> r == Admin
  {
    if Truthy(requireRole) then requireRole.value else Admin
  }

  /** Where a signed-in administrator of a role is sent. */
  function AdminHome(role: string): (to: string)
    ensures to == (if role == SuperAdmin then Dashboard(SuperAdmin) else Dashboard(Admin))
  {
    if role == SuperAdmin then "/super-admin/dashboard" else "/admin/dashboard"
  }

  /** The existing-session check: without a credential in the checked role's
      slot nothing is asked; otherwise `/auth/me` (answering `lookup`) must
      name the checked role for the page to redirect. */
  function ExistingSession(requireRole: Option<string>, cookie: string, pathname: string, lookup: Lookup): CheckStep
  {
    var role := CheckedRole(requireRole);
    var token := GetAccessToken(cookie, Some(role), pathname);
    if !Truthy(token) then NoLookup
    else match lookup
      case Found(id) => if PageRole(id) == Some(role) then Redirect(AdminHome(role)) else Stay
      case LookupFailed => Stay
  }

  /** The check redirects exactly when the checked role's slot holds a
      credential and the identity found has that role; with a well-formed jar
      that slot is the jar's entry for the role, and an unknown role never
      gets past the slot. */
  lemma ExistingSessionExact(requireRole: Option<string>, jar: seq<Cookie>, pathname: string, lookup: Lookup)
    requires ValidJar(jar)
    ensures var role, step := CheckedRole(requireRole), ExistingSession(requireRole, Serialize(jar), pathname, lookup);
      && (step == NoLookup <==> role !in AllRoles || !Truthy(Get(View(jar), SlotFor(role))))
      && (step.Redirect? <==>
            && role in AllRoles && Truthy(Get(View(jar), SlotFor(role)))
            && lookup.Found? && PageRole(lookup.identity) == Some(role))
      && (step.Redirect? ==> step.to == AdminHome(role) && RoleOfPath(step.to).Some?)
  {
    var role := CheckedRole(requireRole);
    if role in AllRoles {
      RoleTokenReadsSlot(jar, role, pathname);
      DashboardInItsArea(SuperAdmin);
      DashboardInItsArea(Admin);
    } else {
      UnknownRoleHasNoToken(Serialize(jar), role, pathname);
    }
  }

  /** The role a successful login acts as: the administrator's own role, or
      `admin` when none is given. */
  function LoginRole(adminRole: Option<string>): (r: string)
    ensures r != []
    ensures Truthy(adminRole) ==> r == adminRole.value
    ensures !Truthy(adminRole) ==> r == Admin
  {
    if Truthy(adminRole) then adminRole.value else Admin
  }

  function MismatchMessage(requireRole: string): string
  {
    "This page is only for " + requireRole + "."
  }

  /** What the submission does with the login answer: store the credential
      under a role, or show a message. */
  function LoginDecision(requireRole: Option<string>, response: LoginResponse): Result<string>
  {
    match response
    case LoginFailed(message) => Err(Or(message, Some("Login failed")).value)
    case LoginOk(_, adminRole) =>
      var role := LoginRole(adminRole);
      if Truthy(requireRole) && role != requireRole.value then Err(MismatchMessage(requireRole.value))
      else Ok(role)
  }

  /** A login is accepted only under the page's required role (when it has
      one), and a mismatch yields the page's message. */
  lemma LoginRoleMatches(requireRole: Option<string>, response: LoginResponse)
    ensures var d := LoginDecision(requireRole, response);
      && (d.Ok? <==> response.LoginOk? &&
                     (!Truthy(requireRole) || LoginRole(response.adminRole) == requireRole.value))
      && (d.Ok? ==> d.value != [] && (Truthy(requireRole) ==> d.value == requireRole.value))
      && (response.LoginOk? && !d.Ok? ==> d.message == MismatchMessage(requireRole.value))
      && (response.LoginFailed? ==>
            d.message == (if Truthy(response.message) then response.message.value else "Login failed"))
  {
  }

  /** An accepted login of a known role stores the credential in that role's
      slot only, and the form then sends the administrator to the matching
      home page. */
  lemma AcceptedLoginStoresUnderRole(w: World, requireRole: Option<string>, token: string, adminRole: Option<string>,
                                     other: string)
    requires token != []
    requires LoginDecision(requireRole, LoginOk(Some(token), adminRole)).Ok?
    requires LoginRole(adminRole) in AllRoles && other in AllRoles && other != LoginRole(adminRole)
    ensures var r := LoginRole(adminRole); var w' := SetTokenSpec(w, Some(token), Some(r));
      && w'.state.activeRole == Some(r)
      && Get(w'.cookies, SlotFor(r)) == Some(FirstField(token))
      && Get(w'.cookies, SlotFor(other)) == Get(w.cookies, SlotFor(other))
      && (AdminHome(r) == Dashboard(SuperAdmin) <==> r == SuperAdmin)
  {
    var r := LoginRole(adminRole);
    SetTokenWithRole(w, token, r, SlotFor(other));
    SlotsAreABijection(r, other);
    assert "/admin/dashboard" != "/super-admin/dashboard" by {
      assert "/admin/dashboard"[1] != "/super-admin/dashboard"[1];
    }
  }

  /** The form's own state. */
  class AdminLoginForm {
    const requireRole: Option<string>
    var error: Option<string>
    var busy: bool
    var checking: bool

    constructor (requireRole: Option<string>)
      ensures this.requireRole == requireRole && error.None? && !busy && checking
    {
      this.requireRole := requireRole;
      error := None;
      busy := false;
      checking := true;
    }

    /** The existing-session check, on the page's cookies; checking ends on
        every path. */
    method CheckExisting(cookie: string, pathname: string, lookup: Lookup) returns (step: CheckStep)
      modifies this
      ensures step == ExistingSession(requireRole, cookie, pathname, lookup)
      ensures !checking && error == old(error) && busy == old(busy)
    {
      var role := if Truthy(requireRole) then requireRole.value else Admin;
      var token := GetAccessToken(cookie, Some(role), pathname);
      if !Truthy(token) {
        checking := false;
        return NoLookup;
      }
      step := Stay;
      match lookup {
        case Found(id) =>
          var gotRole := PageRole(id);
          if gotRole == Some(role) {
            step := Redirect(if role == SuperAdmin then "/super-admin/dashboard" else "/admin/dashboard");
          }
        case LookupFailed =>
      }
      checking := false;
    }

    /** The login submission: on an accepted role store the credential,
        reload the identity (whose request is answered as `meAnswer` says) and go home; on a
        mismatch or a failure only show the message. */
    method Submit(session: Session, response: LoginResponse, pathname: string, meAnswer: MeAnswer)
      returns (target: Option<string>)
      requires session.Valid()
      modifies this, session, session.jar, session.refresher
      ensures session.Valid() && !busy
      ensures match LoginDecision(requireRole, response)
        case Ok(role) =>
          && error.None? && target == Some(AdminHome(role))
          && session.Current() ==
               LoadMeSpec(SetTokenSpec(old(session.Current()), response.accessToken, Some(role)), None, pathname,
                          MeCallOf(meAnswer, old(session.refresher.flight), old(session.me)))
        case Err(message) =>
          && error == Some(message) && target.None?
          && session.Current() == old(session.Current()) && unchanged(session.refresher)
    {
      error := None;
      busy := true;
      target := None;
      match response {
        case LoginFailed(message) =>
          error := Or(message, Some("Login failed"));
        case LoginOk(accessToken, adminRole) =>
          var role := if Truthy(adminRole) then adminRole.value else Admin;
          if Truthy(requireRole) && role != requireRole.value {
            error := Some("This page is only for " + requireRole.value + ".");
          } else {
            session.SetToken(accessToken, Some(role));
            var _ := session.LoadMe(None, pathname, meAnswer);
            if role == SuperAdmin {
              target := Some("/super-admin/dashboard");
            } else {
              target := Some("/admin/dashboard");
            }
          }
      }
      busy := false;
    }
  }
}
