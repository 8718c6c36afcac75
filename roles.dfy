/** The four roles, the path prefix of each role's area and its dashboard.
    The prefix-to-role chain is written out three times in the application
    (the credential lookup, the start-up bootstrap and logout); it is
    defined once here. */
module Roles {
  import opened JsValues

  const SuperAdmin: string := "super_admin"
  const Admin: string := "admin"
  const Client: string := "client"
  const User: string := "user"

  /** The roles in the fixed priority order of the credential fallback. */
  const AllRoles: seq<string> := [SuperAdmin, Admin, Client, User]

  /** The leading path segment of a role's pages. */
  function Prefix(role: string): (p: string)
    requires role in AllRoles
    ensures |p| >= 3 && p[0] == '/' && p[|p| - 1] == '/'
  {
    if role == SuperAdmin then "/super-admin/"
    else if role == Admin then "/admin/"
    else if role == Client then "/client/"
    else "/user/"
  }

  /** The landing page of a role's area. */
  function Dashboard(role: string): (d: string)
    requires role in AllRoles
    ensures StartsWith(d, Prefix(role))
  {
    Prefix(role) + "dashboard"
  }

  /** The role whose area the pathname lies in, tested in the order
      `/super-admin/`, `/admin/`, `/client/`, `/user/`; `null` elsewhere. */
  function RoleOfPath(pathname: string): Option<string>
  {
    if StartsWith(pathname, "/super-admin/") then Some(SuperAdmin)
    else if StartsWith(pathname, "/admin/") then Some(Admin)
    else if StartsWith(pathname, "/client/") then Some(Client)
    else if StartsWith(pathname, "/user/") then Some(User)
    else None
  }

  /** No pathname lies in two areas, so the order of the tests does not matter. */
  lemma PrefixesExclusive(pathname: string, r1: string, r2: string)
    requires r1 in AllRoles && r2 in AllRoles
    requires StartsWith(pathname, Prefix(r1)) && StartsWith(pathname, Prefix(r2))
    ensures r1 == r2
  {
    var p1, p2 := Prefix(r1), Prefix(r2);
    assert p1[1] == pathname[1] == p2[1];
  }

  /** A pathname lies in role r's area exactly when it starts with r's prefix. */
  lemma RoleOfPathExact(pathname: string, r: string)
    requires r in AllRoles
    ensures RoleOfPath(pathname) == Some(r) <==> StartsWith(pathname, Prefix(r))
  {
    if StartsWith(pathname, Prefix(r)) {
      var found := RoleOfPath(pathname);
      assert found.Some? && found.value in AllRoles && StartsWith(pathname, Prefix(found.value));
      PrefixesExclusive(pathname, r, found.value);
    }
  }

  /** The role of the path is always a known role, and the path is in its area. */
  lemma RoleOfPathSound(pathname: string)
    ensures RoleOfPath(pathname).Some? ==>
              RoleOfPath(pathname).value in AllRoles
              && StartsWith(pathname, Prefix(RoleOfPath(pathname).value))
    ensures RoleOfPath(pathname).None? <==>
              forall r :: r in AllRoles ==> !StartsWith(pathname, Prefix(r))
  {
  }

  /** Every dashboard lies in the area it belongs to. */
  lemma DashboardInItsArea(role: string)
    requires role in AllRoles
    ensures RoleOfPath(Dashboard(role)) == Some(role)
  {
    RoleOfPathExact(Dashboard(role), role);
  }

  /** The examples of the path mapping: a super-admin page, a client page, the root. */
  lemma RoleOfPathExamples()
    ensures RoleOfPath("/super-admin/dashboard") == Some(SuperAdmin)
    ensures RoleOfPath("/client/profile") == Some(Client)
    ensures RoleOfPath("/") == None
  {
    assert "/client/" <= "/client/profile";
    RoleOfPathExact("/client/profile", Client);
  }
}
