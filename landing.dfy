/** The landing page's redirect: a signed-in identity that arrives on a page
    of some role area is sent to its own role's dashboard. */
module Landing {
  import opened JsValues
  import opened Roles
  import opened Identities
  import opened RequireAuth
  import opened Sidebar

  /** The page the landing effect navigates to, if any. */
  function LandingRedirect(loading: bool, me: Option<Identity>, pathname: string): Option<string>
  {
    if loading || me.None? || pathname == "/" then None
    else if StartsWith(pathname, "/super-admin/") || StartsWith(pathname, "/admin/")
         || StartsWith(pathname, "/client/") || StartsWith(pathname, "/user/") then
      var role := PageRole(me.value);
      if role == Some(SuperAdmin) then Some("/super-admin/dashboard")
      else if role == Some(Admin) then Some("/admin/dashboard")
      else if role == Some(Client) then Some("/client/dashboard")
      else if role == Some(User) then Some("/user/dashboard")
      else None
    else None
  }

  /** The landing page redirects exactly when nothing is loading, someone is
      signed in, the page lies in a role area and the identity's page role is
      a known role; the target is that role's dashboard. */
  lemma LandingRedirectExact(loading: bool, me: Option<Identity>, pathname: string)
    ensures LandingRedirect(loading, me, pathname).Some? <==>
              && !loading && me.Some? && RoleOfPath(pathname).Some?
              && PageRole(me.value).Some? && PageRole(me.value).value in AllRoles
    ensures LandingRedirect(loading, me, pathname).Some? ==>
              LandingRedirect(loading, me, pathname).value == Dashboard(PageRole(me.value).value)
  {
  }

  /** A redirect lands in the area of the identity's own role, whichever area
      the page was in. */
  lemma LandingTargetInOwnArea(me: Identity, pathname: string)
    requires LandingRedirect(false, Some(me), pathname).Some?
    ensures PageRole(me).Some? && PageRole(me).value in AllRoles
    ensures RoleOfPath(LandingRedirect(false, Some(me), pathname).value) == PageRole(me)
  {
    LandingRedirectExact(false, Some(me), pathname);
    DashboardInItsArea(PageRole(me).value);
  }

  /** An identity admitted to a role's area sees that area's sidebar and is
      sent by the landing page to that area's dashboard. */
  lemma AdmittedIdentityNavigation(me: Identity, accessToken: string, role: string, pathname: string)
    requires role in AllRoles && accessToken != []
    requires AreaGuard(false, Some(me), Some(accessToken), role) == RenderOutlet
    requires RoleOfPath(pathname).Some?
    ensures SidebarArea(me) == role
    ensures LandingRedirect(false, Some(me), pathname) == Some(Dashboard(role))
  {
    AreaAdmitsExactly(me, accessToken, role);
    LandingRedirectExact(false, Some(me), pathname);
  }
}
