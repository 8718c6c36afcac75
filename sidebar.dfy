/** The sidebar of the signed-in areas: the role label under the brand and the
    navigation links. */
module Sidebar {
  import opened JsValues
  import opened Roles
  import opened Identities

  datatype NavLink = NavLink(to: string, title: string)

  /** The label under the brand. */
  function RoleLabel(me: Option<Identity>): string
  {
    if me.None? then ""
    else if me.value.subjectType == Admin then
      (if me.value.subjectRole == Some(SuperAdmin) then "Super Admin" else "Admin")
    else if me.value.subjectType == Client then "Client"
    else "User"
  }

  const SuperAdminLinks: seq<NavLink> :=
    [ NavLink("/super-admin/dashboard", "Dashboard"),
      NavLink("/super-admin/admins", "Admins"),
      NavLink("/super-admin/clients", "Clients"),
      NavLink("/super-admin/users", "Users"),
      NavLink("/super-admin/create-admin", "Create Admin"),
      NavLink("/super-admin/create-client", "Create Client"),
      NavLink("/super-admin/create-user", "Create User"),
      NavLink("/super-admin/profile", "Profile") ]

  const AdminLinks: seq<NavLink> :=
    [ NavLink("/admin/dashboard", "Dashboard"),
      NavLink("/admin/clients", "Clients"),
      NavLink("/admin/users", "Users"),
      NavLink("/admin/create-client", "Create Client"),
      NavLink("/admin/create-user", "Create User"),
      NavLink("/admin/profile", "Profile") ]

  const ClientLinks: seq<NavLink> :=
    [ NavLink("/client/dashboard", "Dashboard"),
      NavLink("/client/users", "Users"),
      NavLink("/client/create-user", "Create User"),
      NavLink("/client/profile", "Profile") ]

  const UserLinks: seq<NavLink> :=
    [ NavLink("/user/dashboard", "Dashboard"),
      NavLink("/user/profile", "Profile") ]

  /** The navigation links of an identity. */
  function LinksFor(me: Option<Identity>): seq<NavLink>
  {
    if me.None? then []
    else if me.value.subjectType == Admin && me.value.subjectRole == Some(SuperAdmin) then SuperAdminLinks
    else if me.value.subjectType == Admin then AdminLinks
    else if me.value.subjectType == Client then ClientLinks
    else UserLinks
  }

  /** The area whose links an identity is shown: super-admin only for an
      admin whose role is exactly `super_admin`, admin for every other admin,
      client for clients and user for everyone else. */
  function SidebarArea(me: Identity): (r: string)
    ensures r in AllRoles
  {
    if me.subjectType == Admin then (if me.subjectRole == Some(SuperAdmin) then SuperAdmin else Admin)
    else if me.subjectType == Client then Client
    else User
  }

  /** The display name of each area. */
  function AreaName(role: string): string
    requires role in AllRoles
  {
    if role == SuperAdmin then "Super Admin"
    else if role == Admin then "Admin"
    else if role == Client then "Client"
    else "User"
  }

  /** The number of links of each area. */
  function LinkCount(role: string): nat
    requires role in AllRoles
  {
    if role == SuperAdmin then 8 else if role == Admin then 6 else if role == Client then 4 else 2
  }

  /** No identity, no sidebar. */
  lemma NoIdentityNoLinks()
    ensures LinksFor(None) == [] && RoleLabel(None) == ""
  {
  }

  /** The label names the area whose links are shown. */
  lemma LabelMatchesLinks(me: Identity)
    ensures RoleLabel(Some(me)) == AreaName(SidebarArea(me))
  {
  }

  /** The links of an area: as many as the area has, the first is the
      area's dashboard and every target lies in the area. */
  predicate AreaLinks(links: seq<NavLink>, r: string)
    requires r in AllRoles
  {
    && |links| == LinkCount(r)
    && links[0] == NavLink(Dashboard(r), "Dashboard")
    && (forall i :: 0 <= i < |links| ==> StartsWith(links[i].to, Prefix(r)))
  }

  lemma SuperAdminLinksInArea()
    ensures AreaLinks(SuperAdminLinks, SuperAdmin)
  {
    forall i | 0 <= i < |SuperAdminLinks| ensures StartsWith(SuperAdminLinks[i].to, Prefix(SuperAdmin)) {
      assert SuperAdminLinks[i].to[..13] == "/super-admin/";
    }
  }

  lemma AdminLinksInArea()
    ensures AreaLinks(AdminLinks, Admin)
  {
    forall i | 0 <= i < |AdminLinks| ensures StartsWith(AdminLinks[i].to, Prefix(Admin)) {
      assert AdminLinks[i].to[..7] == "/admin/";
    }
  }

  lemma ClientLinksInArea()
    ensures AreaLinks(ClientLinks, Client)
  {
    forall i | 0 <= i < |ClientLinks| ensures StartsWith(ClientLinks[i].to, Prefix(Client)) {
      assert ClientLinks[i].to[..8] == "/client/";
    }
  }

  lemma UserLinksInArea()
    ensures AreaLinks(UserLinks, User)
  {
    forall i | 0 <= i < |UserLinks| ensures StartsWith(UserLinks[i].to, Prefix(User)) {
      assert UserLinks[i].to[..6] == "/user/";
    }
  }

  /** Every identity's links are those of its sidebar area. */
  lemma LinksStayInArea(me: Identity)
    ensures AreaLinks(LinksFor(Some(me)), SidebarArea(me))
  {
    SuperAdminLinksInArea();
    AdminLinksInArea();
    ClientLinksInArea();
    UserLinksInArea();
  }

  /** No two links of one sidebar lead to the same page. */
  predicate DistinctTargets(links: seq<NavLink>)
  {
    forall i, j :: 0 <= i < j < |links| ==> links[i].to != links[j].to
  }

  lemma LinksDistinct(me: Option<Identity>)
    ensures DistinctTargets(LinksFor(me))
  {
    var links := LinksFor(me);
    forall i, j | 0 <= i < j < |links| ensures links[i].to != links[j].to {
      assert links[i].to[|links[i].to| - 3] != links[j].to[|links[j].to| - 3]
          || |links[i].to| != |links[j].to|;
    }
  }
}
