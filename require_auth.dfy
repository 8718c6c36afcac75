/** The route guard in front of every role area, and the four guard
    configurations of the route table. */
module RequireAuth {
  import opened JsValues
  import opened Roles
  import opened Identities

  /** What the guard renders. */
  datatype Decision = ShowLoading | RedirectHome | RenderOutlet

  /** An allow-list that is not given is not checked. */
  predicate Allows(list: Option<seq<string>>, value: Option<string>)
  {
    list.None? || (value.Some? && value.value in list.value)
  }

  /** The guard: wait while loading, send home without a credential or an
      identity, or when the subject type or the guard role is not on a given
      allow-list; otherwise render the area. */
  function Guard(loading: bool, me: Option<Identity>, accessToken: Option<string>,
                 allowSubjectTypes: Option<seq<string>>, allowRoles: Option<seq<string>>): (d: Decision)
    ensures loading ==> d == ShowLoading
    ensures !loading && (!Truthy(accessToken) || me.None?) ==> d == RedirectHome
  {
    if loading then ShowLoading
    else if !Truthy(accessToken) || me.None? then RedirectHome
    else if allowSubjectTypes.Some? && me.value.subjectType !in allowSubjectTypes.value then RedirectHome
    else if allowRoles.Some? && !Allows(allowRoles, GuardRole(me)) then RedirectHome
    else RenderOutlet
  }

  /** The guard renders the area exactly when nothing is loading, a
      credential and an identity are present and both allow-lists (where
      given) admit the identity. */
  lemma GuardAdmits(loading: bool, me: Option<Identity>, accessToken: Option<string>,
                    allowSubjectTypes: Option<seq<string>>, allowRoles: Option<seq<string>>)
    ensures Guard(loading, me, accessToken, allowSubjectTypes, allowRoles) == RenderOutlet <==>
              && !loading && Truthy(accessToken) && me.Some?
              && Allows(allowSubjectTypes, Some(me.value.subjectType))
              && Allows(allowRoles, GuardRole(me))
    ensures Guard(loading, me, accessToken, allowSubjectTypes, allowRoles) != ShowLoading <==> !loading
  {
  }

  /** An administrator without a role is turned away by every guard that
      lists only known roles, although the session acts for it as `admin`. */
  lemma AdminWithoutRoleDenied(me: Identity, accessToken: Option<string>,
                               allowSubjectTypes: Option<seq<string>>, roles: seq<string>)
    requires me.subjectType == Admin && !Truthy(me.subjectRole)
    requires forall i :: 0 <= i < |roles| ==> roles[i] in AllRoles
    ensures Guard(false, Some(me), accessToken, allowSubjectTypes, Some(roles)) == RedirectHome
    ensures RoleFromMe(Some(me)) == Some(Admin)
  {
  }

  /** The subject type an area admits. */
  function AreaSubject(role: string): (t: string)
    requires role in AllRoles
    ensures t == Admin <==> role in {SuperAdmin, Admin}
  {
    if role == SuperAdmin || role == Admin then Admin else role
  }

  /** The guard of a role's area in the route table: the area's subject type
      and the role itself. */
  function AreaGuard(loading: bool, me: Option<Identity>, accessToken: Option<string>, role: string): Decision
    requires role in AllRoles
  {
    Guard(loading, me, accessToken, Some([AreaSubject(role)]), Some([role]))
  }

  /** A signed-in identity enters a role's area exactly when its subject type
      is the area's and its guard role is that role. */
  lemma AreaAdmitsExactly(me: Identity, accessToken: string, role: string)
    requires role in AllRoles && accessToken != []
    ensures AreaGuard(false, Some(me), Some(accessToken), role) == RenderOutlet <==>
              me.subjectType == AreaSubject(role) && GuardRole(Some(me)) == Some(role)
  {
  }

  /** The four areas are mutually exclusive: no identity enters two of them. */
  lemma AreasExclusive(me: Option<Identity>, accessToken: Option<string>, r1: string, r2: string)
    requires r1 in AllRoles && r2 in AllRoles
    requires AreaGuard(false, me, accessToken, r1) == RenderOutlet
    requires AreaGuard(false, me, accessToken, r2) == RenderOutlet
    ensures r1 == r2
  {
  }
}
