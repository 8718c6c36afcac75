/** The signed-in identity returned by `/auth/me` and the three ways the
    application reads a role off it: the session's (admins default to
    `admin`), the route guard's (no default) and the pages' (an unknown
    subject type is its own role). */
module Identities {
  import opened JsValues
  import opened Roles

  /** The subject type and, for admins, `subject.role` (absent for other
      subjects, or when the server sends none). */
  datatype Identity = Identity(subjectType: string, subjectRole: Option<string>)

  /** The session's role for an identity: an admin's own role, `admin` when
      that is missing or empty, `client`/`user` for those subject types,
      `null` for no identity or any other subject type. */
  function RoleFromMe(me: Option<Identity>): (r: Option<string>)
    ensures r.None? || r.value != []
    ensures r.None? <==> me.None? || me.value.subjectType !in {Admin, Client, User}
    ensures r.Some? && me.value.subjectType != Admin ==> r.value == me.value.subjectType
  {
    if me.None? then None
    else if me.value.subjectType == Admin then Or(me.value.subjectRole, Some(Admin))
    else if me.value.subjectType == Client then Some(Client)
    else if me.value.subjectType == User then Some(User)
    else None
  }

  /** The route guard's role: like the session's, without the `admin`
      default, so an admin without `subject.role` has none. */
  function GuardRole(me: Option<Identity>): Option<string>
  {
    if me.None? then None
    else if me.value.subjectType == Admin then me.value.subjectRole
    else if me.value.subjectType == Client then Some(Client)
    else if me.value.subjectType == User then Some(User)
    else None
  }

  /** The landing and login pages' role: an admin's `subject.role`, otherwise
      the subject type itself. */
  function PageRole(me: Identity): Option<string>
  {
    if me.subjectType == Admin then me.subjectRole else Some(me.subjectType)
  }

  /** The session and the guard disagree exactly on admins whose role is
      missing or empty: the session acts as `admin` there. */
  lemma SessionAndGuardRoles(me: Option<Identity>)
    ensures RoleFromMe(me) != GuardRole(me) <==>
              me.Some? && me.value.subjectType == Admin && !Truthy(me.value.subjectRole)
    ensures RoleFromMe(me) != GuardRole(me) ==> RoleFromMe(me) == Some(Admin)
  {
  }

  /** The pages and the guard agree on every identity of a known subject
      type; for any other subject type the guard has no role. */
  lemma PageAndGuardRoles(me: Identity)
    ensures me.subjectType in {Admin, Client, User} ==> PageRole(me) == GuardRole(Some(me))
    ensures me.subjectType !in {Admin, Client, User} ==>
              GuardRole(Some(me)).None? && PageRole(me) == Some(me.subjectType)
  {
  }
}
