/** The role-keyed credential store: one cookie slot per role, read by
    role or by the area of the current page, written and cleared per role
    or all at once. */
module TokenStore {
  import opened JsValues
  import opened Roles
  import opened Cookies

  const SuperAdminToken: string := "super_admin_token"
  const AdminToken: string := "admin_token"
  const ClientToken: string := "client_token"
  const UserToken: string := "user_token"

  const SlotNames: set<string> := {SuperAdminToken, AdminToken, ClientToken, UserToken}

  /** `getCookieNameForRole`: the slot of each of the four roles, null for
      any other string. */
  function CookieNameForRole(role: string): (n: Option<string>)
    ensures n.Some? <==> role in AllRoles
    ensures n.Some? ==> NameOk(n.value) && n.value in SlotNames
  {
    if role == SuperAdmin then Some(SuperAdminToken)
    else if role == Admin then Some(AdminToken)
    else if role == Client then Some(ClientToken)
    else if role == User then Some(UserToken)
    else None
  }

  function SlotFor(role: string): string
    requires role in AllRoles
  {
    CookieNameForRole(role).value
  }

  /** The slot map is injective and covers every slot: a bijection between
      the four roles and the four slot names. */
  lemma SlotsAreABijection(r1: string, r2: string)
    requires r1 in AllRoles && r2 in AllRoles
    ensures SlotFor(r1) == SlotFor(r2) <==> r1 == r2
    ensures forall n :: n in SlotNames ==> exists r :: r in AllRoles && SlotFor(r) == n
  {
    forall n | n in SlotNames ensures exists r :: r in AllRoles && SlotFor(r) == n {
      if n == SuperAdminToken { assert SlotFor(SuperAdmin) == n; }
      else if n == AdminToken { assert SlotFor(Admin) == n; }
      else if n == ClientToken { assert SlotFor(Client) == n; }
      else { assert SlotFor(User) == n; }
    }
  }

  /** The slot of the area the pathname lies in, if any. */
  function PathSlot(pathname: string): Option<string>
  {
    match RoleOfPath(pathname)
    case Some(r) => CookieNameForRole(r)
    case None => None
  }

  /** The four slots read from the cookie string, in the fixed order
      super_admin, admin, client, user. */
  function Slots(cookie: string): (s: seq<Option<string>>)
    ensures |s| == 4
  {
    [GetCookie(cookie, SuperAdminToken), GetCookie(cookie, AdminToken),
     GetCookie(cookie, ClientToken), GetCookie(cookie, UserToken)]
  }

  /** `s[0] || s[1] || ... || null`. */
  function FirstTruthy(s: seq<Option<string>>): Option<string>
  {
    if s == [] then None else Or(s[0], FirstTruthy(s[1..]))
  }

  /** `a || b || ... || null` is the first truthy operand, and null exactly
      when no operand is truthy. */
  lemma {:induction false} FirstTruthyIsFirst(s: seq<Option<string>>)
    ensures FirstTruthy(s).None? <==> forall i :: 0 <= i < |s| ==> !Truthy(s[i])
    ensures FirstTruthy(s).Some? ==>
              exists i :: 0 <= i < |s| && FirstTruthy(s) == s[i] && Truthy(s[i])
                          && forall j :: 0 <= j < i ==> !Truthy(s[j])
  {
    if s != [] {
      FirstTruthyIsFirst(s[1..]);
      if !Truthy(s[0]) && FirstTruthy(s[1..]).Some? {
        var k :| 0 <= k < |s[1..]| && FirstTruthy(s[1..]) == s[1..][k] && Truthy(s[1..][k])
                 && forall j :: 0 <= j < k ==> !Truthy(s[1..][j]);
        assert FirstTruthy(s) == s[k + 1];
        assert forall j :: 0 <= j < k + 1 ==> !Truthy(s[j]) by {
          forall j | 0 <= j < k + 1 ensures !Truthy(s[j]) {
            if j > 0 { assert s[j] == s[1..][j - 1]; }
          }
        }
      }
      if FirstTruthy(s).None? {
        forall i | 0 <= i < |s| ensures !Truthy(s[i]) {
          if i > 0 { assert s[i] == s[1..][i - 1]; }
        }
      }
    }
  }

  /** `getAccessToken(role)`. With a (truthy) role: that role's slot, and
      null for a string that is not a role. Without one: the slot of the
      current page's area when it is non-empty, else the first non-empty
      slot in the order super_admin, admin, client, user, else null. */
  function GetAccessToken(cookie: string, role: Option<string>, pathname: string): Option<string>
  {
    if Truthy(role) then
      match CookieNameForRole(role.value)
      case Some(n) => GetCookie(cookie, n)
      case None => None
    else
      var prioritized := match PathSlot(pathname) case Some(n) => GetCookie(cookie, n) case None => None;
      if Truthy(prioritized) then prioritized
      else FirstTruthy(Slots(cookie))
  }

  /** The four slots of the jar's name-to-value view, in the fixed order. */
  function ViewSlots(jar: map<string, string>): (s: seq<Option<string>>)
    ensures |s| == 4
  {
    [Get(jar, SuperAdminToken), Get(jar, AdminToken), Get(jar, ClientToken), Get(jar, UserToken)]
  }

  /** The credential lookup stated on the jar's name-to-value view instead
      of the cookie string. */
  function ReadToken(jar: map<string, string>, role: Option<string>, pathname: string): Option<string>
  {
    if Truthy(role) then
      match CookieNameForRole(role.value)
      case Some(n) => Get(jar, n)
      case None => None
    else
      var prioritized := match PathSlot(pathname) case Some(n) => Get(jar, n) case None => None;
      if Truthy(prioritized) then prioritized
      else FirstTruthy(ViewSlots(jar))
  }

  /** Parsing `document.cookie` agrees with the name-to-value view, for every
      role argument and every page. */
  lemma GetAccessTokenReadsView(jar: seq<Cookie>, role: Option<string>, pathname: string)
    requires ValidJar(jar)
    ensures GetAccessToken(Serialize(jar), role, pathname) == ReadToken(View(jar), role, pathname)
  {
    var c := Serialize(jar);
    ReadCookie(jar, SuperAdminToken);
    ReadCookie(jar, AdminToken);
    ReadCookie(jar, ClientToken);
    ReadCookie(jar, UserToken);
    assert Slots(c) == ViewSlots(View(jar));
    if Truthy(role) && CookieNameForRole(role.value).Some? {
      ReadCookie(jar, CookieNameForRole(role.value).value);
    }
    if PathSlot(pathname).Some? {
      ReadCookie(jar, PathSlot(pathname).value);
    }
  }

  /** A credential read from a jar with `;`-free values is `;`-free. */
  lemma ReadTokenHasNoSemicolon(jar: map<string, string>, role: Option<string>, pathname: string)
    requires ValuesOk(jar)
    ensures ReadToken(jar, role, pathname).Some? ==> ';' !in ReadToken(jar, role, pathname).value
  {
    FirstTruthyIsFirst(ViewSlots(jar));
  }

  /** A non-empty string that is not a role has no credential. */
  lemma UnknownRoleHasNoToken(cookie: string, role: string, pathname: string)
    requires role != [] && role !in AllRoles
    ensures GetAccessToken(cookie, Some(role), pathname) == None
  {
  }

  /** Asking for a role reads that role's slot of the jar, whatever the page. */
  lemma RoleTokenReadsSlot(jar: seq<Cookie>, role: string, pathname: string)
    requires ValidJar(jar) && role in AllRoles
    ensures GetAccessToken(Serialize(jar), Some(role), pathname) == Get(View(jar), SlotFor(role))
  {
    ReadCookie(jar, SlotFor(role));
  }

  /** Without a role, the slot of the current page's area wins when it is
      non-empty. */
  lemma PathSlotPreferred(cookie: string, role: Option<string>, pathname: string, r: string)
    requires !Truthy(role)
    requires RoleOfPath(pathname) == Some(r) && r in AllRoles
    requires Truthy(GetCookie(cookie, SlotFor(r)))
    ensures GetAccessToken(cookie, role, pathname) == GetCookie(cookie, SlotFor(r))
  {
  }

  /** Without a role, and with no non-empty slot for the page's area: the
      first non-empty slot in the fixed order, or null when all are empty. */
  lemma FallbackOrder(cookie: string, role: Option<string>, pathname: string)
    requires !Truthy(role)
    requires PathSlot(pathname).None? || !Truthy(GetCookie(cookie, PathSlot(pathname).value))
    ensures var t, s := GetAccessToken(cookie, role, pathname), Slots(cookie);
      && (t.None? <==> forall i :: 0 <= i < 4 ==> !Truthy(s[i]))
      && (t.Some? ==>
            exists i :: 0 <= i < 4 && t == s[i] && Truthy(t) && forall j :: 0 <= j < i ==> !Truthy(s[j]))
  {
    FirstTruthyIsFirst(Slots(cookie));
  }

  /** Without a role, a credential is found exactly when some slot is
      non-empty, and what is found is never the empty string. */
  lemma NoRoleFindsAnyCredential(cookie: string, role: Option<string>, pathname: string)
    requires !Truthy(role)
    ensures var t := GetAccessToken(cookie, role, pathname);
      && (t.Some? ==> Truthy(t))
      && (t.None? <==> forall i :: 0 <= i < 4 ==> !Truthy(Slots(cookie)[i]))
  {
    var ps := PathSlot(pathname);
    FirstTruthyIsFirst(Slots(cookie));
    if ps.Some? && Truthy(GetCookie(cookie, ps.value)) {
      var r :| r in AllRoles && RoleOfPath(pathname) == Some(r);
      var i := if r == SuperAdmin then 0 else if r == Admin then 1 else if r == Client then 2 else 3;
      assert Slots(cookie)[i] == GetCookie(cookie, ps.value);
    }
  }

  /** The effect of `setAccessToken(token, role)` on the jar's name-to-value
      view: a falsy token or a falsy role deletes the four slots; otherwise
      a role's slot takes the token (up to its first `;`, as the browser
      stores it) and a string that is not a role changes nothing. */
  function AfterSetAccessToken(jar: map<string, string>, token: Option<string>, role: Option<string>): map<string, string>
  {
    if !Truthy(token) || !Truthy(role) then jar - SlotNames
    else match CookieNameForRole(role.value)
      case Some(n) => jar[n := FirstField(token.value)]
      case None => jar
  }

  /** Storing a credential for one role never changes another role's slot,
      nor any cookie that is not a slot. */
  lemma StoreIsolation(jar: map<string, string>, token: string, role: string, otherRole: string, otherCookie: string)
    requires token != [] && role != []
    requires otherRole in AllRoles && otherRole != role
    requires otherCookie !in SlotNames
    ensures Get(AfterSetAccessToken(jar, Some(token), Some(role)), SlotFor(otherRole)) == Get(jar, SlotFor(otherRole))
    ensures Get(AfterSetAccessToken(jar, Some(token), Some(role)), otherCookie) == Get(jar, otherCookie)
  {
    if role in AllRoles {
      SlotsAreABijection(role, otherRole);
    }
  }

  /** A falsy token or role empties every slot and keeps every other cookie. */
  lemma FalsyStoreClearsAll(jar: map<string, string>, token: Option<string>, role: Option<string>, name: string)
    requires !Truthy(token) || !Truthy(role)
    ensures Get(AfterSetAccessToken(jar, token, role), name) == if name in SlotNames then None else Get(jar, name)
  {
  }

  /** Storing a credential and then reading it back through the cookie
      string: the role's own read gives the token (a token without `;`),
      every other role reads what it read before. */
  lemma StoredCredentialReadsBack(before: seq<Cookie>, after: seq<Cookie>, token: string, role: string,
                                 other: string, pathname: string)
    requires ValidJar(before) && ValidJar(after)
    requires View(after) == AfterSetAccessToken(View(before), Some(token), Some(role))
    requires role in AllRoles && other in AllRoles && token != [] && ';' !in token
    ensures GetAccessToken(Serialize(after), Some(role), pathname) == Some(token)
    ensures other != role ==>
              GetAccessToken(Serialize(after), Some(other), pathname)
              == GetAccessToken(Serialize(before), Some(other), pathname)
  {
    RoleTokenReadsSlot(after, role, pathname);
    RoleTokenReadsSlot(after, other, pathname);
    RoleTokenReadsSlot(before, other, pathname);
    assert FirstField(token) == token;
    SlotsAreABijection(role, other);
  }

  /** The browser's cookie jar for the application's path. */
  class CookieJar {
    var cookies: seq<Cookie>

    ghost predicate Valid()
      reads this
    {
      ValidJar(cookies)
    }

    /** `document.cookie`. */
    function DocumentCookie(): string
      reads this
    {
      Serialize(cookies)
    }

    /** The jar as a name-to-value map. */
    function Jar(): map<string, string>
      reads this
    {
      View(cookies)
    }

    constructor (initial: seq<Cookie>)
      requires ValidJar(initial)
      ensures Valid() && cookies == initial
    {
      cookies := initial;
    }

    /** `setCookie(name, value)`, the expiry left out: the browser keeps the
        value up to its first `;`. */
    method SetCookie(name: string, value: string)
      requires Valid() && NameOk(name)
      modifies this
      ensures Valid()
      ensures Jar() == old(Jar())[name := FirstField(value)]
    {
      ghost var before := cookies;
      cookies := Upsert(cookies, name, FirstField(value));
      UpsertThenRead(before, name, FirstField(value), name);
    }

    /** `deleteCookie(name)`: an expiry in the past removes the cookie. */
    method DeleteCookie(name: string)
      requires Valid() && NameOk(name)
      modifies this
      ensures Valid()
      ensures Jar() == old(Jar()) - {name}
    {
      ghost var before := cookies;
      cookies := Remove(cookies, name);
      RemoveThenRead(before, name, name);
    }

    /** `clearAllTokens()`. */
    method ClearAllTokens()
      requires Valid()
      modifies this
      ensures Valid()
      ensures Jar() == old(Jar()) - SlotNames
    {
      DeleteCookie(SuperAdminToken);
      DeleteCookie(AdminToken);
      DeleteCookie(ClientToken);
      DeleteCookie(UserToken);
    }

    /** `setAccessToken(token, role)`. */
    method SetAccessToken(token: Option<string>, role: Option<string>)
      requires Valid()
      modifies this
      ensures Valid()
      ensures Jar() == AfterSetAccessToken(old(Jar()), token, role)
    {
      if !Truthy(token) || !Truthy(role) {
        DeleteCookie(SuperAdminToken);
        DeleteCookie(AdminToken);
        DeleteCookie(ClientToken);
        DeleteCookie(UserToken);
        return;
      }
      var cookieName := CookieNameForRole(role.value);
      if cookieName.Some? {
        SetCookie(cookieName.value, token.value);
      }
    }

    /** `clearTokenForRole(role)`: exactly that role's slot; nothing for a
        string that is not a role. */
    method ClearTokenForRole(role: string)
      requires Valid()
      modifies this
      ensures Valid()
      ensures Jar() == match CookieNameForRole(role) case Some(n) => old(Jar()) - {n} case None => old(Jar())
    {
      var name := CookieNameForRole(role);
      if name.Some? {
        DeleteCookie(name.value);
      }
    }
  }
}
