/** The session provider: which role the tab acts as, the signed-in
    identity, the credential in use and the loading flag, together with the
    request/response interceptors, the single shared refresh, the
    identity load, the start-up bootstrap and logout.

    Every state change is specified by a function on a `World` (the
    session's fields and the jar's name-to-value view), and the properties
    the application relies on are lemmas about those functions. */
module AuthContext {
  import opened JsValues
  import opened Roles
  import opened Cookies
  import opened TokenStore
  import opened Identities

  // ---------------------------------------------------------------------
  // The shared refresh

  /** At most one `/auth/refresh` call is outstanding; callers that arrive
      while it is pending share it, and with it the role tag of the caller
      that started it. */
  datatype Flight = Idle | InFlight(tag: Option<string>)

  /** What the refresh endpoint answered. */
  datatype RefreshOutcome = Refreshed(accessToken: Option<string>) | RefreshFailed

  /** What a waiter receives: the new credential and the role it is tagged with. */
  datatype RefreshResult = RefreshOk(token: Option<string>, role: Option<string>) | RefreshError

  /** The flight after a caller with role tag `role` asks for a refresh. */
  function AfterJoin(f: Flight, role: Option<string>): (g: Flight)
    ensures g.InFlight?
    ensures f.InFlight? ==> g == f
  {
    if f.Idle? then InFlight(role) else f
  }

  /** The number of refresh requests a caller causes: one when it starts the flight. */
  function Issued(f: Flight): nat
  {
    if f.Idle? then 1 else 0
  }

  /** The flight after a sequence of callers, in arrival order. */
  function JoinAll(f: Flight, roles: seq<Option<string>>): Flight
    decreases |roles|
  {
    if roles == [] then f else JoinAll(AfterJoin(f, roles[0]), roles[1..])
  }

  /** The number of refresh requests a sequence of callers causes. */
  function IssuedAll(f: Flight, roles: seq<Option<string>>): nat
    decreases |roles|
  {
    if roles == [] then 0 else Issued(f) + IssuedAll(AfterJoin(f, roles[0]), roles[1..])
  }

  /** The tag each caller of a sequence receives. */
  function TagsAll(f: Flight, roles: seq<Option<string>>): (tags: seq<Option<string>>)
    ensures |tags| == |roles|
    decreases |roles|
  {
    if roles == [] then [] else [AfterJoin(f, roles[0]).tag] + TagsAll(AfterJoin(f, roles[0]), roles[1..])
  }

  /** Joining a pending flight changes nothing and sends nothing. */
  lemma {:induction false} JoinPending(f: Flight, roles: seq<Option<string>>)
    requires f.InFlight?
    ensures JoinAll(f, roles) == f
    ensures IssuedAll(f, roles) == 0
    ensures forall i :: 0 <= i < |roles| ==> TagsAll(f, roles)[i] == f.tag
    decreases |roles|
  {
    if roles != [] {
      JoinPending(f, roles[1..]);
    }
  }

  /** Any number of callers arriving while no refresh is pending cause
      exactly one request, and every one of them receives the first
      caller's role tag. */
  lemma SingleFlight(roles: seq<Option<string>>)
    requires roles != []
    ensures IssuedAll(Idle, roles) == 1
    ensures JoinAll(Idle, roles) == InFlight(roles[0])
    ensures forall i :: 0 <= i < |roles| ==> TagsAll(Idle, roles)[i] == roles[0]
  {
    JoinPending(InFlight(roles[0]), roles[1..]);
  }

  /** What the waiters receive when the request settles. */
  function Settled(outcome: RefreshOutcome, tag: Option<string>): RefreshResult
  {
    match outcome
    case Refreshed(t) => RefreshOk(t, tag)
    case RefreshFailed => RefreshError
  }

  /** The module-level `refreshPromise` and the number of refresh requests
      sent so far. */
  class RefreshCoordinator {
    var flight: Flight
    var requests: nat

    constructor ()
      ensures flight == Idle && requests == 0
    {
      flight := Idle;
      requests := 0;
    }

    /** A caller asks for a refresh: it starts one only when none is pending,
        and receives the tag of the pending one. */
    method Join(role: Option<string>) returns (tag: Option<string>)
      modifies this
      ensures flight == AfterJoin(old(flight), role)
      ensures requests == old(requests) + Issued(old(flight))
      ensures tag == flight.tag
    {
      if flight.Idle? {
        flight := InFlight(role);
        requests := requests + 1;
      }
      tag := flight.tag;
    }

    /** The pending request settles: every waiter gets the same result and
        the next caller starts afresh. */
    method Settle(outcome: RefreshOutcome) returns (result: RefreshResult)
      requires flight.InFlight?
      modifies this
      ensures flight == Idle && requests == old(requests)
      ensures result == Settled(outcome, old(flight).tag)
    {
      result := Settled(outcome, flight.tag);
      flight := Idle;
    }
  }

  // ---------------------------------------------------------------------
  // Session state and its transitions

  /** The provider's state variables. */
  datatype Snapshot = Snapshot(activeRole: Option<string>, me: Option<Identity>,
                               accessToken: Option<string>, loading: bool)

  /** The provider's state together with the jar's name-to-value view. */
  datatype World = World(state: Snapshot, cookies: map<string, string>)

  /** Signed out: no role, no identity, no credential, not loading. */
  const SignedOut: Snapshot := Snapshot(None, None, None, false)

  /** An outgoing request: the role the caller asks to be checked under, the
      retried flag and the `Authorization` header. */
  datatype Request = Request(checkRole: Option<string>, retry: bool, authorization: Option<string>)

  /** A failed response: the request it answers (absent for errors raised
      before sending) and the HTTP status, if any. */
  datatype HttpError = HttpError(config: Option<Request>, status: Option<int>)

  /** The response interceptor either rethrows or waits for the shared refresh. */
  datatype ErrorStep = Rethrow | AwaitRefresh(request: Request, tag: Option<string>)

  /** After the refresh settles: resend the request, or give up. */
  datatype RetryStep = Resubmit(request: Request) | Reject

  /** The answer of `/auth/me`. */
  datatype Lookup = Found(identity: Identity) | LookupFailed

  /** How the `/auth/me` request of `loadMe` went through the response
      interceptor: answered at once, or answered 401, in which case the
      interceptor waited for the shared refresh (settled with `refresh`),
      stored its result with `setToken` and resent the request, which was
      answered with `retried`. */
  datatype MeCall = Answered(lookup: Lookup) | AfterRefresh(refresh: RefreshResult, retried: Lookup)

  /** What the network answers the `/auth/me` request of `loadMe`: the
      identity lookup, or a 401 followed by the refresh endpoint's outcome
      and the answer to the resent request. */
  datatype MeAnswer = Replied(lookup: Lookup) | Unauthorized(outcome: RefreshOutcome, retried: Lookup)

  /** `Bearer ${token}`. */
  function Bearer(token: string): (h: string)
    ensures |h| == 7 + |token| && h[..7] == "Bearer " && h[7..] == token
  {
    "Bearer " + token
  }

  /** The text a template literal gives a credential. A missing one shows as
      `undefined`; a JSON `null` would show as `null`, a case this model
      does not tell apart from a missing one. */
  function TokenText(token: Option<string>): string
  {
    if token.Some? then token.value else "undefined"
  }

  /** The role a credential is stored under by `setToken`: the identity's
      role when a credential comes without one. */
  function StoredRole(token: Option<string>, role: Option<string>, me: Option<Identity>): Option<string>
  {
    if Truthy(token) && !Truthy(role) then RoleFromMe(me) else role
  }

  /** `setToken(token, role)`. */
  function SetTokenSpec(w: World, token: Option<string>, role: Option<string>): World
  {
    var r := StoredRole(token, role, w.state.me);
    World(w.state.(activeRole := Or(r, None), accessToken := token),
          AfterSetAccessToken(w.cookies, token, r))
  }

  /** The role a request or an identity load acts under: the explicit one,
      else the active role, else the identity's. */
  function ActingRole(explicit: Option<string>, s: Snapshot): Option<string>
  {
    Or(Or(explicit, s.activeRole), RoleFromMe(s.me))
  }

  /** The credential for a role: its own slot when it has a role, otherwise
      (or when that slot is empty) the role-less lookup. */
  function CredentialFor(cookies: map<string, string>, role: Option<string>, pathname: string): Option<string>
  {
    Or(if Truthy(role) then ReadToken(cookies, role, pathname) else None, ReadToken(cookies, None, pathname))
  }

  /** The credential the request interceptor attaches. */
  function RequestCredential(w: World, checkRole: Option<string>, pathname: string): Option<string>
  {
    CredentialFor(w.cookies, ActingRole(checkRole, w.state), pathname)
  }

  /** The response interceptor refreshes only on a 401 answer to a request
      that has not been retried. */
  predicate RefreshesAfter(err: HttpError)
  {
    err.config.Some? && !err.config.value.retry && err.status == Some(401)
  }

  /** What the response interceptor does to the session once the shared
      refresh has settled: store the new credential under the tag's role,
      or clear every slot. */
  function RetryEffect(w: World, result: RefreshResult): World
  {
    match result
    case RefreshOk(t, r) => SetTokenSpec(w, t, if Truthy(r) then r else None)
    case RefreshError => SetTokenSpec(w, None, None)
  }

  /** The world `loadMe` finds when its request has been answered. */
  function DuringMeCall(w: World, call: MeCall): World
  {
    match call
    case Answered(_) => w
    case AfterRefresh(result, _) => RetryEffect(w, result)
  }

  /** How the request went, given the network's answer, the shared refresh
      it finds and the identity loaded when it is sent: a 401 joins the
      refresh under the identity's role, and every waiter receives the tag
      of the caller that started it. */
  function MeCallOf(answer: MeAnswer, flight: Flight, me: Option<Identity>): MeCall
  {
    match answer
    case Replied(lookup) => Answered(lookup)
    case Unauthorized(outcome, retried) => AfterRefresh(Settled(outcome, AfterJoin(flight, RoleFromMe(me)).tag), retried)
  }

  /** A refresh inside `/auth/me` is tagged with the pending refresh's tag,
      or, when none is pending, with the identity's role; a failed one ends
      the load as a failure. */
  lemma MeCallTag(outcome: RefreshOutcome, retried: Lookup, flight: Flight, me: Option<Identity>)
    ensures var call := MeCallOf(Unauthorized(outcome, retried), flight, me);
      && (outcome.Refreshed? ==>
            call.refresh == RefreshOk(outcome.accessToken, if flight.InFlight? then flight.tag else RoleFromMe(me))
            && MeOutcome(call) == retried)
      && (outcome.RefreshFailed? ==> call.refresh == RefreshError && MeOutcome(call) == LookupFailed)
  {
  }

  /** What `loadMe` receives: a failed refresh is rethrown to it as a failure. */
  function MeOutcome(call: MeCall): Lookup
  {
    match call
    case Answered(lookup) => lookup
    case AfterRefresh(RefreshOk(_, _), retried) => retried
    case AfterRefresh(RefreshError, _) => LookupFailed
  }

  /** The request `loadMe` sends, if it finds a credential. */
  function LoadMeRequest(w: World, forceRole: Option<string>, pathname: string): Option<Request>
  {
    if Truthy(CredentialFor(w.cookies, ActingRole(forceRole, w.state), pathname))
    then Some(Request(if Truthy(forceRole) then forceRole else None, false, None))
    else None
  }

  /** `loadMe(forceRole)` once `/auth/me` has gone as `call` says. The
      credential is the one read before the request was sent; the slots are
      those the interceptor left. */
  function LoadMeSpec(w: World, forceRole: Option<string>, pathname: string, call: MeCall): World
  {
    var token := CredentialFor(w.cookies, ActingRole(forceRole, w.state), pathname);
    if !Truthy(token) then World(SignedOut, w.cookies)
    else
      var m := DuringMeCall(w, call);
      match MeOutcome(call)
      case Found(id) =>
        var newRole := RoleFromMe(Some(id));
        var cookies :=
          if Truthy(newRole) && ReadToken(m.cookies, newRole, pathname) != token
          then AfterSetAccessToken(m.cookies, token, newRole)
          else m.cookies;
        World(Snapshot(newRole, Some(id), token, false), cookies)
      case LookupFailed =>
        World(SignedOut, AfterSetAccessToken(m.cookies, None, None))
  }

  /** The role logout signs out of: the active role, else the identity's,
      else the area of the current page. */
  function LogoutRole(s: Snapshot, pathname: string): Option<string>
  {
    Or(Or(s.activeRole, RoleFromMe(s.me)), RoleOfPath(pathname))
  }

  /** `logout()`. */
  function LogoutSpec(w: World, pathname: string): World
  {
    var role := LogoutRole(w.state, pathname);
    var cookies :=
      if Truthy(role) then
        match CookieNameForRole(role.value)
        case Some(n) => w.cookies - {n}
        case None => w.cookies
      else w.cookies - SlotNames;
    World(w.state.(activeRole := None, me := None, accessToken := None), cookies)
  }

  // ---------------------------------------------------------------------
  // Properties of the transitions

  /** A credential with an explicit known role is stored in that role's slot
      only: the tab now acts as that role and every other cookie is kept. */
  lemma SetTokenWithRole(w: World, token: string, role: string, name: string)
    requires token != [] && role in AllRoles
    ensures var w' := SetTokenSpec(w, Some(token), Some(role));
      && w'.state == w.state.(activeRole := Some(role), accessToken := Some(token))
      && Get(w'.cookies, SlotFor(role)) == Some(FirstField(token))
      && (name != SlotFor(role) ==> Get(w'.cookies, name) == Get(w.cookies, name))
  {
  }

  /** A credential without a role is stored under the identity's role; with
      no identity (or one whose subject type has no role) every slot is
      cleared and the credential is kept in memory only. */
  lemma SetTokenWithoutRole(w: World, token: string, role: Option<string>)
    requires token != [] && !Truthy(role)
    ensures var w' := SetTokenSpec(w, Some(token), role);
      && w'.state.activeRole == RoleFromMe(w.state.me)
      && w'.state.accessToken == Some(token)
      && (RoleFromMe(w.state.me).None? ==> w'.cookies == w.cookies - SlotNames)
  {
  }

  /** Clearing (`setToken(null, null)`, as after a failed refresh) removes
      every slot, leaves every other cookie and forgets the role. */
  lemma ClearingForgetsEverySlot(w: World, name: string)
    ensures var w' := SetTokenSpec(w, None, None);
      && w'.state == w.state.(activeRole := None, accessToken := None)
      && Get(w'.cookies, name) == (if name in SlotNames then None else Get(w.cookies, name))
  {
    FalsyStoreClearsAll(w.cookies, None, None, name);
  }

  /** A request asking for a known role whose slot holds a credential gets
      that credential, whatever role the tab acts as. */
  lemma CheckRoleWins(w: World, checkRole: string, pathname: string)
    requires checkRole in AllRoles && Truthy(Get(w.cookies, SlotFor(checkRole)))
    ensures RequestCredential(w, Some(checkRole), pathname) == Get(w.cookies, SlotFor(checkRole))
  {
  }

  /** When the acting role's slot is empty (or there is no acting role) the
      request falls back to the role-less lookup. */
  lemma RequestFallsBack(w: World, checkRole: Option<string>, pathname: string)
    requires var role := ActingRole(checkRole, w.state);
      !Truthy(role) || !Truthy(ReadToken(w.cookies, role, pathname))
    ensures RequestCredential(w, checkRole, pathname) == ReadToken(w.cookies, None, pathname)
  {
  }

  /** A request goes out without a credential exactly when all four slots
      are empty. */
  lemma NoCredentialIffStoreEmpty(cookies: map<string, string>, role: Option<string>, pathname: string)
    ensures !Truthy(CredentialFor(cookies, role, pathname)) <==>
              forall i :: 0 <= i < 4 ==> !Truthy(ViewSlots(cookies)[i])
  {
    var s := ViewSlots(cookies);
    FirstTruthyIsFirst(s);
    if Truthy(role) && Truthy(ReadToken(cookies, role, pathname)) {
      var n := CookieNameForRole(role.value).value;
      assert n in SlotNames;
      assert exists i :: 0 <= i < 4 && Truthy(s[i]) by {
        if n == SuperAdminToken { assert Truthy(s[0]); }
        else if n == AdminToken { assert Truthy(s[1]); }
        else if n == ClientToken { assert Truthy(s[2]); }
        else { assert Truthy(s[3]); }
      }
    }
    if PathSlot(pathname).Some? && Truthy(Get(cookies, PathSlot(pathname).value)) {
      var n := PathSlot(pathname).value;
      assert exists i :: 0 <= i < 4 && Truthy(s[i]) by {
        if n == SuperAdminToken { assert Truthy(s[0]); }
        else if n == AdminToken { assert Truthy(s[1]); }
        else if n == ClientToken { assert Truthy(s[2]); }
        else { assert Truthy(s[3]); }
      }
    }
  }

  /** A request is refreshed at most once: the copy that waits for the
      refresh is marked retried, and a failure of a retried request is
      always rethrown. */
  lemma AtMostOneRefresh(err: HttpError, again: HttpError)
    requires RefreshesAfter(err)
    requires again.config == Some(err.config.value.(retry := true))
    ensures !RefreshesAfter(again)
  {
  }

  /** `/auth/refresh` goes through the same response interceptor and carries
      no retried mark, so a 401 answer to it passes the refresh test and
      joins the flight that is waiting for that very answer: nothing new is
      sent and the flight stays pending. */
  lemma RefreshRequestRejoinsOwnFlight(refresh: Request, tag: Option<string>, role: Option<string>)
    requires !refresh.retry
    ensures RefreshesAfter(HttpError(Some(refresh), Some(401)))
    ensures AfterJoin(InFlight(tag), role) == InFlight(tag) && Issued(InFlight(tag)) == 0
  {
  }

  /** `loadMe` always ends with loading cleared, and it ends signed out when
      no slot holds a credential, leaving the jar as it was. */
  lemma LoadMeSettles(w: World, forceRole: Option<string>, pathname: string, call: MeCall)
    ensures !LoadMeSpec(w, forceRole, pathname, call).state.loading
    ensures (forall i :: 0 <= i < 4 ==> !Truthy(ViewSlots(w.cookies)[i])) ==>
              LoadMeSpec(w, forceRole, pathname, call) == World(SignedOut, w.cookies)
              && LoadMeRequest(w, forceRole, pathname).None?
  {
    NoCredentialIffStoreEmpty(w.cookies, ActingRole(forceRole, w.state), pathname);
  }

  /** A successful load acts as the identity's role and leaves the
      credential read before the request in that role's slot, even when a
      refresh inside the request stored a newer one there. The other slots
      are those the request left: unchanged when it was answered at once. */
  lemma LoadMeStoresUnderIdentityRole(w: World, forceRole: Option<string>, pathname: string,
                                      call: MeCall, id: Identity, r: string, other: string)
    requires ValuesOk(w.cookies)
    requires Truthy(CredentialFor(w.cookies, ActingRole(forceRole, w.state), pathname))
    requires MeOutcome(call) == Found(id)
    requires RoleFromMe(Some(id)) == Some(r) && r in AllRoles
    requires other in AllRoles && other != r
    ensures var token := CredentialFor(w.cookies, ActingRole(forceRole, w.state), pathname);
            var w' := LoadMeSpec(w, forceRole, pathname, call);
      && w'.state == Snapshot(Some(r), Some(id), token, false)
      && ReadToken(w'.cookies, Some(r), pathname) == token
      && Get(w'.cookies, SlotFor(other)) == Get(DuringMeCall(w, call).cookies, SlotFor(other))
      && (call.Answered? ==> Get(w'.cookies, SlotFor(other)) == Get(w.cookies, SlotFor(other)))
  {
    var token := CredentialFor(w.cookies, ActingRole(forceRole, w.state), pathname);
    ReadTokenHasNoSemicolon(w.cookies, ActingRole(forceRole, w.state), pathname);
    ReadTokenHasNoSemicolon(w.cookies, None, pathname);
    assert FirstField(token.value) == token.value;
    SlotsAreABijection(r, other);
  }

  /** A failed load signs out and clears every slot, whatever a refresh
      inside the request stored first, and keeps every other cookie. */
  lemma LoadMeFailureClearsAll(w: World, forceRole: Option<string>, pathname: string, call: MeCall)
    requires Truthy(CredentialFor(w.cookies, ActingRole(forceRole, w.state), pathname))
    requires MeOutcome(call) == LookupFailed
    ensures LoadMeSpec(w, forceRole, pathname, call) == World(SignedOut, w.cookies - SlotNames)
  {
    var m := DuringMeCall(w, call);
    assert m.cookies - SlotNames == w.cookies - SlotNames;
  }

  /** The start-up load on a client page with no identity yet, whose
      `/auth/me` meets an expired client credential: the refresh comes back
      tagged with no role, so storing the fresh credential clears all four
      slots, and the load then writes the credential it read before the
      request back into the client slot. Every other role's session is lost
      and the tab keeps the old credential, not the fresh one. */
  lemma RefreshInsideLoadMeKeepsStaleCredential(w: World, pathname: string, newToken: string, id: Identity)
    requires ValuesOk(w.cookies)
    requires w.state.me.None? && Truthy(Get(w.cookies, ClientToken))
    requires RoleOfPath(pathname) == Some(Client) && id.subjectType == Client
    ensures var stale := Get(w.cookies, ClientToken);
            var call := MeCallOf(Unauthorized(Refreshed(Some(newToken)), Found(id)), Idle, w.state.me);
            var w' := LoadMeSpec(w, RoleOfPath(pathname), pathname, call);
      && w'.state == Snapshot(Some(Client), Some(id), stale, false)
      && Get(w'.cookies, ClientToken) == stale
      && Get(w'.cookies, SuperAdminToken).None? && Get(w'.cookies, AdminToken).None? && Get(w'.cookies, UserToken).None?
  {
    var stale := Get(w.cookies, ClientToken);
    assert MeCallOf(Unauthorized(Refreshed(Some(newToken)), Found(id)), Idle, w.state.me)
        == AfterRefresh(RefreshOk(Some(newToken), None), Found(id));
    assert ClientToken in w.cookies;
    assert ';' !in stale.value;
    assert FirstField(stale.value) == stale.value;
  }

  /** Logout of a known role removes only that role's slot, so the sessions
      of the other roles survive; with no role to go by it removes all four. */
  lemma LogoutIsolation(w: World, pathname: string, other: string)
    requires other in AllRoles
    ensures var w' := LogoutSpec(w, pathname); var role := LogoutRole(w.state, pathname);
      && w'.state == w.state.(activeRole := None, me := None, accessToken := None)
      && (role.Some? && role.value in AllRoles ==>
            w'.cookies == w.cookies - {SlotFor(role.value)}
            && (other != role.value ==> Get(w'.cookies, SlotFor(other)) == Get(w.cookies, SlotFor(other))))
      && (Truthy(role) && role.value !in AllRoles ==> w'.cookies == w.cookies)
      && (!Truthy(role) ==> w'.cookies == w.cookies - SlotNames)
  {
    var role := LogoutRole(w.state, pathname);
    if role.Some? && role.value in AllRoles {
      SlotsAreABijection(role.value, other);
    }
  }

  /** An administrator who acts as a user in the same tab (`Login as`) and
      then logs out keeps the administrator session: neither step touches
      the administrator's slot. */
  lemma ImpersonationKeepsIssuer(w: World, userToken: string, pathname: string)
    requires w.state.activeRole == Some(Admin) && userToken != []
    ensures var w1 := SetTokenSpec(w, Some(userToken), Some(User));
            var w2 := LogoutSpec(w1, pathname);
      && w1.state.activeRole == Some(User)
      && LogoutRole(w1.state, pathname) == Some(User)
      && Get(w2.cookies, AdminToken) == Get(w.cookies, AdminToken)
      && Get(w2.cookies, UserToken).None?
  {
  }

  // ---------------------------------------------------------------------
  // The provider

  /** `AuthProvider`: its state variables, the cookie jar of the page and the
      shared refresh. */
  class Session {
    const jar: CookieJar
    const refresher: RefreshCoordinator
    var activeRole: Option<string>
    var me: Option<Identity>
    var accessToken: Option<string>
    var loading: bool

    ghost predicate Valid()
      reads this, jar
    {
      jar.Valid()
    }

    function State(): Snapshot
      reads this
    {
      Snapshot(activeRole, me, accessToken, loading)
    }

    function Current(): World
      reads this, jar
    {
      World(State(), jar.Jar())
    }

    /** The provider mounts with the role-less credential of the page and
        loading set. */
    constructor (jar: CookieJar, refresher: RefreshCoordinator, pathname: string)
      requires jar.Valid()
      ensures Valid() && this.jar == jar && this.refresher == refresher
      ensures State() == Snapshot(None, None, GetAccessToken(jar.DocumentCookie(), None, pathname), true)
    {
      this.jar := jar;
      this.refresher := refresher;
      activeRole := None;
      me := None;
      accessToken := GetAccessToken(jar.DocumentCookie(), None, pathname);
      loading := true;
    }

    method SetToken(token: Option<string>, role: Option<string>)
      requires Valid()
      modifies this, jar
      ensures Valid()
      ensures Current() == SetTokenSpec(old(Current()), token, role)
    {
      if Truthy(token) && !Truthy(role) {
        var inferredRole := RoleFromMe(me);
        jar.SetAccessToken(token, inferredRole);
        activeRole := inferredRole;
      } else {
        jar.SetAccessToken(token, role);
        activeRole := Or(role, None);
      }
      accessToken := token;
    }

    /** The request interceptor: attach the credential of the acting role,
        or of the role-less lookup, and remember it. */
    method InterceptRequest(config: Request, pathname: string) returns (out: Request)
      requires Valid()
      modifies this
      ensures Valid()
      ensures var t := RequestCredential(old(Current()), config.checkRole, pathname);
        && out == (if Truthy(t) then config.(authorization := Some(Bearer(t.value))) else config)
        && State() == old(State()).(accessToken := if Truthy(t) then t else old(accessToken))
    {
      var role := Or(Or(config.checkRole, activeRole), RoleFromMe(me));
      var token: Option<string> := None;
      GetAccessTokenReadsView(jar.cookies, role, pathname);
      GetAccessTokenReadsView(jar.cookies, None, pathname);
      if Truthy(role) {
        token := GetAccessToken(jar.DocumentCookie(), role, pathname);
      }
      if !Truthy(token) {
        token := GetAccessToken(jar.DocumentCookie(), None, pathname);
      }
      out := config;
      if Truthy(token) {
        out := config.(authorization := Some(Bearer(token.value)));
        if token != accessToken {
          accessToken := token;
        }
      }
    }

    /** The response interceptor: a 401 to a request not yet retried marks it
        retried and joins the shared refresh under the identity's role;
        everything else is rethrown. */
    method InterceptResponseError(err: HttpError) returns (step: ErrorStep)
      requires Valid()
      modifies refresher
      ensures step.AwaitRefresh? <==> RefreshesAfter(err)
      ensures RefreshesAfter(err) ==>
                && step.request == err.config.value.(retry := true)
                && refresher.flight == AfterJoin(old(refresher.flight), RoleFromMe(me))
                && refresher.requests == old(refresher.requests) + Issued(old(refresher.flight))
                && step.tag == refresher.flight.tag
      ensures !RefreshesAfter(err) ==> unchanged(refresher)
    {
      if err.config.None? || err.config.value.retry {
        return Rethrow;
      }
      if err.status != Some(401) {
        return Rethrow;
      }
      var original := err.config.value.(retry := true);
      var currentRole := RoleFromMe(me);
      var tag := refresher.Join(currentRole);
      step := AwaitRefresh(original, tag);
    }

    /** The response interceptor once the shared refresh has settled: store
        the new credential under the tag's role and resend, or clear every
        slot and give up. */
    method FinishRetry(request: Request, result: RefreshResult) returns (step: RetryStep)
      requires Valid()
      modifies this, jar
      ensures Valid()
      ensures Current() == RetryEffect(old(Current()), result)
      ensures result.RefreshOk? ==>
                step == Resubmit(request.(authorization := Some(Bearer(TokenText(result.token)))))
      ensures result.RefreshError? ==> step == Reject
    {
      match result {
        case RefreshOk(newToken, newRole) =>
          if Truthy(newRole) {
            SetToken(newToken, newRole);
          } else {
            SetToken(newToken, None);
          }
          step := Resubmit(request.(authorization := Some(Bearer(TokenText(newToken)))));
        case RefreshError =>
          SetToken(None, None);
          step := Reject;
      }
    }

    /** `loadMe(forceRole)`: find a credential, ask `/auth/me` (answered as
        `answer` says; a 401 goes through the response interceptor and the
        shared refresh), adopt the identity and its role, and make sure the
        credential sits in that role's slot. */
    method LoadMe(forceRole: Option<string>, pathname: string, answer: MeAnswer) returns (sent: Option<Request>)
      requires Valid()
      modifies this, jar, refresher
      ensures Valid()
      ensures sent == LoadMeRequest(old(Current()), forceRole, pathname)
      ensures Current() == LoadMeSpec(old(Current()), forceRole, pathname, MeCallOf(answer, old(refresher.flight), old(me)))
      ensures answer.Unauthorized? && sent.Some? ==>
                refresher.flight == Idle && refresher.requests == old(refresher.requests) + Issued(old(refresher.flight))
      ensures answer.Replied? || sent.None? ==> unchanged(refresher)
    {
      var call := MeCallOf(answer, refresher.flight, me);
      var role := Or(Or(forceRole, activeRole), RoleFromMe(me));
      GetAccessTokenReadsView(jar.cookies, role, pathname);
      GetAccessTokenReadsView(jar.cookies, None, pathname);
      var token := Or(if Truthy(role) then GetAccessToken(jar.DocumentCookie(), role, pathname) else None,
                      GetAccessToken(jar.DocumentCookie(), None, pathname));
      if !Truthy(token) {
        me := None;
        activeRole := None;
        accessToken := None;
        loading := false;
        return None;
      }
      sent := Some(Request(if Truthy(forceRole) then forceRole else None, false, None));
      match answer {
        case Unauthorized(outcome, _) =>
          var step := InterceptResponseError(HttpError(sent, Some(401)));
          var result := refresher.Settle(outcome);
          var _ := FinishRetry(step.request, result);
        case Replied(_) =>
      }
      match MeOutcome(call) {
        case Found(id) =>
          var newRole := RoleFromMe(Some(id));
          me := Some(id);
          activeRole := newRole;
          accessToken := token;
          if Truthy(newRole) {
            GetAccessTokenReadsView(jar.cookies, newRole, pathname);
            var roleToken := GetAccessToken(jar.DocumentCookie(), newRole, pathname);
            if roleToken != token {
              jar.SetAccessToken(token, newRole);
            }
          }
        case LookupFailed =>
          me := None;
          SetToken(None, None);
          activeRole := None;
      }
      loading := false;
    }

    /** The start-up load: force the role of the page's area. */
    method Bootstrap(pathname: string, answer: MeAnswer) returns (sent: Option<Request>)
      requires Valid()
      modifies this, jar, refresher
      ensures Valid()
      ensures sent == LoadMeRequest(old(Current()), RoleOfPath(pathname), pathname)
      ensures Current() == LoadMeSpec(old(Current()), RoleOfPath(pathname), pathname, MeCallOf(answer, old(refresher.flight), old(me)))
      ensures answer.Unauthorized? && sent.Some? ==>
                refresher.flight == Idle && refresher.requests == old(refresher.requests) + Issued(old(refresher.flight))
      ensures answer.Replied? || sent.None? ==> unchanged(refresher)
    {
      sent := LoadMe(RoleOfPath(pathname), pathname, answer);
    }

    /** `logout()`: clear the slot of the role being signed out of (all four
        when there is none) and forget the identity. */
    method Logout(pathname: string)
      requires Valid()
      modifies this, jar
      ensures Valid()
      ensures Current() == LogoutSpec(old(Current()), pathname)
    {
      var role := Or(Or(activeRole, RoleFromMe(me)), RoleOfPath(pathname));
      if Truthy(role) {
        jar.ClearTokenForRole(role.value);
      } else {
        jar.ClearAllTokens();
      }
      me := None;
      activeRole := None;
      accessToken := None;
    }
  }
}
