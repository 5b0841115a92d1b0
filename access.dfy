/** Sessions, the route guards built on them and the edge middleware's
    routing decision. A thrown guard response is modelled as the status it
    carries. */
module Access {
  import opened Text

  /** The signed-in user as the session carries it; an absent clinic id is
      the empty string. */
  datatype SessionUser = SessionUser(id: string, email: Option<string>, role: string, clinicId: string)

  datatype Session = Session(user: Option<SessionUser>)

  /** What asking the session provider produced. */
  datatype SessionLookup = Found(session: Session) | NoSession | LookupThrew

  /** `getSessionServer`: a lookup that throws yields no session. */
  function GetSessionServer(lookup: SessionLookup): (r: Option<Session>)
    ensures r.Some? <==> lookup.Found?
    ensures r.Some? ==> r.value == lookup.session
  {
    match lookup
    case Found(s) => Some(s)
    case NoSession => None
    case LookupThrew => None
  }

  /** A guard either lets the caller through or answers with a status. */
  datatype Guard = Granted(user: SessionUser) | Denied(status: int)

  const Unauthorized := 401
  const Forbidden := 403

  predicate SignedIn(s: Option<Session>) {
    s.Some? && s.value.user.Some?
  }

  /** `requireAuth`: 401 without a session user. The best-effort database
      session setting that follows cannot make it fail. */
  function RequireAuth(s: Option<Session>): (g: Guard)
    ensures g.Granted? <==> SignedIn(s)
    ensures g.Granted? ==> g.user == s.value.user.value
    ensures g.Denied? ==> g.status == Unauthorized
  {
    if SignedIn(s) then Granted(s.value.user.value) else Denied(Unauthorized)
  }

  /** `requireRole(roles)`: authentication first (401), then an exact match
      of the caller's role against the list (403). */
  function RequireRole(s: Option<Session>, roles: seq<string>): (g: Guard)
    ensures g.Granted? <==> SignedIn(s) && s.value.user.value.role in roles
    ensures g.Granted? ==> g.user == s.value.user.value
    ensures !SignedIn(s) ==> g == Denied(Unauthorized)
    ensures SignedIn(s) && s.value.user.value.role !in roles ==> g == Denied(Forbidden)
  {
    match RequireAuth(s)
    case Denied(status) => Denied(status)
    case Granted(u) => if u.role in roles then Granted(u) else Denied(Forbidden)
  }

  /** With the default empty role list nobody passes, and signed-in callers
      get 403. */
  lemma DefaultRolesDenyEveryone(s: Option<Session>)
    ensures RequireRole(s, []).Denied?
    ensures SignedIn(s) ==> RequireRole(s, []).status == Forbidden
  {
  }

  /** A role guard passes only callers that `requireAuth` passes, as the
      same user. */
  lemma RoleImpliesAuth(s: Option<Session>, roles: seq<string>)
    ensures RequireRole(s, roles).Granted? ==> RequireAuth(s) == RequireRole(s, roles)
  {
  }

  /** What `runWithSessionClinic` does with its callback. */
  datatype ClinicRun = RunDenied(status: int) | RunRejected | RunsUnder(clinicId: string)

  /** `runWithSessionClinic`: authenticate, then run inside a transaction for
      the session's clinic; a missing clinic id throws before any query. */
  function RunWithSessionClinic(s: Option<Session>): (r: ClinicRun)
    ensures !SignedIn(s) ==> r == RunDenied(Unauthorized)
    ensures SignedIn(s) && s.value.user.value.clinicId == "" ==> r == RunRejected
    ensures SignedIn(s) && s.value.user.value.clinicId != "" ==>
              r == RunsUnder(s.value.user.value.clinicId)
  {
    match RequireAuth(s)
    case Denied(status) => RunDenied(status)
    case Granted(u) => if u.clinicId == "" then RunRejected else RunsUnder(u.clinicId)
  }

  const ClinicHeader := "x-clinic-id"

  /** `getClinicIdFromRequest`: the clinic header when it is non-empty. */
  function GetClinicIdFromRequest(headers: map<string, string>): (r: Option<string>)
    ensures r.Some? <==> ClinicHeader in headers && headers[ClinicHeader] != ""
    ensures r.Some? ==> r.value == headers[ClinicHeader]
  {
    if ClinicHeader in headers && headers[ClinicHeader] != "" then Some(headers[ClinicHeader]) else None
  }

  // ---------------------------------------------------------------------
  // The middleware

  /** The decoded session token; only its clinic id matters here. */
  datatype Token = Token(clinicId: Option<string>)

  /** Redirect to a path, or pass the request on with these headers. */
  datatype Routing = Redirect(path: string) | Pass(headers: map<string, string>)

  predicate StartsWith(s: string, prefix: string) {
    |prefix| <= |s| && s[..|prefix|] == prefix
  }

  /** The prefix test: every path beginning with "/auth" is an auth page. */
  predicate IsAuthPage(path: string) {
    StartsWith(path, "/auth")
  }

  /** A path is an auth page exactly when it is "/auth" followed by
      anything, so "/authors" counts as well as "/auth/login". */
  lemma AuthPageIffPrefix(path: string)
    ensures IsAuthPage(path) <==> exists rest :: path == "/auth" + rest
  {
    if IsAuthPage(path) {
      assert path == "/auth" + path[5..];
    }
    if exists rest :: path == "/auth" + rest {
      var rest :| path == "/auth" + rest;
      assert path[..5] == "/auth";
    }
  }

  /** Examples of the prefix test: a path that merely shares the prefix is
      an auth page, the dashboard is not. */
  lemma AuthorsIsAuthPage()
    ensures IsAuthPage("/authors")
    ensures !IsAuthPage("/dashboard")
  {
    assert "/authors"[..5] == "/auth";
    assert "/dashboard"[1] != "/auth"[1];
  }

  /** `middleware`: signed-in users are sent away from auth pages, everyone
      else is sent to the login page; signed-in requests elsewhere pass on,
      with the clinic header set from the token when it names a clinic. */
  method Middleware(path: string, token: Option<Token>, headers: map<string, string>)
    returns (r: Routing)
    ensures IsAuthPage(path) && token.Some? ==> r == Redirect("/dashboard")
    ensures IsAuthPage(path) && token.None? ==> r == Pass(headers)
    ensures !IsAuthPage(path) && token.None? ==> r == Redirect("/auth/login")
    ensures !IsAuthPage(path) && token.Some? ==> r.Pass?
    ensures r.Pass? && !IsAuthPage(path) && Truthy(token.value.clinicId) ==>
              r.headers == headers[ClinicHeader := token.value.clinicId.value]
    ensures r.Pass? && !IsAuthPage(path) && !Truthy(token.value.clinicId) ==>
              r.headers == headers
  {
    var isAuthPage := IsAuthPage(path);
    var isLoggedIn := token.Some?;
    if isAuthPage {
      if isLoggedIn {
        return Redirect("/dashboard");
      }
      return Pass(headers);
    }
    if !isLoggedIn {
      return Redirect("/auth/login");
    }
    var requestHeaders := headers;
    var clinicId := token.value.clinicId;
    if Truthy(clinicId) {
      requestHeaders := requestHeaders[ClinicHeader := clinicId.value];
    }
    r := Pass(requestHeaders);
  }
}
