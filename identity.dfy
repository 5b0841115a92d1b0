/** Credential sign-in and the two session callbacks: `authorize` checks the
    email and password against the user table, and the `jwt` and `session`
    callbacks copy the signed-in user's role and clinic into the token and
    from the token into the session. The password comparison is a
    parameter. */
module Identity {
  import opened Text
  import opened Records

  /** `[first, last].filter(Boolean).join(' ')`: the non-empty names, one
      space between them. */
  function JoinedNames(first: string, last: string): (r: string)
    ensures first != "" && last != "" ==> r == first + " " + last
    ensures first == "" ==> r == last
    ensures last == "" ==> r == first
  {
    if first == "" then last
    else if last == "" then first
    else first + " " + last
  }

  /** The display name: the joined names, or, when both are empty, the part
      of the email before its first '@'. */
  function DisplayName(first: string, last: string, email: string): (r: string)
    ensures first != "" || last != "" ==> r == JoinedNames(first, last)
    ensures first == "" && last == "" ==> r == Before(email, '@')
  {
    var joined := JoinedNames(first, last);
    if joined != "" then joined else Before(email, '@')
  }

  /** The display name is never empty while a name is given, and it only
      carries an '@' when a name does: the email fallback stops before the
      first '@' and is a prefix of the email. */
  lemma DisplayNameFacts(first: string, last: string, email: string)
    ensures first != "" || last != "" ==> DisplayName(first, last, email) != ""
    ensures '@' !in first && '@' !in last ==> '@' !in DisplayName(first, last, email)
    ensures first == "" && last == "" ==>
              |DisplayName(first, last, email)| <= |email| &&
              email[..|DisplayName(first, last, email)|] == DisplayName(first, last, email)
  {
    BeforeIsPrefix(email, '@');
    if first != "" && last != "" {
      assert forall i :: 0 <= i < |first + " " + last| ==>
        (first + " " + last)[i] in first || (first + " " + last)[i] == ' ' || (first + " " + last)[i] in last;
    }
  }

  /** What `authorize` returns for a successful sign-in. */
  datatype AuthUser = AuthUser(
    id: string, email: string, name: string, role: string,
    clinicId: string, clinicName: Option<string>)

  /** `authorize(credentials)`: null on a missing email or password, an
      unknown user, a user without a password, a wrong password, or a
      failing lookup (`lookupThrows`). `matches(password, hash)` is the hash
      comparison. */
  function Authorize(email: Option<string>, password: Option<string>,
                     users: seq<User>, clinics: seq<Clinic>, lookupThrows: bool,
                     matches: (string, string) -> bool): (r: Option<AuthUser>)
    ensures r.Some? <==>
              Truthy(email) && Truthy(password) && !lookupThrows &&
              UserByEmail(users, email.value).Some? &&
              Truthy(UserByEmail(users, email.value).value.password) &&
              matches(password.value, UserByEmail(users, email.value).value.password.value)
    ensures r.Some? ==>
              var u := UserByEmail(users, email.value).value;
              r.value.id == u.id && r.value.email == u.email && u.email == email.value &&
              r.value.role == u.role && r.value.clinicId == u.clinicId &&
              r.value.name == DisplayName(u.firstName, u.lastName, u.email) &&
              r.value.clinicName == ClinicName(clinics, u.clinicId)
  {
    if !Truthy(email) || !Truthy(password) then None
    else if lookupThrows then None
    else
      match UserByEmail(users, email.value)
      case None => None
      case Some(u) =>
        if !Truthy(u.password) then None
        else if !matches(password.value, u.password.value) then None
        else
          Some(AuthUser(u.id, u.email, DisplayName(u.firstName, u.lastName, u.email),
                        u.role, u.clinicId, ClinicName(clinics, u.clinicId)))
  }

  /** `user.clinic?.name || undefined`: the name of the user's clinic when
      there is one and it is not empty. */
  function ClinicName(clinics: seq<Clinic>, clinicId: string): (r: Option<string>)
    ensures r.Some? ==> r.value != "" && exists c :: c in clinics && c.id == clinicId && c.name == r.value
    ensures (forall c :: c in clinics ==> c.id != clinicId) ==> r.None?
    ensures forall i :: 0 <= i < |clinics| && clinics[i].id == clinicId &&
                        (forall j :: 0 <= j < i ==> clinics[j].id != clinicId) ==>
              r == (if clinics[i].name == "" then None else Some(clinics[i].name))
  {
    if clinics == [] then None
    else if clinics[0].id == clinicId then (if clinics[0].name == "" then None else Some(clinics[0].name))
    else
      var r := ClinicName(clinics[1..], clinicId);
      assert forall c :: c in clinics[1..] ==> c in clinics;
      assert forall i :: 1 <= i < |clinics| ==> clinics[i] == clinics[1..][i - 1];
      r
  }

  /** The JWT's custom claims; `sub` is the user id the provider put there. */
  class JwtToken {
    var sub: string
    var role: Option<string>
    var clinicId: Option<string>
    var clinicName: Option<string>

    constructor (sub: string)
      ensures this.sub == sub && role == None && clinicId == None && clinicName == None
    {
      this.sub := sub;
      role := None;
      clinicId := None;
      clinicName := None;
    }

    /** The `jwt` callback: copy the user's role and clinic on sign-in;
        without a user the token is left as it is. */
    method Jwt(user: Option<AuthUser>)
      modifies this
      ensures user.Some? ==> role == Some(user.value.role) &&
                             clinicId == Some(user.value.clinicId) &&
                             clinicName == user.value.clinicName
      ensures user.None? ==> role == old(role) && clinicId == old(clinicId) &&
                             clinicName == old(clinicName)
      ensures sub == old(sub)
    {
      if user.Some? {
        role := Some(user.value.role);
        clinicId := Some(user.value.clinicId);
        clinicName := user.value.clinicName;
      }
    }
  }

  /** The `session.user` object the `session` callback fills in. */
  class SessionUserObject {
    var id: string
    var role: Option<string>
    var clinicId: Option<string>
    var clinicName: Option<string>

    constructor ()
      ensures id == "" && role == None && clinicId == None && clinicName == None
    {
      id := "";
      role := None;
      clinicId := None;
      clinicName := None;
    }
  }

  /** The `session` callback: when the session has a user, its id becomes
      the token's subject and its role and clinic are copied from the token;
      the token itself is not changed. */
  method SessionCallback(user: Option<SessionUserObject>, token: JwtToken)
    modifies if user.Some? then {user.value} else {}
    ensures user.Some? ==> user.value.id == token.sub && user.value.role == token.role &&
                           user.value.clinicId == token.clinicId &&
                           user.value.clinicName == token.clinicName
  {
    if user.Some? {
      var u := user.value;
      u.id := token.sub;
      u.role := token.role;
      u.clinicId := token.clinicId;
      u.clinicName := token.clinicName;
    }
  }

  /** Signing in and then opening a session hands the session the signed-in
      user's role and clinic. */
  method SignInThenSession(user: AuthUser, token: JwtToken, sessionUser: SessionUserObject)
    modifies token, sessionUser
    ensures sessionUser.role == Some(user.role) && sessionUser.clinicId == Some(user.clinicId)
    ensures sessionUser.clinicName == user.clinicName && sessionUser.id == token.sub
  {
    token.Jwt(Some(user));
    SessionCallback(Some(sessionUser), token);
  }
}
