/** The checks that stand before an account is created or changed: the staff
    form's email pattern and role list, the order of the staff checks, the
    register and patient forms' required fields, and the profile form's
    password-field rule. */
module Accounts {
  import opened Text
  import opened Records

  // ---------------------------------------------------------------------
  // The staff email pattern `^[^\s@]+@[^\s@]+\.[^\s@]+$`

  /** JavaScript's `\s`: tab, line feed, vertical tab, form feed, carriage
      return, the space separators (space, no-break space, U+1680,
      U+2000 to U+200A, U+202F, U+205F, U+3000), the line and paragraph
      separators U+2028 and U+2029, and the byte order mark U+FEFF. */
  predicate IsSpace(c: char) {
    c == '\t' || c == '\n' || c == '\U{000B}' || c == '\U{000C}' || c == '\r' ||
    c == ' ' || c == '\U{00A0}' || c == '\U{1680}' || '\U{2000}' <= c <= '\U{200A}' ||
    c == '\U{2028}' || c == '\U{2029}' || c == '\U{202F}' || c == '\U{205F}' || c == '\U{3000}' ||
    c == '\U{FEFF}'
  }

  /** A run of `[^\s@]`: neither whitespace nor '@'. */
  predicate Plain(s: string) {
    forall i :: 0 <= i < |s| ==> !IsSpace(s[i]) && s[i] != '@'
  }

  /** The shape the pattern describes: a non-empty local part, '@', a
      non-empty first domain part, '.', a non-empty last part, none of them
      holding whitespace or '@'. The first domain part may hold dots. */
  ghost predicate EmailShape(s: string) {
    exists at, dot :: 0 < at && at + 1 < dot < |s| - 1 && s[at] == '@' && s[dot] == '.' &&
      Plain(s[..at]) && Plain(s[at + 1..dot]) && Plain(s[dot + 1..])
  }

  /** The position of the first `c` in `s`. */
  function IndexOf(s: string, c: char): (r: Option<nat>)
    ensures r.Some? ==> r.value < |s| && s[r.value] == c && forall i :: 0 <= i < r.value ==> s[i] != c
    ensures r.None? <==> forall i :: 0 <= i < |s| ==> s[i] != c
  {
    if s == [] then None
    else if s[0] == c then Some(0)
    else
      match IndexOf(s[1..], c)
      case None => None
      case Some(k) => Some(k + 1)
  }

  /** The test the staff route runs, as a computation: the text before the
      first '@' is a plain non-empty run, and what follows it is plain and
      has a dot with something on both sides. */
  function StaffEmailOk(s: string): (r: bool) {
    match IndexOf(s, '@')
    case None => false
    case Some(at) =>
      var domain := s[at + 1..];
      0 < at && Plain(s[..at]) && Plain(domain) && |domain| >= 3 && '.' in domain[1..|domain| - 1]
  }

  /** A slice of a plain run is plain. */
  lemma PlainSlice(d: string, i: nat, j: nat)
    requires Plain(d) && i <= j <= |d|
    ensures Plain(d[i..j])
  {
    assert forall k :: 0 <= k < j - i ==> d[i..j][k] == d[i + k];
  }

  /** Two plain runs around one plain character make a plain run. */
  lemma PlainJoin(a: string, c: char, b: string)
    requires Plain(a) && Plain(b) && !IsSpace(c) && c != '@'
    ensures Plain(a + [c] + b)
  {
    var s := a + [c] + b;
    forall k | 0 <= k < |s|
      ensures !IsSpace(s[k]) && s[k] != '@'
    {
      if k < |a| {
        assert s[k] == a[k];
      } else if k > |a| {
        assert s[k] == b[k - |a| - 1];
      }
    }
  }

  /** The computed test only accepts emails of the pattern's shape. */
  lemma StaffEmailOkShape(s: string)
    requires StaffEmailOk(s)
    ensures EmailShape(s)
  {
    var at := IndexOf(s, '@').value;
    var domain := s[at + 1..];
    var inner := domain[1..|domain| - 1];
    var k :| 0 <= k < |inner| && inner[k] == '.';
    var dot := at + 2 + k;
    assert s[dot] == domain[k + 1];
    PlainSlice(domain, 0, k + 1);
    PlainSlice(domain, k + 2, |domain|);
    assert s[at + 1..dot] == domain[..k + 1];
    assert s[dot + 1..] == domain[k + 2..];
  }

  /** An '@' with a plain run before it is the first '@'. */
  lemma FirstAt(s: string, at: nat)
    requires at < |s| && s[at] == '@' && Plain(s[..at])
    ensures IndexOf(s, '@') == Some(at)
  {
    assert forall i :: 0 <= i < at ==> s[i] == s[..at][i];
  }

  /** The text after the '@' of an email of the pattern's shape is plain
      and has a dot with something on both sides. */
  lemma ShapeDomain(s: string, at: nat, dot: nat)
    requires at + 1 < dot < |s| - 1 && s[dot] == '.'
    requires Plain(s[at + 1..dot]) && Plain(s[dot + 1..])
    ensures Plain(s[at + 1..]) && |s[at + 1..]| >= 3
    ensures '.' in s[at + 1..][1..|s[at + 1..]| - 1]
  {
    var domain := s[at + 1..];
    assert domain == s[at + 1..dot] + [s[dot]] + s[dot + 1..];
    PlainJoin(s[at + 1..dot], s[dot], s[dot + 1..]);
    assert domain[1..|domain| - 1][dot - at - 2] == '.';
  }

  /** Every email of the pattern's shape passes the computed test. */
  lemma ShapeStaffEmailOk(s: string)
    requires EmailShape(s)
    ensures StaffEmailOk(s)
  {
    var at, dot :| 0 < at && at + 1 < dot < |s| - 1 && s[at] == '@' && s[dot] == '.' &&
      Plain(s[..at]) && Plain(s[at + 1..dot]) && Plain(s[dot + 1..]);
    FirstAt(s, at);
    ShapeDomain(s, at, dot);
    AcceptedAt(s, at);
  }

  /** The computed test passes once the first '@' is found with a plain
      local part before it and a dotted plain domain after it. */
  lemma AcceptedAt(s: string, at: nat)
    requires IndexOf(s, '@') == Some(at) && 0 < at && Plain(s[..at])
    requires Plain(s[at + 1..]) && |s[at + 1..]| >= 3 && '.' in s[at + 1..][1..|s[at + 1..]| - 1]
    ensures StaffEmailOk(s)
  {
  }

  /** The computed test accepts exactly the emails of the pattern's shape. */
  lemma StaffEmailOkIsShape(s: string)
    ensures StaffEmailOk(s) <==> EmailShape(s)
  {
    if StaffEmailOk(s) {
      StaffEmailOkShape(s);
    }
    if EmailShape(s) {
      ShapeStaffEmailOk(s);
    }
  }

  /** Accepted: a plain address, and one with dots in the domain. */
  lemma StaffEmailAccepted()
    ensures StaffEmailOk("a@b.c")
    ensures StaffEmailOk("jo@mail.example.org")
  {
    PlainAddressAccepted();
    DottedDomainAccepted();
  }

  lemma PlainAddressAccepted()
    ensures StaffEmailOk("a@b.c")
  {
    var s := "a@b.c";
    assert s[..1] == "a" && s[2..3] == "b" && s[4..] == "c";
    assert EmailShape(s) by {
      assert 0 < 1 && 1 + 1 < 3 < |s| - 1 && s[1] == '@' && s[3] == '.' &&
        Plain(s[..1]) && Plain(s[1 + 1..3]) && Plain(s[3 + 1..]);
    }
    ShapeStaffEmailOk(s);
  }

  lemma DottedDomainAccepted()
    ensures StaffEmailOk("jo@mail.example.org")
  {
    var t := "jo@mail.example.org";
    assert t[..2] == "jo" && t[3..15] == "mail" + ['.'] + "example" && t[16..] == "org";
    assert Plain("mail") && Plain("example") && Plain("jo") && Plain("org");
    PlainJoin("mail", '.', "example");
    assert EmailShape(t) by {
      assert 0 < 2 && 2 + 1 < 15 < |t| - 1 && t[2] == '@' && t[15] == '.' &&
        Plain(t[..2]) && Plain(t[2 + 1..15]) && Plain(t[15 + 1..]);
    }
    ShapeStaffEmailOk(t);
  }

  /** Refused: no dot after the '@', nothing between '@' and the dot,
      nothing after the dot, whitespace, a second '@'. */
  lemma StaffEmailRefused()
    ensures !StaffEmailOk("a@b")
    ensures !StaffEmailOk("a@.c")
    ensures !StaffEmailOk("a@b.")
    ensures !StaffEmailOk("a b@c.d")
    ensures !StaffEmailOk("a@b@c.d")
  {
    assert IndexOf("a@b", '@') == Some(1);
    assert IndexOf("a@.c", '@') == Some(1);
    assert "a@.c"[2..][1..1] == [];
    assert IndexOf("a@b.", '@') == Some(1);
    assert "a@b."[2..][1..1] == [];
    assert IndexOf("a@b@c.d", '@') == Some(1);
    assert "a@b@c.d"[2..][1] == '@';
    assert IndexOf("a b@c.d", '@') == Some(3);
    assert "a b@c.d"[..3][1] == ' ';
  }

  /** Refused: an ideographic space in the local part, a thin space in the
      domain. */
  lemma StaffEmailRefusesUnicodeSpace()
    ensures !StaffEmailOk("a\U{3000}b@c.d")
    ensures !StaffEmailOk("a@b\U{2009}c.d")
  {
    LocalSpaceRefused();
    DomainSpaceRefused();
  }

  lemma LocalSpaceRefused()
    ensures !StaffEmailOk("a\U{3000}b@c.d")
  {
    var s := "a\U{3000}b@c.d";
    assert IndexOf(s, '@') == Some(3);
    assert s[..3][1] == '\U{3000}' && IsSpace('\U{3000}');
  }

  lemma DomainSpaceRefused()
    ensures !StaffEmailOk("a@b\U{2009}c.d")
  {
    var s := "a@b\U{2009}c.d";
    assert IndexOf(s, '@') == Some(1);
    assert s[2..][1] == '\U{2009}' && IsSpace('\U{2009}');
  }

  // ---------------------------------------------------------------------
  // The staff form

  const StaffRoles: seq<string> := ["ADMIN", "DOCTOR", "RECEPTIONIST"]

  /** The staff form's checks before the duplicate lookup, in their order:
      both fields present (400), the email pattern (400), the role list
      (400). None means all passed. */
  function StaffFormIssue(email: Option<string>, role: Option<string>): (r: Option<int>)
    ensures r.None? <==>
              Truthy(email) && Truthy(role) && StaffEmailOk(email.value) && role.value in StaffRoles
    ensures r.Some? ==> r.value == 400
  {
    if !Truthy(email) || !Truthy(role) then Some(400)
    else if !StaffEmailOk(email.value) then Some(400)
    else if role.value !in StaffRoles then Some(400)
    else None
  }

  /** The role check is an exact match: a role in lower case is refused. */
  lemma RoleMatchIsExact()
    ensures StaffFormIssue(Some("a@b.c"), Some("DOCTOR")).None?
    ensures StaffFormIssue(Some("a@b.c"), Some("doctor")) == Some(400)
    ensures StaffFormIssue(Some("a@b.c"), Some("PATIENT")) == Some(400)
  {
    PlainAddressAccepted();
    assert "doctor" != "ADMIN" && "doctor" != "DOCTOR" && "doctor" != "RECEPTIONIST";
    assert "PATIENT" != "ADMIN" && "PATIENT" != "DOCTOR" && "PATIENT" != "RECEPTIONIST";
  }

  // ---------------------------------------------------------------------
  // Sign-up and patient forms

  datatype RegisterInput = RegisterInput(
    firstName: Option<string>, lastName: Option<string>, email: Option<string>,
    password: Option<string>, phone: Option<string>, clinicName: Option<string>)

  /** Every field but the phone must be a non-empty string. */
  predicate RegisterComplete(r: RegisterInput) {
    Truthy(r.firstName) && Truthy(r.lastName) && Truthy(r.email) && Truthy(r.password) && Truthy(r.clinicName)
  }

  datatype PatientInput = PatientInput(
    firstName: Option<string>, lastName: Option<string>, email: Option<string>,
    phone: Option<string>, password: Option<string>,
    dateOfBirth: Option<string>, gender: Option<string>, bloodType: Option<string>,
    address: Option<string>, emergencyContact: Option<string>,
    allergies: Option<string>, chronicConditions: Option<string>)

  /** The patient schema: both names non-empty, an email the schema's email
      check accepts (`emailAccepted`), a password of at least six UTF-16
      code units when one is given. */
  predicate PatientValid(p: PatientInput, emailAccepted: bool) {
    Truthy(p.firstName) && Truthy(p.lastName) && p.email.Some? && emailAccepted &&
    (p.password.None? || Utf16Length(p.password.value) >= 6)
  }

  const DefaultPatientPassword := "defaultPassword123"

  /** The password that is hashed for a new patient: the given one, else the
      fixed default. */
  function PatientPassword(p: PatientInput): (r: string)
    ensures Truthy(p.password) ==> r == p.password.value
    ensures !Truthy(p.password) ==> r == DefaultPatientPassword
  {
    OrElse(p.password, DefaultPatientPassword)
  }

  /** The password hashed for a valid patient is at least six code units
      long, whether given or the default. */
  lemma PatientPasswordLength(p: PatientInput)
    requires PatientValid(p, true)
    ensures Utf16Length(PatientPassword(p)) >= 6
  {
    var r := PatientPassword(p);
    if !Truthy(p.password) {
      assert |r| == 18;
    }
  }

  /** Three emoji are six code units, so they pass `.min(6)`. */
  lemma AstralPasswordAccepted(p: PatientInput)
    requires Truthy(p.firstName) && Truthy(p.lastName) && p.email.Some?
    requires p.password == Some("\U{1F600}\U{1F600}\U{1F600}")
    ensures PatientValid(p, true)
  {
    var s := p.password.value;
    assert s[1..][1..][1..] == [];
  }

  // ---------------------------------------------------------------------
  // The profile form

  /** The phone field of a profile update: left out, sent as null, or a
      value. */
  datatype PhoneArg = Absent | Null | Value(phone: string)

  datatype ProfileInput = ProfileInput(
    firstName: Option<string>, lastName: Option<string>, phone: PhoneArg,
    currentPassword: Option<string>, newPassword: Option<string>)

  predicate ProfileValid(p: ProfileInput) {
    Truthy(p.firstName) && Truthy(p.lastName)
  }

  /** What the password fields ask for: both given means the user row is
      looked up (and nothing else happens with them); exactly one given is
      refused; none given goes straight to the update. */
  datatype PasswordStep = LookUpUser | RefusePasswords | SkipPasswords

  function PasswordRule(current: Option<string>, next: Option<string>): (r: PasswordStep)
    ensures r == RefusePasswords <==> Truthy(current) != Truthy(next)
    ensures r == LookUpUser <==> Truthy(current) && Truthy(next)
  {
    if Truthy(current) && Truthy(next) then LookUpUser
    else if (Truthy(current) && !Truthy(next)) || (!Truthy(current) && Truthy(next)) then RefusePasswords
    else SkipPasswords
  }

  /** The phone column after an update: kept when the field is left out,
      cleared for null, else the value. */
  function NewPhone(current: Option<string>, phone: PhoneArg): (r: Option<string>)
    ensures phone.Absent? ==> r == current
    ensures phone.Null? ==> r.None?
    ensures phone.Value? ==> r == Some(phone.phone)
  {
    match phone
    case Absent => current
    case Null => None
    case Value(p) => Some(p)
  }

  /** `user.update({ where: { id }, data: { firstName, lastName, phone } })`:
      the names and the phone of that user and nothing else. */
  function WithProfile(users: seq<User>, id: string, firstName: string, lastName: string, phone: PhoneArg)
    : (r: seq<User>)
    ensures |r| == |users|
    ensures forall i :: 0 <= i < |r| ==>
              r[i] == if users[i].id == id
                      then users[i].(firstName := firstName, lastName := lastName,
                                     phone := NewPhone(users[i].phone, phone))
                      else users[i]
  {
    seq(|users|, i requires 0 <= i < |users| =>
      if users[i].id == id
      then users[i].(firstName := firstName, lastName := lastName, phone := NewPhone(users[i].phone, phone))
      else users[i])
  }

  // ---------------------------------------------------------------------
  // Email uniqueness

  /** No two users share an email: what every lookup by email relies on. */
  ghost predicate UniqueEmails(users: seq<User>) {
    forall i, j :: 0 <= i < j < |users| ==> users[i].email != users[j].email
  }

  /** Adding a user whose email no user has keeps emails unique. */
  lemma AddUserKeepsUnique(users: seq<User>, u: User)
    requires UniqueEmails(users)
    requires UserByEmail(users, u.email).None?
    ensures UniqueEmails(users + [u])
  {
    var s := users + [u];
    forall i, j | 0 <= i < j < |s|
      ensures s[i].email != s[j].email
    {
      assert s[i] == users[i] && users[i] in users;
      if j < |users| {
        assert s[j] == users[j];
      }
    }
  }

  /** A row-by-row update that keeps every email keeps them unique. */
  lemma SameEmailsKeepUnique(users: seq<User>, updated: seq<User>)
    requires UniqueEmails(users)
    requires |updated| == |users| && forall i :: 0 <= i < |users| ==> updated[i].email == users[i].email
    ensures UniqueEmails(updated)
  {
  }

  /** The staff route's duplicate lookup: a user with this email in this
      clinic. */
  function UserInClinic(users: seq<User>, email: string, clinicId: string): (r: Option<User>)
    ensures r.Some? ==> r.value in users && r.value.email == email && r.value.clinicId == clinicId
    ensures r.None? <==> forall u :: u in users ==> !(u.email == email && u.clinicId == clinicId)
  {
    if users == [] then None
    else if users[0].email == email && users[0].clinicId == clinicId then Some(users[0])
    else
      assert forall u :: u in users ==> u == users[0] || u in users[1..];
      UserInClinic(users[1..], email, clinicId)
  }

  /** An email held in another clinic only is no duplicate for the staff
      route, yet it is taken for every route that looks users up by email
      alone. */
  lemma DuplicateIsPerClinic(u: User, clinicId: string)
    requires u.clinicId != clinicId
    ensures UserInClinic([u], u.email, clinicId).None?
    ensures UserByEmail([u], u.email) == Some(u)
  {
  }

  // ---------------------------------------------------------------------
  // The rows account creation writes

  /** The user a new patient gets: role PATIENT, active, verified, in the
      staff member's clinic. */
  function PatientUser(id: string, p: PatientInput, hashed: string, clinicId: string): (r: User)
    requires PatientValid(p, true)
    ensures r.email == p.email.value && r.password == Some(hashed) && r.role == "PATIENT"
    ensures r.clinicId == clinicId && r.isActive && r.emailVerified
    ensures r.firstName == p.firstName.value && r.lastName == p.lastName.value && r.phone == p.phone
  {
    User(id, p.email.value, Some(hashed), p.firstName.value, p.lastName.value, p.phone, "PATIENT", clinicId, true, true)
  }

  /** The names of the gender enum. */
  const Genders: seq<string> := ["MALE", "FEMALE", "OTHER"]

  /** Whether the patient row can be inserted: a given date of birth parses
      (`birthDate` is its parsed value, none for an invalid date), and a
      given gender names a value of the enum. Otherwise the insert throws
      and the transaction is rolled back. */
  predicate ProfileStorable(p: PatientInput, birthDate: Option<int>) {
    (Truthy(p.dateOfBirth) ==> birthDate.Some?) && (Truthy(p.gender) ==> p.gender.value in Genders)
  }

  /** The patient row of a new patient user: an empty date of birth or
      gender is left unset, the other profile fields are stored as given. */
  function PatientRecord(id: string, userId: string, clinicId: string, p: PatientInput, birthDate: Option<int>)
    : (r: Patient)
    requires ProfileStorable(p, birthDate)
    ensures r.id == id && r.userId == userId && r.clinicId == clinicId
    ensures Truthy(p.dateOfBirth) <==> r.dateOfBirth.Some?
    ensures Truthy(p.dateOfBirth) ==> r.dateOfBirth == birthDate
    ensures r.gender.Some? <==> Truthy(p.gender)
    ensures r.gender.Some? ==> r.gender == p.gender && r.gender.value in Genders
    ensures r.bloodType == p.bloodType && r.address == p.address && r.emergencyContact == p.emergencyContact
    ensures r.allergies == p.allergies && r.chronicConditions == p.chronicConditions
  {
    Patient(id, userId, clinicId,
            if Truthy(p.dateOfBirth) then birthDate else None,
            if Truthy(p.gender) then p.gender else None,
            p.bloodType, p.address, p.emergencyContact, p.allergies, p.chronicConditions)
  }

  /** The clinic a sign-up creates, named as asked, reachable at the
      signing-up user's email. */
  function RegisteredClinic(id: string, r: RegisterInput): (c: Clinic)
    requires RegisterComplete(r)
    ensures c.id == id && c.name == r.clinicName.value && c.email == r.email.value && c.phone == r.phone
  {
    Clinic(id, r.clinicName.value, r.email.value, r.phone)
  }

  /** The administrator a sign-up creates for the new clinic. */
  function RegisteredAdmin(id: string, r: RegisterInput, hashed: string, clinicId: string): (u: User)
    requires RegisterComplete(r)
    ensures u.id == id && u.email == r.email.value && u.password == Some(hashed)
    ensures u.role == "ADMIN" && u.clinicId == clinicId && u.isActive && u.emailVerified
    ensures u.firstName == r.firstName.value && u.lastName == r.lastName.value && u.phone == r.phone
  {
    User(id, r.email.value, Some(hashed), r.firstName.value, r.lastName.value, r.phone, "ADMIN", clinicId, true, true)
  }
}
