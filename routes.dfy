/** The early-return chains at the head of the route handlers: which guard,
    which validation and which lookups a request has to pass, and the
    status it is answered with at the first one it fails. A handler that
    passes them all goes on to change the store (see `Store`). */
module Routes {
  import opened Text
  import opened Records
  import opened Access
  import opened Mail
  import opened Tokens
  import opened Appointments
  import opened Consultations
  import opened Billing
  import opened Accounts

  /** A request either stops with a status or goes on with what the checks
      established. */
  datatype Admission<T> = Refused(status: int) | Admitted(value: T)

  const InternalError := 500

  const ClinicalRoles: seq<string> := ["DOCTOR", "ADMIN"]
  const BillingRoles: seq<string> := ["RECEPTIONIST", "ADMIN"]
  const PatientRoles: seq<string> := ["ADMIN", "RECEPTIONIST"]
  const AdminRoles: seq<string> := ["ADMIN"]

  /** The caller a handler works for. A guard that fails inside the
      handler's `try` is caught and becomes 500; one outside it escapes
      with its own status. A caller without a clinic makes the scoped
      client throw, which is 500 either way. */
  function Caller(g: Guard, insideTry: bool): (r: Admission<SessionUser>)
    ensures g.Denied? ==> r == Refused(if insideTry then InternalError else g.status)
    ensures g.Granted? && g.user.clinicId == "" ==> r == Refused(InternalError)
    ensures g.Granted? && g.user.clinicId != "" ==> r == Admitted(g.user)
  {
    match g
    case Denied(status) => Refused(if insideTry then InternalError else status)
    case Granted(u) => if u.clinicId == "" then Refused(InternalError) else Admitted(u)
  }

  // ---------------------------------------------------------------------
  // POST /api/appointments

  /** Booking: the role guard, the schema, the patient (looked up in every
      clinic), the doctor, and a readable date, in that order. What goes on
      is the clinic, the resolved doctor id and the date. */
  function AdmitBooking(session: Option<Session>, patients: seq<Patient>, doctors: seq<Doctor>,
                        input: BookingInput, date: Option<int>)
    : (r: Admission<(string, string, int)>)
    ensures r.Refused? ==> r.status == 400 || r.status == 500
    ensures !SignedIn(session) ==> r == Refused(InternalError)
    ensures r.Admitted? <==>
              Caller(RequireRole(session, BookingRoles), true).Admitted? && ValidBooking(input) &&
              PatientById(patients, input.patientId.value).Some? &&
              ResolveDoctor(doctors, input.doctorId.value).Some? && date.Some?
    ensures r.Admitted? ==>
              r.value == (RequireRole(session, BookingRoles).user.clinicId,
                          ResolveDoctor(doctors, input.doctorId.value).value, date.value)
    ensures Caller(RequireRole(session, BookingRoles), true).Admitted? && ValidBooking(input) ==>
              (PatientById(patients, input.patientId.value).None? ==> r == Refused(400)) &&
              ((PatientById(patients, input.patientId.value).Some? &&
                ResolveDoctor(doctors, input.doctorId.value).None?) ==> r == Refused(400))
  {
    match Caller(RequireRole(session, BookingRoles), true)
    case Refused(status) => Refused(status)
    case Admitted(u) =>
      if !ValidBooking(input) then Refused(400)
      else if PatientById(patients, input.patientId.value).None? then Refused(400)
      else
        match ResolveDoctor(doctors, input.doctorId.value)
        case None => Refused(400)
        case Some(doctorId) =>
          match date
          case None => Refused(InternalError)
          case Some(d) => Admitted((u.clinicId, doctorId, d))
  }

  // ---------------------------------------------------------------------
  // POST /api/consultations

  /** Recording a consultation: the role guard, the schema, the appointment
      in the caller's clinic (404), and no consultation yet for it in that
      clinic (400). */
  function AdmitConsultation(session: Option<Session>, appointments: seq<Appointment>,
                             consultations: seq<Consultation>, input: CreateInput)
    : (r: Admission<(string, Appointment)>)
    ensures r.Refused? ==> r.status == 400 || r.status == 404 || r.status == 500
    ensures r.Admitted? <==>
              Caller(RequireRole(session, ClinicalRoles), true).Admitted? && ValidCreate(input) &&
              var clinicId := RequireRole(session, ClinicalRoles).user.clinicId;
              AppointmentInClinic(appointments, input.appointmentId.value, clinicId).Some? &&
              ConsultationFor(consultations, input.appointmentId.value, clinicId).None?
    ensures r.Admitted? ==>
              var clinicId := RequireRole(session, ClinicalRoles).user.clinicId;
              r.value == (clinicId, AppointmentInClinic(appointments, input.appointmentId.value, clinicId).value)
    ensures Caller(RequireRole(session, ClinicalRoles), true).Admitted? && ValidCreate(input) ==>
              var clinicId := RequireRole(session, ClinicalRoles).user.clinicId;
              (AppointmentInClinic(appointments, input.appointmentId.value, clinicId).None? ==> r == Refused(404)) &&
              ((AppointmentInClinic(appointments, input.appointmentId.value, clinicId).Some? &&
                ConsultationFor(consultations, input.appointmentId.value, clinicId).Some?) ==> r == Refused(400))
  {
    match Caller(RequireRole(session, ClinicalRoles), true)
    case Refused(status) => Refused(status)
    case Admitted(u) =>
      if !ValidCreate(input) then Refused(400)
      else
        match AppointmentInClinic(appointments, input.appointmentId.value, u.clinicId)
        case None => Refused(404)
        case Some(a) =>
          if ConsultationFor(consultations, input.appointmentId.value, u.clinicId).Some? then Refused(400)
          else Admitted((u.clinicId, a))
  }

  // ---------------------------------------------------------------------
  // POST /api/prescriptions

  datatype PrescriptionInput = PrescriptionInput(
    consultationId: Option<string>, patientId: Option<string>, medications: seq<Medication>,
    instructions: Option<string>, doctorId: Option<string>)

  /** The schema: both ids, and at least one medication. */
  predicate ValidPrescription(p: PrescriptionInput) {
    p.consultationId.Some? && p.patientId.Some? && |p.medications| >= 1
  }

  /** The prescribing doctor: the given id when it is non-empty, else the
      doctor whose user is the caller. */
  function Prescriber(doctors: seq<Doctor>, given: Option<string>, userId: string): (r: Option<string>)
    ensures Truthy(given) ==> r == given
    ensures !Truthy(given) ==> (r.Some? <==> DoctorByUser(doctors, userId).Some?)
    ensures !Truthy(given) && r.Some? ==> r.value == DoctorByUser(doctors, userId).value.id
  {
    if Truthy(given) then given
    else
      match DoctorByUser(doctors, userId)
      case None => None
      case Some(d) => Some(d.id)
  }

  /** Prescribing: the role guard (outside the `try`, so 401 or 403 come
      through), the schema, and a prescribing doctor. */
  function AdmitPrescription(session: Option<Session>, doctors: seq<Doctor>, input: PrescriptionInput)
    : (r: Admission<(string, string)>)
    ensures RequireRole(session, ClinicalRoles).Denied? ==> r == Refused(RequireRole(session, ClinicalRoles).status)
    ensures r.Refused? ==> r.status in {400, 401, 403, 500}
    ensures r.Admitted? <==>
              Caller(RequireRole(session, ClinicalRoles), false).Admitted? && ValidPrescription(input) &&
              Prescriber(doctors, input.doctorId, RequireRole(session, ClinicalRoles).user.id).Some?
    ensures r.Admitted? ==>
              var u := RequireRole(session, ClinicalRoles).user;
              r.value == (u.clinicId, Prescriber(doctors, input.doctorId, u.id).value)
  {
    match Caller(RequireRole(session, ClinicalRoles), false)
    case Refused(status) => Refused(status)
    case Admitted(u) =>
      if !ValidPrescription(input) then Refused(400)
      else
        match Prescriber(doctors, input.doctorId, u.id)
        case None => Refused(400)
        case Some(doctorId) => Admitted((u.clinicId, doctorId))
  }

  // ---------------------------------------------------------------------
  // POST /api/invoices

  /** Invoicing: the role guard (outside the `try`) and the schema. */
  function AdmitInvoice(session: Option<Session>, input: InvoiceInput): (r: Admission<string>)
    ensures RequireRole(session, BillingRoles).Denied? ==> r == Refused(RequireRole(session, BillingRoles).status)
    ensures r.Refused? ==> r.status in {400, 401, 403, 500}
    ensures r.Admitted? <==> Caller(RequireRole(session, BillingRoles), false).Admitted? && ValidInvoice(input)
    ensures r.Admitted? ==> r.value == RequireRole(session, BillingRoles).user.clinicId
  {
    match Caller(RequireRole(session, BillingRoles), false)
    case Refused(status) => Refused(status)
    case Admitted(u) => if ValidInvoice(input) then Admitted(u.clinicId) else Refused(400)
  }

  // ---------------------------------------------------------------------
  // POST /api/payments

  /** Checkout: any signed-in caller (401 comes through), an invoice id
      (400), and an invoice with that id in the caller's clinic (404). The
      invoice's status is not looked at. */
  function AdmitPayment(session: Option<Session>, invoices: seq<Invoice>, invoiceId: Option<string>)
    : (r: Admission<(string, Invoice)>)
    ensures !SignedIn(session) ==> r == Refused(Unauthorized)
    ensures r.Refused? ==> r.status in {400, 401, 404, 500}
    ensures Caller(RequireAuth(session), false).Admitted? && !Truthy(invoiceId) ==> r == Refused(400)
    ensures r.Admitted? <==>
              Caller(RequireAuth(session), false).Admitted? && Truthy(invoiceId) &&
              InvoiceById(invoices, invoiceId.value).Some? &&
              InvoiceById(invoices, invoiceId.value).value.clinicId == RequireAuth(session).user.clinicId
    ensures r.Admitted? ==> r.value == (RequireAuth(session).user.clinicId, InvoiceById(invoices, invoiceId.value).value)
  {
    match Caller(RequireAuth(session), false)
    case Refused(status) => Refused(status)
    case Admitted(u) =>
      if !Truthy(invoiceId) then Refused(400)
      else
        match InvoiceById(invoices, invoiceId.value)
        case None => Refused(404)
        case Some(inv) => if inv.clinicId != u.clinicId then Refused(404) else Admitted((u.clinicId, inv))
  }

  /** A paid invoice is no obstacle: any signed-in caller of its clinic can
      start another payment for it. */
  lemma PaidInvoiceStillChargeable(session: Option<Session>, inv: Invoice)
    requires SignedIn(session) && session.value.user.value.clinicId == inv.clinicId && inv.clinicId != ""
    requires inv.status == Paid && inv.id != ""
    ensures AdmitPayment(session, [inv], Some(inv.id)) == Admitted((inv.clinicId, inv))
  {
  }

  // ---------------------------------------------------------------------
  // POST /api/payments/confirm

  /** Confirming: a signed-in caller (inside the `try`), an intent id (400),
      a payment with that intent in the caller's clinic (404), and its
      invoice, without which the invoice update throws and the transaction
      is rolled back (500). */
  function AdmitConfirm(session: Option<Session>, payments: seq<Payment>, invoices: seq<Invoice>,
                        intentId: Option<string>)
    : (r: Admission<Payment>)
    ensures r.Refused? ==> r.status in {400, 404, 500}
    ensures Caller(RequireAuth(session), true).Admitted? && !Truthy(intentId) ==> r == Refused(400)
    ensures Caller(RequireAuth(session), true).Admitted? && Truthy(intentId) &&
            PaymentByIntentInClinic(payments, intentId.value, RequireAuth(session).user.clinicId).None? ==>
              r == Refused(404)
    ensures r.Admitted? <==>
              Caller(RequireAuth(session), true).Admitted? && Truthy(intentId) &&
              var p := PaymentByIntentInClinic(payments, intentId.value, RequireAuth(session).user.clinicId);
              p.Some? && InvoiceById(invoices, p.value.invoiceId).Some?
    ensures r.Admitted? ==>
              r.value == PaymentByIntentInClinic(payments, intentId.value, RequireAuth(session).user.clinicId).value
  {
    match Caller(RequireAuth(session), true)
    case Refused(status) => Refused(status)
    case Admitted(u) =>
      if !Truthy(intentId) then Refused(400)
      else
        match PaymentByIntentInClinic(payments, intentId.value, u.clinicId)
        case None => Refused(404)
        case Some(p) => if InvoiceById(invoices, p.invoiceId).None? then Refused(InternalError) else Admitted(p)
  }

  // ---------------------------------------------------------------------
  // POST /api/patients

  /** Adding a patient: the role guard, the schema, and an email no user of
      any clinic has. */
  function AdmitPatient(session: Option<Session>, users: seq<User>, input: PatientInput, emailAccepted: bool)
    : (r: Admission<string>)
    ensures r.Refused? ==> r.status == 400 || r.status == 500
    ensures r.Admitted? <==>
              Caller(RequireRole(session, PatientRoles), true).Admitted? && PatientValid(input, emailAccepted) &&
              UserByEmail(users, input.email.value).None?
    ensures r.Admitted? ==> r.value == RequireRole(session, PatientRoles).user.clinicId
    ensures (Caller(RequireRole(session, PatientRoles), true).Admitted? && PatientValid(input, emailAccepted) &&
             UserByEmail(users, input.email.value).Some?) ==> r == Refused(400)
  {
    match Caller(RequireRole(session, PatientRoles), true)
    case Refused(status) => Refused(status)
    case Admitted(u) =>
      if !PatientValid(input, emailAccepted) then Refused(400)
      else if UserByEmail(users, input.email.value).Some? then Refused(400)
      else Admitted(u.clinicId)
  }

  // ---------------------------------------------------------------------
  // POST /api/auth/register

  /** Signing up: every required field, and an email no user has. */
  function AdmitRegistration(users: seq<User>, input: RegisterInput): (r: Admission<string>)
    ensures r.Refused? ==> r.status == 400
    ensures r.Admitted? <==> RegisterComplete(input) && UserByEmail(users, input.email.value).None?
    ensures r.Admitted? ==> r.value == input.email.value
  {
    if !RegisterComplete(input) then Refused(400)
    else if UserByEmail(users, input.email.value).Some? then Refused(400)
    else Admitted(input.email.value)
  }

  // ---------------------------------------------------------------------
  // POST /api/staff and POST /api/auth/invite

  /** Inviting staff through the staff form: the admin guard, the form
      checks (400), the caller's clinic (the scoped client throws without
      one), and no user with that email in the caller's clinic (409). */
  function AdmitStaff(session: Option<Session>, users: seq<User>, email: Option<string>, role: Option<string>)
    : (r: Admission<SessionUser>)
    ensures r.Refused? ==> r.status in {400, 409, 500}
    ensures RequireRole(session, AdminRoles).Denied? ==> r == Refused(InternalError)
    ensures RequireRole(session, AdminRoles).Granted? && StaffFormIssue(email, role).Some? ==> r == Refused(400)
    ensures r.Admitted? <==>
              RequireRole(session, AdminRoles).Granted? && StaffFormIssue(email, role).None? &&
              RequireRole(session, AdminRoles).user.clinicId != "" &&
              UserInClinic(users, email.value, RequireRole(session, AdminRoles).user.clinicId).None?
    ensures r.Refused? && r.status == 409 <==>
              RequireRole(session, AdminRoles).Granted? && StaffFormIssue(email, role).None? &&
              RequireRole(session, AdminRoles).user.clinicId != "" &&
              UserInClinic(users, email.value, RequireRole(session, AdminRoles).user.clinicId).Some?
    ensures r.Admitted? ==> r.value == RequireRole(session, AdminRoles).user
  {
    match RequireRole(session, AdminRoles)
    case Denied(_) => Refused(InternalError)
    case Granted(u) =>
      match StaffFormIssue(email, role)
      case Some(status) => Refused(status)
      case None =>
        if u.clinicId == "" then Refused(InternalError)
        else if UserInClinic(users, email.value, u.clinicId).Some? then Refused(409)
        else Admitted(u)
  }

  /** Issuing an invite: the admin guard and both fields present. The role
      is taken as it comes; no clinic is needed. */
  function AdmitInvite(session: Option<Session>, email: Option<string>, role: Option<string>)
    : (r: Admission<SessionUser>)
    ensures r.Refused? ==> (r.status == 500 <==> RequireRole(session, AdminRoles).Denied?)
    ensures r.Refused? ==> r.status == 400 || r.status == 500
    ensures r.Admitted? <==> RequireRole(session, AdminRoles).Granted? && Truthy(email) && Truthy(role)
    ensures r.Admitted? ==> r.value == RequireRole(session, AdminRoles).user
  {
    match RequireRole(session, AdminRoles)
    case Denied(_) => Refused(InternalError)
    case Granted(u) => if !Truthy(email) || !Truthy(role) then Refused(400) else Admitted(u)
  }

  /** A request the staff form lets through is one the invite route
      accepts too, for the same admin. */
  lemma StaffPassesInvite(session: Option<Session>, users: seq<User>, email: Option<string>, role: Option<string>)
    requires AdmitStaff(session, users, email, role).Admitted?
    ensures AdmitInvite(session, email, role) == Admitted(AdmitStaff(session, users, email, role).value)
  {
    var u := RequireRole(session, AdminRoles).user;
    assert StaffFormIssue(email, role).None?;
  }

  const InviteSubject := "You were invited to MedFlow"
  const ResetSubject := "Reset your MedFlow password"

  /** The invite email: the accept link built from the application URL
      (empty when unset), the caller's clinic id in place of the clinic
      name, and the caller's email (else id) as the inviter. */
  function InviteMail(u: SessionUser, appUrl: Option<string>, token: string): (r: string)
    ensures Contains(r, Href(Link(OrElse(appUrl, ""), InvitePath, token)))
    ensures Contains(r, InviteLead(Some(OrElse(u.email, u.id))))
  {
    InviteTemplate(Link(OrElse(appUrl, ""), InvitePath, token), Some(u.clinicId), Some(OrElse(u.email, u.id)))
  }

  /** The reset email: the accept link and the one-hour notice. */
  function ResetMail(appUrl: Option<string>, token: string): (r: string)
    ensures Contains(r, Href(Link(OrElse(appUrl, ""), ResetPath, token)))
    ensures Contains(r, ExpiryNotice)
  {
    ResetPasswordTemplate(Link(OrElse(appUrl, ""), ResetPath, token))
  }

  /** Whether the invite a request names is for an email some user already
      has: the user insert then breaks the unique email column. */
  function EmailTaken(users: seq<User>, invites: seq<InviteToken>, req: AcceptRequest): (r: bool)
    ensures r <==> Truthy(req.token) && InviteByToken(invites, req.token.value).Some? &&
                   UserByEmail(users, InviteByToken(invites, req.token.value).value.email).Some?
  {
    Truthy(req.token) &&
    match InviteByToken(invites, req.token.value)
    case None => false
    case Some(invite) => UserByEmail(users, invite.email).Some?
  }

  // ---------------------------------------------------------------------
  // PUT /api/settings/profile

  /** Updating one's profile: a signed-in caller with a clinic, both names,
      the password-field rule, and the caller's user row (404 when looked up
      for the password fields, 500 when the update itself misses it). What
      goes on is the user id. */
  function AdmitProfile(session: Option<Session>, users: seq<User>, input: ProfileInput): (r: Admission<string>)
    ensures r.Refused? ==> r.status in {400, 404, 500}
    ensures (Caller(RequireAuth(session), true).Admitted? && ProfileValid(input) &&
             PasswordRule(input.currentPassword, input.newPassword) == RefusePasswords) ==> r == Refused(400)
    ensures (Caller(RequireAuth(session), true).Admitted? && ProfileValid(input) &&
             PasswordRule(input.currentPassword, input.newPassword) == LookUpUser &&
             UserById(users, RequireAuth(session).user.id).None?) ==> r == Refused(404)
    ensures r.Admitted? <==>
              Caller(RequireAuth(session), true).Admitted? && ProfileValid(input) &&
              PasswordRule(input.currentPassword, input.newPassword) != RefusePasswords &&
              UserById(users, RequireAuth(session).user.id).Some?
    ensures r.Admitted? ==> r.value == RequireAuth(session).user.id
  {
    match Caller(RequireAuth(session), true)
    case Refused(status) => Refused(status)
    case Admitted(u) =>
      if !ProfileValid(input) then Refused(400)
      else
        match PasswordRule(input.currentPassword, input.newPassword)
        case RefusePasswords => Refused(400)
        case LookUpUser => if UserById(users, u.id).None? then Refused(404) else Admitted(u.id)
        case SkipPasswords => if UserById(users, u.id).None? then Refused(InternalError) else Admitted(u.id)
  }
}
