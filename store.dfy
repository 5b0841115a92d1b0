/** The clinic database as the route handlers change it: one table per
    model, plus the emails handed to the mail service. Each handler method
    answers with the status of its response and changes only the tables it
    writes. The class invariant gathers what the handlers' checks keep
    true of the tables. */
module Store {
  import opened Text
  import opened Records
  import opened Access
  import opened Mail
  import opened Tokens
  import opened Appointments
  import opened Consultations
  import opened Billing
  import opened Accounts
  import opened PrescriptionPdf
  import opened Routes

  /** What the handlers' checks keep true of the tables: no doctor is
      double-booked, no appointment has two consultations in its clinic,
      invoices are numbered in order per clinic, and no two users share an
      email. */
  ghost predicate Invariant(appointments: seq<Appointment>, consultations: seq<Consultation>,
                            invoices: seq<Invoice>, users: seq<User>) {
    NoDoctorOverlap(appointments) && OneConsultationPerAppointment(consultations) &&
    NumberedInOrder(invoices) && UniqueEmails(users)
  }

  class ClinicStore {
    var users: seq<User>
    var clinics: seq<Clinic>
    var patients: seq<Patient>
    var doctors: seq<Doctor>
    var appointments: seq<Appointment>
    var consultations: seq<Consultation>
    var prescriptions: seq<Prescription>
    var invoices: seq<Invoice>
    var payments: seq<Payment>
    var invites: seq<InviteToken>
    var resets: seq<ResetToken>
    /** The messages the mail service accepted, oldest first. */
    var outbox: seq<Message>

    /** The invariant holds of the current tables. */
    ghost predicate Valid()
      reads this
    {
      Invariant(appointments, consultations, invoices, users)
    }

    /** A database holding the given people and nothing else. */
    constructor (users: seq<User>, clinics: seq<Clinic>, patients: seq<Patient>, doctors: seq<Doctor>)
      requires UniqueEmails(users)
      ensures Valid()
      ensures this.users == users && this.clinics == clinics
      ensures this.patients == patients && this.doctors == doctors
      ensures appointments == [] && consultations == [] && prescriptions == []
      ensures invoices == [] && payments == [] && invites == [] && resets == [] && outbox == []
    {
      this.users := users;
      this.clinics := clinics;
      this.patients := patients;
      this.doctors := doctors;
      appointments := [];
      consultations := [];
      prescriptions := [];
      invoices := [];
      payments := [];
      invites := [];
      resets := [];
      outbox := [];
    }

    // -------------------------------------------------------------------
    // Appointments

    /** POST /api/appointments. `date` is the parsed appointment date (none
        when it does not parse). Once admitted, the conflict query decides:
        any overlapping appointment of the doctor that day is 409, else the
        appointment is stored and the answer is 201. */
    method BookAppointment(session: Option<Session>, input: BookingInput, date: Option<int>, newId: string)
      returns (status: int)
      requires Valid()
      modifies this`appointments
      ensures Valid()
      ensures AdmitBooking(session, patients, doctors, input, date).Refused? ==>
                status == AdmitBooking(session, patients, doctors, input, date).status &&
                appointments == old(appointments)
      ensures AdmitBooking(session, patients, doctors, input, date).Admitted? ==>
                var (clinicId, doctorId, d) := AdmitBooking(session, patients, doctors, input, date).value;
                if Clashing(old(appointments), doctorId, d, input.startTime.value, input.endTime.value) != []
                then status == 409 && appointments == old(appointments)
                else status == 201 &&
                     appointments == old(appointments) + [NewAppointment(newId, clinicId, input, doctorId, d)]
    {
      match AdmitBooking(session, patients, doctors, input, date)
      case Refused(s) =>
        status := s;
      case Admitted((clinicId, doctorId, d)) =>
        if Clashing(appointments, doctorId, d, input.startTime.value, input.endTime.value) != [] {
          status := 409;
        } else {
          var a := NewAppointment(newId, clinicId, input, doctorId, d);
          InsertKeepsNoOverlap(appointments, a);
          appointments := appointments + [a];
          status := 201;
        }
    }

    /** GET /api/appointments: the caller's clinic's appointments. */
    method ListAppointments(session: Option<Session>) returns (status: int, rows: seq<Appointment>)
      ensures Caller(RequireAuth(session), true).Refused? ==> status == 500 && rows == []
      ensures Caller(RequireAuth(session), true).Admitted? ==>
                status == 200 &&
                forall a :: a in rows <==> a in appointments && a.clinicId == RequireAuth(session).user.clinicId
    {
      match Caller(RequireAuth(session), true)
      case Refused(_) =>
        status, rows := 500, [];
      case Admitted(u) =>
        status := 200;
        rows := Filtered(appointments, (a: Appointment) => a.clinicId == u.clinicId);
    }

    // -------------------------------------------------------------------
    // Consultations

    /** POST /api/consultations: the consultation of an appointment of the
        caller's clinic that has none yet, dated at the appointment's start
        time. */
    method CreateConsultation(session: Option<Session>, input: CreateInput, newId: string)
      returns (status: int, created: Option<Consultation>)
      requires Valid()
      modifies this`consultations
      ensures Valid()
      ensures AdmitConsultation(session, appointments, old(consultations), input).Refused? ==>
                status == AdmitConsultation(session, appointments, old(consultations), input).status &&
                consultations == old(consultations) && created.None?
      ensures AdmitConsultation(session, appointments, old(consultations), input).Admitted? ==>
                var (clinicId, appt) := AdmitConsultation(session, appointments, old(consultations), input).value;
                var c := NewConsultation(newId, clinicId, appt, input);
                status == 201 && consultations == old(consultations) + [c] &&
                created == Some(c.(status := ReturnedStatus(c.status)))
    {
      match AdmitConsultation(session, appointments, consultations, input)
      case Refused(s) =>
        status, created := s, None;
      case Admitted((clinicId, appt)) =>
        var c := NewConsultation(newId, clinicId, appt, input);
        AddKeepsOnePerAppointment(consultations, c);
        consultations := consultations + [c];
        status, created := 201, Some(c.(status := ReturnedStatus(c.status)));
    }

    /** GET /api/consultations: the consultations of the caller's clinic
        matching the query, statuses in lower case. A status filter outside
        the enum makes the query throw, which the handler answers with 500. */
    method ListConsultations(session: Option<Session>, patientId: Option<string>, doctorId: Option<string>,
                             statusFilter: Option<string>)
      returns (status: int, rows: seq<Consultation>)
      ensures Caller(RequireAuth(session), true).Refused? ==> status == 500 && rows == []
      ensures Caller(RequireAuth(session), true).Admitted? && !StatusFilterValid(statusFilter) ==>
                status == 500 && rows == []
      ensures Caller(RequireAuth(session), true).Admitted? && StatusFilterValid(statusFilter) ==>
                var clinicId := RequireAuth(session).user.clinicId;
                status == 200 &&
                rows == Presented(Filtered(consultations, (c: Consultation) => Listed(c, clinicId, patientId, doctorId, statusFilter)))
    {
      match Caller(RequireAuth(session), true)
      case Refused(_) =>
        status, rows := 500, [];
      case Admitted(u) =>
        if !StatusFilterValid(statusFilter) {
          status, rows := 500, [];
          return;
        }
        status := 200;
        rows := Presented(Filtered(consultations, (c: Consultation) => Listed(c, u.clinicId, patientId, doctorId, statusFilter)));
    }

    // -------------------------------------------------------------------
    // Prescriptions

    /** POST /api/prescriptions. The row is stored without a PDF; the page
        is drawn, and when the upload (`uploaded`, under `key`) succeeds the
        row gets the key. Either way the answer is 201. */
    method CreatePrescription(session: Option<Session>, input: PrescriptionInput, newId: string,
                              uploaded: bool, key: string)
      returns (status: int, page: seq<Line>)
      modifies this`prescriptions
      ensures AdmitPrescription(session, doctors, input).Refused? ==>
                status == AdmitPrescription(session, doctors, input).status &&
                prescriptions == old(prescriptions) && page == []
      ensures AdmitPrescription(session, doctors, input).Admitted? ==>
                var (clinicId, doctorId) := AdmitPrescription(session, doctors, input).value;
                status == 201 &&
                prescriptions == old(prescriptions) +
                  [Prescription(newId, clinicId, input.consultationId.value, input.patientId.value, doctorId,
                                input.medications, input.instructions, if uploaded then Some(key) else None)] &&
                page == Layout(newId, input.patientId.value, input.consultationId.value, input.medications, input.instructions)
    {
      match AdmitPrescription(session, doctors, input)
      case Refused(s) =>
        status, page := s, [];
      case Admitted((clinicId, doctorId)) =>
        var p := Prescription(newId, clinicId, input.consultationId.value, input.patientId.value, doctorId,
                              input.medications, input.instructions, None);
        prescriptions := prescriptions + [p];
        page := DrawPrescription(newId, input.patientId.value, input.consultationId.value, input.medications, input.instructions);
        if uploaded {
          prescriptions := prescriptions[|prescriptions| - 1 := p.(pdfUrl := Some(key))];
        }
        status := 201;
    }

    /** GET /api/prescriptions: the caller's clinic's prescriptions, narrowed
        to a patient and a doctor when those are given. */
    method ListPrescriptions(session: Option<Session>, patientId: Option<string>, doctorId: Option<string>)
      returns (status: int, rows: seq<Prescription>)
      ensures Caller(RequireAuth(session), false).Refused? ==>
                status == Caller(RequireAuth(session), false).status && rows == []
      ensures Caller(RequireAuth(session), false).Admitted? ==>
                var clinicId := RequireAuth(session).user.clinicId;
                status == 200 &&
                forall p :: p in rows <==>
                  p in prescriptions && p.clinicId == clinicId &&
                  (Truthy(patientId) ==> p.patientId == patientId.value) &&
                  (Truthy(doctorId) ==> p.doctorId == doctorId.value)
    {
      match Caller(RequireAuth(session), false)
      case Refused(s) =>
        status, rows := s, [];
      case Admitted(u) =>
        status := 200;
        rows := Filtered(prescriptions, (p: Prescription) =>
                  p.clinicId == u.clinicId &&
                  (Truthy(patientId) ==> p.patientId == patientId.value) &&
                  (Truthy(doctorId) ==> p.doctorId == doctorId.value));
    }

    // -------------------------------------------------------------------
    // Invoices and payments

    /** POST /api/invoices: the next number of the caller's clinic, the
        totals computed from the items. */
    method CreateInvoice(session: Option<Session>, input: InvoiceInput, newId: string)
      returns (status: int)
      requires Valid()
      modifies this`invoices
      ensures Valid()
      ensures (status, invoices) == InvoiceCreation(session, input, newId, old(invoices))
    {
      var outcome := InvoiceCreation(session, input, newId, invoices);
      assert Invariant(appointments, consultations, outcome.1, users);
      status, invoices := outcome.0, outcome.1;
    }

    /** GET /api/invoices: the caller's clinic's invoices. */
    method ListInvoices(session: Option<Session>) returns (status: int, rows: seq<Invoice>)
      ensures Caller(RequireAuth(session), false).Refused? ==>
                status == Caller(RequireAuth(session), false).status && rows == []
      ensures Caller(RequireAuth(session), false).Admitted? ==>
                status == 200 &&
                forall v :: v in rows <==> v in invoices && v.clinicId == RequireAuth(session).user.clinicId
    {
      match Caller(RequireAuth(session), false)
      case Refused(s) =>
        status, rows := s, [];
      case Admitted(u) =>
        status := 200;
        rows := Filtered(invoices, (v: Invoice) => v.clinicId == u.clinicId);
    }

    /** POST /api/payments. `intentCreated` and `intentId` are the payment
        provider's answer to the intent for `charged` cents; without an
        intent the answer is 500 and nothing is stored. */
    method CreatePayment(session: Option<Session>, invoiceId: Option<string>, intentCreated: bool,
                         intentId: string, newId: string)
      returns (status: int, charged: int)
      modifies this`payments
      ensures AdmitPayment(session, invoices, invoiceId).Refused? ==>
                status == AdmitPayment(session, invoices, invoiceId).status && payments == old(payments)
      ensures AdmitPayment(session, invoices, invoiceId).Admitted? ==>
                var (clinicId, inv) := AdmitPayment(session, invoices, invoiceId).value;
                charged == inv.total &&
                (!intentCreated ==> status == 500 && payments == old(payments)) &&
                (intentCreated ==> status == 200 && payments == old(payments) + [NewPayment(newId, clinicId, inv, intentId)])
    {
      charged := 0;
      match AdmitPayment(session, invoices, invoiceId)
      case Refused(s) =>
        status := s;
      case Admitted((clinicId, inv)) =>
        charged := ChargeAmount(inv.total);
        if !intentCreated {
          status := 500;
        } else {
          payments := payments + [NewPayment(newId, clinicId, inv, intentId)];
          status := 200;
        }
    }

    /** POST /api/payments/confirm: the payment completed and its invoice
        paid, together or not at all. */
    method ConfirmPayment(session: Option<Session>, intentId: Option<string>) returns (status: int)
      requires Valid()
      modifies this`payments, this`invoices
      ensures Valid()
      ensures (status, payments, invoices) == ConfirmOutcome(session, old(payments), old(invoices), intentId)
    {
      var outcome := ConfirmOutcome(session, payments, invoices, intentId);
      status, payments, invoices := outcome.0, outcome.1, outcome.2;
    }

    /** POST /api/webhooks/stripe. A bad signature is 400. A succeeded
        intent completes its payment and recomputes the invoice; a refund or
        a closed dispute marks the payment refunded; a payment that is not
        found, or any other event, changes nothing. A payment whose clinic
        is empty makes the scoped client throw: 500. */
    method StripeWebhook(signatureOk: bool, event: StripeEvent, now: int) returns (status: int)
      requires Valid()
      modifies this`payments, this`invoices
      ensures Valid()
      ensures !signatureOk ==> status == 400 && payments == old(payments) && invoices == old(invoices)
      ensures signatureOk && event.IntentSucceeded? ==>
                match PaymentByIntent(old(payments), event.intentId)
                case None => status == 200 && payments == old(payments) && invoices == old(invoices)
                case Some(p) =>
                  if p.clinicId == "" then status == 500 && payments == old(payments) && invoices == old(invoices)
                  else status == 200 && (payments, invoices) == Succeeded(old(payments), old(invoices), p, now)
      ensures signatureOk && (event.ChargeRefunded? || event.DisputeClosed?) ==>
                invoices == old(invoices) &&
                if !Truthy(event.chargeIntent) || PaymentByIntent(old(payments), event.chargeIntent.value).None?
                then status == 200 && payments == old(payments)
                else
                  var p := PaymentByIntent(old(payments), event.chargeIntent.value).value;
                  if p.clinicId == "" then status == 500 && payments == old(payments)
                  else status == 200 && payments == WithPaymentStatus(old(payments), p.id, Refunded)
      ensures signatureOk && event.OtherEvent? ==> status == 200 && payments == old(payments) && invoices == old(invoices)
    {
      if !signatureOk {
        return 400;
      }
      match event
      case IntentSucceeded(intentId) =>
        match PaymentByIntent(payments, intentId) {
          case None =>
            status := 200;
          case Some(p) =>
            if p.clinicId == "" {
              status := 500;
            } else {
              var (ps, vs) := Succeeded(payments, invoices, p, now);
              WebhookKeepsNumbering(payments, invoices, p, now);
              payments, invoices := ps, vs;
              status := 200;
            }
        }
      case ChargeRefunded(pi) =>
        status := Refund(pi);
      case DisputeClosed(pi) =>
        status := Refund(pi);
      case OtherEvent(_) =>
        status := 200;
    }

    /** The refund and dispute branch of the webhook. */
    method Refund(pi: Option<string>) returns (status: int)
      modifies this`payments
      ensures if !Truthy(pi) || PaymentByIntent(old(payments), pi.value).None?
              then status == 200 && payments == old(payments)
              else
                var p := PaymentByIntent(old(payments), pi.value).value;
                if p.clinicId == "" then status == 500 && payments == old(payments)
                else status == 200 && payments == WithPaymentStatus(old(payments), p.id, Refunded)
    {
      if !Truthy(pi) {
        return 200;
      }
      match PaymentByIntent(payments, pi.value)
      case None =>
        status := 200;
      case Some(p) =>
        if p.clinicId == "" {
          status := 500;
        } else {
          payments := WithPaymentStatus(payments, p.id, Refunded);
          status := 200;
        }
    }

    // -------------------------------------------------------------------
    // Invites and password resets

    /** POST /api/auth/invite. `bytes` are the random token bytes, `appUrl`,
        `apiKey` and `emailFrom` the environment, `delivered` the mail
        service's answer. The invite is stored before the email is sent, so
        a failed delivery (500) leaves it in place. */
    method Invite(session: Option<Session>, email: Option<string>, role: Option<string>, bytes: seq<Byte>,
                  now: int, newId: string, appUrl: Option<string>, apiKey: Option<string>,
                  emailFrom: Option<string>, delivered: bool)
      returns (status: int)
      modifies this`invites, this`outbox
      ensures AdmitInvite(session, email, role).Refused? ==>
                status == AdmitInvite(session, email, role).status &&
                invites == old(invites) && outbox == old(outbox)
      ensures AdmitInvite(session, email, role).Admitted? ==>
                var u := AdmitInvite(session, email, role).value;
                var sent := SendEmail(apiKey, emailFrom, delivered, email.value, InviteSubject,
                                      InviteMail(u, appUrl, Hex(bytes)), None);
                invites == old(invites) + [NewInvite(newId, bytes, email.value, role.value, u.clinicId, u.id, now)] &&
                (sent.SendFailed? ==> status == 500 && outbox == old(outbox)) &&
                (sent.Sent? ==> status == 200 && outbox == old(outbox) + [sent.msg]) &&
                (sent.NotConfigured? ==> status == 200 && outbox == old(outbox))
    {
      match AdmitInvite(session, email, role)
      case Refused(s) =>
        status := s;
      case Admitted(u) =>
        invites := invites + [NewInvite(newId, bytes, email.value, role.value, u.clinicId, u.id, now)];
        match SendEmail(apiKey, emailFrom, delivered, email.value, InviteSubject, InviteMail(u, appUrl, Hex(bytes)), None) {
          case SendFailed(_) =>
            status := 500;
          case Sent(msg) =>
            outbox := outbox + [msg];
            status := 200;
          case NotConfigured =>
            status := 200;
        }
    }

    /** POST /api/staff: the form's checks, then the invite route, reached
        over HTTP with the caller's cookie (`reached` is whether that call
        got an answer). The invite route's status is passed on. */
    method CreateStaff(session: Option<Session>, email: Option<string>, role: Option<string>, reached: bool,
                       bytes: seq<Byte>, now: int, newId: string, appUrl: Option<string>,
                       apiKey: Option<string>, emailFrom: Option<string>, delivered: bool)
      returns (status: int)
      modifies this`invites, this`outbox
      ensures AdmitStaff(session, users, email, role).Refused? ==>
                status == AdmitStaff(session, users, email, role).status &&
                invites == old(invites) && outbox == old(outbox)
      ensures AdmitStaff(session, users, email, role).Admitted? && !reached ==>
                status == 500 && invites == old(invites) && outbox == old(outbox)
      ensures AdmitStaff(session, users, email, role).Admitted? && reached ==>
                var u := AdmitStaff(session, users, email, role).value;
                var sent := SendEmail(apiKey, emailFrom, delivered, email.value, InviteSubject,
                                      InviteMail(u, appUrl, Hex(bytes)), None);
                invites == old(invites) + [NewInvite(newId, bytes, email.value, role.value, u.clinicId, u.id, now)] &&
                (sent.SendFailed? ==> status == 500 && outbox == old(outbox)) &&
                (sent.Sent? ==> status == 200 && outbox == old(outbox) + [sent.msg]) &&
                (sent.NotConfigured? ==> status == 200 && outbox == old(outbox))
    {
      match AdmitStaff(session, users, email, role)
      case Refused(s) =>
        status := s;
      case Admitted(u) =>
        if !reached {
          return 500;
        }
        StaffPassesInvite(session, users, email, role);
        status := Invite(session, email, role, bytes, now, newId, appUrl, apiKey, emailFrom, delivered);
    }

    /** POST /api/auth/invite/accept. `hash` is the password hash and
        `insertRejected` the database refusing the user row for a reason
        other than a taken email. */
    method AcceptInvite(req: AcceptRequest, now: int, hash: string -> string, newUserId: string, insertRejected: bool)
      returns (status: int)
      requires Valid()
      modifies this`users, this`invites
      ensures Valid()
      ensures (status, users, invites) ==
                InviteAcceptance(old(users), old(invites), req, now, hash(OrElse(req.password, "")), newUserId,
                                 insertRejected || EmailTaken(old(users), old(invites), req))
    {
      var result := InviteAcceptance(users, invites, req, now, hash(OrElse(req.password, "")), newUserId,
                                     insertRejected || EmailTaken(users, invites, req));
      if result.0 == 200 {
        AcceptedEmailIsNew(users, invites, req, now, hash(OrElse(req.password, "")), newUserId, insertRejected);
      }
      status, users, invites := result.0, result.1, result.2;
    }

    /** POST /api/auth/password-reset/request: always 200. A token is
        stored for a known email and the link mailed to it. */
    method RequestReset(email: Option<string>, bytes: seq<Byte>, now: int, newId: string, appUrl: Option<string>,
                        apiKey: Option<string>, emailFrom: Option<string>, delivered: bool)
      returns (status: int)
      modifies this`resets, this`outbox
      ensures status == 200
      ensures resets == ResetIssue(users, old(resets), email, bytes, now, newId)
      ensures resets == old(resets) ==> outbox == old(outbox)
      ensures resets != old(resets) ==>
                var sent := SendEmail(apiKey, emailFrom, delivered, email.value, ResetSubject, ResetMail(appUrl, Hex(bytes)), None);
                outbox == old(outbox) + (if sent.Sent? then [sent.msg] else [])
    {
      status := 200;
      var issued := ResetIssue(users, resets, email, bytes, now, newId);
      if issued == resets {
        return;
      }
      resets := issued;
      var sent := SendEmail(apiKey, emailFrom, delivered, email.value, ResetSubject, ResetMail(appUrl, Hex(bytes)), None);
      if sent.Sent? {
        outbox := outbox + [sent.msg];
      }
    }

    /** POST /api/auth/password-reset/accept and .../confirm, which behave
        the same. */
    method RedeemReset(token: Option<string>, password: Option<string>, now: int, hash: string -> string)
      returns (status: int)
      requires Valid()
      modifies this`users, this`resets
      ensures Valid()
      ensures (status, users, resets) ==
                ResetConsumption(old(users), old(resets), token, password, now, hash(OrElse(password, "")))
    {
      var result := ResetConsumption(users, resets, token, password, now, hash(OrElse(password, "")));
      if result.0 == 200 {
        SameEmailsKeepUnique(users, result.1);
      }
      status, users, resets := result.0, result.1, result.2;
    }

    // -------------------------------------------------------------------
    // Accounts

    /** POST /api/patients: a PATIENT user in the caller's clinic with the
        given or the default password, and its patient row, inserted in one
        transaction. `birthDate` is the parsed date of birth, none when it
        does not parse. When the patient row cannot be stored, the user
        insert is rolled back too and the answer is 500. */
    method CreatePatient(session: Option<Session>, input: PatientInput, emailAccepted: bool, birthDate: Option<int>,
                         hash: string -> string, newUserId: string, newPatientId: string)
      returns (status: int)
      requires Valid()
      modifies this`users, this`patients
      ensures Valid()
      ensures AdmitPatient(session, old(users), input, emailAccepted).Refused? ==>
                status == AdmitPatient(session, old(users), input, emailAccepted).status &&
                users == old(users) && patients == old(patients)
      ensures AdmitPatient(session, old(users), input, emailAccepted).Admitted? && !ProfileStorable(input, birthDate) ==>
                status == 500 && users == old(users) && patients == old(patients)
      ensures AdmitPatient(session, old(users), input, emailAccepted).Admitted? && ProfileStorable(input, birthDate) ==>
                var clinicId := AdmitPatient(session, old(users), input, emailAccepted).value;
                status == 201 &&
                users == old(users) + [PatientUser(newUserId, input, hash(PatientPassword(input)), clinicId)] &&
                patients == old(patients) + [PatientRecord(newPatientId, newUserId, clinicId, input, birthDate)]
    {
      match AdmitPatient(session, users, input, emailAccepted)
      case Refused(s) =>
        status := s;
      case Admitted(clinicId) =>
        if !ProfileStorable(input, birthDate) {
          status := 500;
          return;
        }
        var u := PatientUser(newUserId, input, hash(PatientPassword(input)), clinicId);
        AddUserKeepsUnique(users, u);
        users := users + [u];
        patients := patients + [PatientRecord(newPatientId, newUserId, clinicId, input, birthDate)];
        status := 201;
    }

    /** GET /api/patients: the caller's clinic's patients. */
    method ListPatients(session: Option<Session>) returns (status: int, rows: seq<Patient>)
      ensures Caller(RequireAuth(session), true).Refused? ==> status == 500 && rows == []
      ensures Caller(RequireAuth(session), true).Admitted? ==>
                status == 200 &&
                forall p :: p in rows <==> p in patients && p.clinicId == RequireAuth(session).user.clinicId
    {
      match Caller(RequireAuth(session), true)
      case Refused(_) =>
        status, rows := 500, [];
      case Admitted(u) =>
        status := 200;
        rows := Filtered(patients, (p: Patient) => p.clinicId == u.clinicId);
    }

    /** POST /api/auth/register: a new clinic and its first administrator,
        together. */
    method Register(input: RegisterInput, hash: string -> string, newClinicId: string, newUserId: string)
      returns (status: int)
      requires Valid()
      modifies this`users, this`clinics
      ensures Valid()
      ensures AdmitRegistration(old(users), input).Refused? ==>
                status == 400 && users == old(users) && clinics == old(clinics)
      ensures AdmitRegistration(old(users), input).Admitted? ==>
                status == 201 &&
                clinics == old(clinics) + [RegisteredClinic(newClinicId, input)] &&
                users == old(users) + [RegisteredAdmin(newUserId, input, hash(input.password.value), newClinicId)]
    {
      match AdmitRegistration(users, input)
      case Refused(s) =>
        status := s;
      case Admitted(_) =>
        var admin := RegisteredAdmin(newUserId, input, hash(input.password.value), newClinicId);
        AddUserKeepsUnique(users, admin);
        clinics := clinics + [RegisteredClinic(newClinicId, input)];
        users := users + [admin];
        status := 201;
    }

    /** GET /api/staff: the users of the caller's clinic; any failure is
        answered 403. */
    method ListStaff(session: Option<Session>) returns (status: int, rows: seq<User>)
      ensures RequireRole(session, AdminRoles).Denied? || RequireRole(session, AdminRoles).user.clinicId == "" ==>
                status == 403 && rows == []
      ensures RequireRole(session, AdminRoles).Granted? && RequireRole(session, AdminRoles).user.clinicId != "" ==>
                status == 200 &&
                forall u :: u in rows <==> u in users && u.clinicId == RequireRole(session, AdminRoles).user.clinicId
    {
      match Caller(RequireRole(session, AdminRoles), true)
      case Refused(_) =>
        status, rows := 403, [];
      case Admitted(u) =>
        status := 200;
        rows := Filtered(users, (x: User) => x.clinicId == u.clinicId);
    }

    /** GET /api/settings/profile: the caller's own user row. */
    method GetProfile(session: Option<Session>) returns (status: int, profile: Option<User>)
      ensures Caller(RequireAuth(session), true).Refused? ==> status == 500 && profile.None?
      ensures Caller(RequireAuth(session), true).Admitted? ==>
                profile == UserById(users, RequireAuth(session).user.id) &&
                status == (if profile.None? then 404 else 200)
    {
      match Caller(RequireAuth(session), true)
      case Refused(_) =>
        status, profile := 500, None;
      case Admitted(u) =>
        profile := UserById(users, u.id);
        status := if profile.None? then 404 else 200;
    }

    /** PUT /api/settings/profile: the caller's names and phone. The
        password fields are checked but never stored. */
    method UpdateProfile(session: Option<Session>, input: ProfileInput) returns (status: int)
      requires Valid()
      modifies this`users
      ensures Valid()
      ensures AdmitProfile(session, old(users), input).Refused? ==>
                status == AdmitProfile(session, old(users), input).status && users == old(users)
      ensures AdmitProfile(session, old(users), input).Admitted? ==>
                status == 200 &&
                users == WithProfile(old(users), AdmitProfile(session, old(users), input).value,
                                     input.firstName.value, input.lastName.value, input.phone)
      ensures forall i :: 0 <= i < |users| ==> users[i].password == old(users)[i].password
    {
      match AdmitProfile(session, users, input)
      case Refused(s) =>
        status := s;
      case Admitted(id) =>
        var updated := WithProfile(users, id, input.firstName.value, input.lastName.value, input.phone);
        SameEmailsKeepUnique(users, updated);
        users := updated;
        status := 200;
    }
  }

  /** A `succeeded` event changes payment statuses and invoice statuses
      only, so invoices stay numbered in order. */
  lemma WebhookKeepsNumbering(payments: seq<Payment>, invoices: seq<Invoice>, p: Payment, now: int)
    requires NumberedInOrder(invoices)
    ensures NumberedInOrder(Succeeded(payments, invoices, p, now).1)
  {
    match InvoiceById(invoices, p.invoiceId)
    case None =>
    case Some(inv) =>
      var paid := CompletedAt(payments, p.id, now);
      StatusKeepsNumbering(invoices, inv.id, NewInvoiceStatus(PaidSum(paid, inv.id), inv.total, inv.status));
  }

  /** POST /api/invoices on the invoice table: a refusal's status with the
      table unchanged, or 201 with the new invoice, numbered by its
      clinic's count, appended, which keeps the table numbered in order. */
  function InvoiceCreation(session: Option<Session>, input: InvoiceInput, newId: string, invoices: seq<Invoice>)
    : (r: (int, seq<Invoice>))
    ensures r.0 == 201 <==> AdmitInvoice(session, input).Admitted?
    ensures r.0 != 201 ==> r.0 in {400, 401, 403, 500} && r.1 == invoices
    ensures r.0 == 201 ==>
              r.1 == invoices + [NewInvoice(newId, AdmitInvoice(session, input).value, input, invoices)]
    ensures NumberedInOrder(invoices) ==> NumberedInOrder(r.1)
  {
    match AdmitInvoice(session, input)
    case Refused(status) => (status, invoices)
    case Admitted(clinicId) =>
      NewInvoiceKeepsNumbering(newId, clinicId, input, invoices);
      (201, invoices + [NewInvoice(newId, clinicId, input, invoices)])
  }

  /** POST /api/payments/confirm on the two tables: a refusal's status with
      both unchanged, or 200 with the payment completed and its invoice
      paid, which keeps the invoices numbered in order. */
  function ConfirmOutcome(session: Option<Session>, payments: seq<Payment>, invoices: seq<Invoice>,
                          intentId: Option<string>)
    : (r: (int, seq<Payment>, seq<Invoice>))
    ensures r.0 == 200 <==> AdmitConfirm(session, payments, invoices, intentId).Admitted?
    ensures r.0 != 200 ==> r.0 in {400, 404, 500} && r.1 == payments && r.2 == invoices
    ensures r.0 == 200 ==>
              var p := AdmitConfirm(session, payments, invoices, intentId).value;
              r.1 == WithPaymentStatus(payments, p.id, PaymentCompleted) &&
              r.2 == WithInvoiceStatus(invoices, p.invoiceId, Paid)
    ensures NumberedInOrder(invoices) ==> NumberedInOrder(r.2)
  {
    match AdmitConfirm(session, payments, invoices, intentId)
    case Refused(status) => (status, payments, invoices)
    case Admitted(p) =>
      StatusKeepsNumbering(invoices, p.invoiceId, Paid);
      var confirmed := Confirmed(payments, invoices, p);
      (200, confirmed.0, confirmed.1)
  }

  /** An accepted invite adds a user whose email nobody had: the insert
      would have been refused otherwise. */
  lemma AcceptedEmailIsNew(users: seq<User>, invites: seq<InviteToken>, req: AcceptRequest, now: int,
                           hashed: string, newUserId: string, insertRejected: bool)
    requires UniqueEmails(users)
    requires InviteAcceptance(users, invites, req, now, hashed, newUserId, insertRejected || EmailTaken(users, invites, req)).0 == 200
    ensures UniqueEmails(InviteAcceptance(users, invites, req, now, hashed, newUserId,
                                          insertRejected || EmailTaken(users, invites, req)).1)
  {
    var invite := InviteByToken(invites, req.token.value).value;
    var u := InvitedUser(newUserId, invite, req.firstName.value, req.lastName.value, hashed);
    AddUserKeepsUnique(users, u);
  }
}
