# Clinic SaaS core, modelled in Dafny

This project models the decision logic of a multi-tenant clinic management
application: appointment booking with a doctor double-booking check,
consultations and prescriptions, invoices and their payments (client
confirmation and payment-provider webhook), single-use invite and
password-reset tokens, account creation, session guards, the request
middleware, the tenant-scoping wrapper around the database client, and the
small string functions behind e-mails and display names.

The database is one in-memory object, `Store.ClinicStore`, whose fields are
the tables (users, clinics, patients, doctors, appointments, consultations,
prescriptions, invoices, payments, invite tokens, reset tokens) plus an
outbox of accepted e-mails. Each HTTP handler is a method of that class. It
returns the HTTP status and changes only the tables its `modifies` clause
names. Its `ensures` ties the status and the new tables to specification
functions. Its class invariant `Valid()` holds four facts:

- no doctor is double-booked;
- an appointment has at most one consultation in its clinic;
- invoices are numbered in order within each clinic;
- e-mails are unique.

Every handler that writes a table the invariant covers requires and
preserves `Valid()`. The others (`CreatePrescription`, `CreatePayment`,
`Refund`, `Invite`, `CreateStaff`, `RequestReset`) write only tables it
does not cover.

Guard and admission logic is pure. `Routes` states, for each handler, which
status a request is refused with, or what it is admitted with. Client pages
(booking forms, the invoice item editor, appointment actions) are modelled
as classes or functions over their form state.

Modules:

- `Text`: optional strings, decimal and hex digits, `padStart`, case
  mapping, split/join, JS `Number` on plain decimals.
- `Times`: `"HH:MM"` clocks, the string-order overlap predicate, and clock
  arithmetic wrapped at midnight.
- `BookingForms`: the dashboard and portal booking pages, and the
  appointment actions.
- `Access`: the session guards, `runWithSessionClinic`, the clinic header,
  and the middleware.
- `Scoping`: the query arguments the tenant-scoped client builds.
- `Mail`: `stripHtml`, `sendEmail`, and the invite and reset templates.
- `Records`: shared rows and lookups.
- `Identity`: credential sign-in, display names, and the token and session
  callbacks.
- `Billing` and `BillingForm`: totals, invoice numbering, the payment and
  invoice state machines, and the invoice item editor.
- `Consultations` and `PrescriptionPdf`: the consultation rules, and the
  text lines and y positions of the prescription PDF.
- `Appointments`, `Tokens` and `Accounts`: the table-level rules of those
  areas.
- `Routes`: admission of each request.
- `Store`: the database object and its handlers.

External effects are parameters:

- **Password hashing:** a function `hash`.
- **Random bytes:** a byte sequence.
- **The clock:** an integer `now` in milliseconds.
- **Generated record ids:** `newId` and similar.
- **Date parsing:** an optional parsed date (appointment dates, a patient's date of birth).
- **The patient schema's e-mail check:** a flag, `emailAccepted`.
- **Payment provider:**
  - whether the payment intent was created, and its id;
  - whether the webhook signature was valid.
- **Storage upload:** success, and its key.
- **Mail service:** whether it accepted a message.
- **Database rejection of a duplicate insert:** a flag.

## Model

| member | source | states |
|---|---|---|
| Text.OrElse | src/lib/email-templates.ts:2 | an absent or empty option falls back to the default, otherwise its value is used |
| Text.NatToString | src/app/api/invoices/route.ts:69 | the decimal text of a count is non-empty digits with no leading zero whose value is the count |
| Text.PadStart | src/app/api/invoices/route.ts:69 | padding keeps the text as a suffix, fills only on the left, and reaches the requested width |
| Text.ZeroPadValue | src/app/api/invoices/route.ts:69 | left-padding digits with '0' keeps them digits and keeps their value |
| Text.Hex | src/app/api/auth/invite/route.ts:15 | the hex text of n bytes has 2n characters, each a hex digit |
| Text.UnhexHex | src/app/api/auth/invite/route.ts:15 | hex encoding of bytes is undone by decoding, so tokens carry their bytes exactly |
| Text.HexInjective | src/app/api/auth/password-reset/request/route.ts:17 | distinct random byte strings give distinct token texts |
| Text.LowerUpper | src/app/api/consultations/route.ts:205 | lower-casing an upper-cased text without capitals gives it back |
| Text.JoinSplit | src/auth.ts:83 | splitting on a separator and joining back restores the text |
| Text.BeforeIsPrefix | src/auth.ts:83 | the part before the first separator is a prefix of the text, and is followed by the separator when shorter |
| Text.ContainsMiddle | src/lib/email-templates.ts:4-13 | a text built by concatenation contains each of its middle parts |
| Text.Utf16Length | src/app/api/patients/route.ts:51 | a string's JavaScript `length` lies between its character count and twice that count |
| Text.Utf16LengthOfBmp | src/app/api/patients/route.ts:51 | inside the Basic Multilingual Plane the JavaScript length is the character count |
| Text.NumberOfNatToString | src/app/dashboard/billing/new/page.tsx:54-55 | `Number` of the decimal text of a natural is that natural |
| Times.ClockLexLt | src/app/api/appointments/route.ts:82 | on zero-padded HH:MM texts, string order is strict minutes-of-day order |
| Times.ClockLexLe | src/app/api/appointments/route.ts:82 | on zero-padded HH:MM texts, string `<=` is minutes-of-day `<=` |
| Times.OverlapsSymmetric | src/app/api/appointments/route.ts:82 | the conflict predicate is symmetric in the two slots |
| Times.OverlapsIsIntersection | src/app/api/appointments/route.ts:82 | on padded clocks the conflict predicate is closed-interval intersection in minutes |
| Times.BackToBackSlotsConflict | src/app/api/appointments/route.ts:82 | 09:00–09:30 and 09:30–10:00 conflict, because both bounds are inclusive |
| Times.FormatClock | src/app/dashboard/appointments/new/page.tsx:74-76 | the formatted clock is a valid HH:MM whose minutes are the input modulo a day |
| Times.FormatClockIsPadded | src/app/dashboard/appointments/new/page.tsx:74-76 | the formatted clock is two zero-padded fields for hours and minutes |
| Times.FormatClockMinutes | src/app/dashboard/appointments/new/page.tsx:74-76 | formatting a clock's minutes gives the clock back |
| Times.ParseZeroPadded | src/app/dashboard/appointments/new/page.tsx:70-72 | splitting an HH:MM text on ':' and reading both numbers gives its hours and minutes |
| Times.ShiftedTimeOfDay | src/app/dashboard/appointments/new/page.tsx:70-76 | start plus minutes is a valid clock whose minutes are the sum modulo a day |
| Times.ShiftByZero | src/app/dashboard/appointments/new/page.tsx:73 | a zero duration gives an end equal to the start |
| Times.ShiftedIsFormatted | src/app/dashboard/appointments/new/page.tsx:70-76 | shifting a clock is formatting its minutes plus the offset |
| Times.WrapsPastMidnight | src/app/dashboard/appointments/new/page.tsx:70-76 | example: 23:30 plus 60 minutes is 00:30 |
| Times.FormatWrapped | src/app/dashboard/appointments/new/page.tsx:74-76 | example: 1470 minutes formats as 00:30 |
| BookingForms.FindService | src/app/dashboard/appointments/new/page.tsx:68 | the found service is the first with the id, and none is found exactly when no service has it |
| BookingForms.SlotFacts | src/app/dashboard/appointments/new/page.tsx:70-76 | start is the typed time and end the typed time plus the duration, both as padded clocks modulo a day; a zero duration gives end = start; unreadable time gives NaN:NaN |
| BookingForms.ComputeTimes | src/app/dashboard/appointments/new/page.tsx:65-77 | times are recomputed only when a time is missing and time and service are set and the service is found, otherwise kept |
| BookingForms.TimeChanged | src/app/dashboard/appointments/new/page.tsx:149-157 | changing the time sets it and, when the service is found, recomputes both slot ends; nothing else changes |
| BookingForms.NoRecomputeAfterTimeChange | src/app/dashboard/appointments/new/page.tsx:67 | after the time handler filled both ends, submit no longer recomputes them even if the service changes |
| BookingForms.DashboardBookingPage.constructor | src/app/dashboard/appointments/new/page.tsx:149-157 | the page starts with the empty form and the loaded services |
| BookingForms.DashboardBookingPage.OnTimeChange | src/app/dashboard/appointments/new/page.tsx:149-157 | the form state becomes the time-changed form |
| BookingForms.DashboardBookingPage.HandleSubmit | src/app/dashboard/appointments/new/page.tsx:80-92 | the body maps date to appointmentDate, passes the service id, and carries the computed or kept times |
| BookingForms.FindSelf | src/app/portal/appointments/new/page.tsx:43 | the pre-filled patient is the first whose user email or phone equals the current user's; none exactly when no entry matches |
| BookingForms.PortalBookingPage.constructor | src/app/portal/appointments/new/page.tsx:159-166 | the page starts with the empty form and the loaded services |
| BookingForms.PortalBookingPage.Prefill | src/app/portal/appointments/new/page.tsx:43-44 | patientId is set to the caller's own patient record when one is found, else the form is unchanged |
| BookingForms.PortalBookingPage.OnTimeChange | src/app/portal/appointments/new/page.tsx:159-166 | the portal time handler follows the same start-plus-duration rule |
| BookingForms.PortalBookingPage.HandleSubmit | src/app/portal/appointments/new/page.tsx:86-94 | an empty patientId sends nothing; otherwise the body carries the form, an empty service as absent, and the computed or kept times |
| BookingForms.FailureMessage | src/app/portal/appointments/new/page.tsx:102-105 | the server's error text is shown when present, else a fixed message |
| BookingForms.StoredDuration | src/app/dashboard/appointments/ActionsClient.tsx:59-61 | the duration is end minutes minus start minutes, with each time read as the plain numbers of its fields (a fraction is kept) and a missing time counting as 00:00; it is NaN when either read fails |
| BookingForms.StoredDurationOfClocks | src/app/dashboard/appointments/ActionsClient.tsx:59-61 | on padded clocks the stored duration is the difference of minutes-of-day |
| BookingForms.WholeMinutesAdded | src/app/dashboard/appointments/ActionsClient.tsx:65-67 | the whole minutes added to the start are 15 for a duration up to 15, else the whole minutes of the duration |
| BookingForms.FractionalMinuteKept | src/app/dashboard/appointments/ActionsClient.tsx:59-67 | example: a 09:00.5 to 10:00 slot lasts 59.5 minutes, and moved to 11:00 it ends at 11:59 |
| BookingForms.RescheduledEndFacts | src/app/dashboard/appointments/ActionsClient.tsx:62-67 | the new end is a time of day: the new start plus 15 minutes for a duration up to 15, else plus the whole minutes of the duration, wrapped at midnight |
| BookingForms.Reschedule | src/app/dashboard/appointments/ActionsClient.tsx:50-78 | an empty or cancelled prompt sends nothing; otherwise exactly appointmentDate, startTime and the recomputed endTime are patched |
| BookingForms.DefaultDate | src/app/dashboard/appointments/ActionsClient.tsx:46-48 | the offered date is the part before 'T' of the appointment's date, else of today |
| BookingForms.MarkCompleted | src/app/dashboard/appointments/ActionsClient.tsx:26-28 | mark-completed patches only status COMPLETED |
| BookingForms.Cancel | src/app/dashboard/appointments/ActionsClient.tsx:30-34 | cancel deletes if and only if the user confirmed |
| Access.GetSessionServer | src/lib/auth-utils.ts:6-15 | a session lookup that throws or finds nothing yields no session |
| Access.RequireAuth | src/lib/auth-utils.ts:17-30 | the guard passes exactly when a session user exists, returns that user, and otherwise answers 401 |
| Access.RequireRole | src/lib/auth-utils.ts:42-49 | passes iff signed in with a listed role (exact match); 401 before any role check, then 403 |
| Access.DefaultRolesDenyEveryone | src/lib/auth-utils.ts:42-47 | with the default empty role list every signed-in caller gets 403 |
| Access.RoleImpliesAuth | src/lib/auth-utils.ts:42-49 | a caller the role guard admits is admitted by requireAuth as the same user |
| Access.RunWithSessionClinic | src/lib/auth-utils.ts:36-40 | authenticates first, then runs under the session's clinic; an empty clinic is rejected |
| Access.GetClinicIdFromRequest | src/lib/auth-utils.ts:51-56 | the clinic id is the x-clinic-id header when present and non-empty, else none |
| Access.AuthPageIffPrefix | src/middleware.ts:11 | a path is an auth page exactly when it is "/auth" followed by anything |
| Access.AuthorsIsAuthPage | src/middleware.ts:11 | example: the auth-page test is a prefix test, so /authors counts and /dashboard does not |
| Access.Middleware | src/middleware.ts:4-40 | logged-in auth page redirects to /dashboard, anonymous other page to /auth/login; otherwise pass, setting x-clinic-id only from a token clinic |
| Scoping.ReadWhere | src/lib/prisma-scoped.ts:7-13 | an empty clinic throws; without a caller where the filter is the clinic; a caller's where replaces it |
| Scoping.FindManyRows | src/lib/prisma-scoped.ts:12 | exactly the rows matching the filter are returned |
| Scoping.FindFirstRow | src/lib/prisma-scoped.ts:13 | findUnique runs as findFirst: some matching row, none exactly when none matches |
| Scoping.NoWhereStaysInClinic | src/lib/prisma-scoped.ts:12 | a scoped read without a where returns only rows of the caller's clinic |
| Scoping.CallerWhereDropsClinic | src/lib/prisma-scoped.ts:12 | with a caller-supplied where, a row of another clinic is returned |
| Scoping.CreateData | src/lib/prisma-scoped.ts:14 | created data always carries the scoped clinic, overriding any given clinic, and keeps every other field |
| Scoping.ByIdWhere | src/lib/prisma-scoped.ts:15-16 | update and delete filter on the id alone |
| Scoping.ByIdIgnoresClinic | src/lib/prisma-scoped.ts:15-16 | a by-id update or delete matches a row whatever its clinic |
| Mail.StripHtml | src/lib/email.ts:36-38 | removing tags never lengthens the text |
| Mail.StripHtmlHasNoOpenAngle | src/lib/email.ts:36-38 | the stripped text contains no '<' |
| Mail.StripHtmlPlainText | src/lib/email.ts:36-38 | text without '<' is left unchanged |
| Mail.StripHtmlIdempotent | src/lib/email.ts:36-38 | stripping twice equals stripping once |
| Mail.StripHtmlClosedTag | src/lib/email.ts:36-38 | a closed tag is deleted and the text around it kept in order |
| Mail.StripHtmlUnclosed | src/lib/email.ts:36-38 | an unclosed '<' deletes the rest of the text |
| Mail.SendEmail | src/lib/email.ts:9-33 | without an API key nothing is sent; otherwise the message has the defaulted sender and text, and a send failure is raised |
| Mail.DefaultTextHasNoTags | src/lib/email.ts:15-20 | the defaulted plain-text body has no '<' |
| Mail.InviteTemplate | src/lib/email-templates.ts:1-14 | the invite mail names the clinic ('your clinic' by default), the inviter line, and links the URL verbatim |
| Mail.InviteLead | src/lib/email-templates.ts:3 | " by X" appears exactly when the inviter is non-empty |
| Mail.ResetPasswordTemplate | src/lib/email-templates.ts:16-27 | the reset mail links the URL and states the one-hour expiry |
| Records.UserByEmail | src/app/api/auth/register/route.ts:20-22 | the found user has the email; none exactly when no user has it |
| Records.UserById | src/app/api/settings/profile/route.ts:13-16 | the found user has the id; none exactly when no user has it |
| Records.Filtered | src/app/api/appointments/route.ts:6-29 | a scoped listing keeps exactly the rows satisfying the filter |
| Identity.JoinedNames | src/auth.ts:83 | non-empty first and last names are joined by one space; an empty one is dropped |
| Identity.DisplayName | src/auth.ts:83 | the name is the joined names, or the email before '@' when both are empty |
| Identity.DisplayNameFacts | src/auth.ts:83 | a display name from names is non-empty; the email fallback is a prefix of the email |
| Identity.Authorize | src/auth.ts:59-92 | sign-in succeeds iff email and password are given, the user exists with a password that matches and nothing throws; it returns the user's role, clinic, display name and the name of the user's clinic |
| Identity.ClinicName | src/auth.ts:84-86 | the clinic name is that of the first clinic with the id, absent when that name is empty or no clinic has the id |
| Identity.JwtToken.constructor | src/auth.ts:43-50 | a fresh token carries only its subject |
| Identity.JwtToken.Jwt | src/auth.ts:43-50 | role, clinic and clinic name are copied only when a user is present; otherwise the token is unchanged |
| Identity.SessionUserObject.constructor | src/auth.ts:34-42 | a fresh session user has no fields set |
| Identity.SessionCallback | src/auth.ts:34-42 | when a session user exists it gets id = token subject and the token's role, clinic and clinic name |
| Identity.SignInThenSession | src/auth.ts:34-50 | after sign-in the session user carries the signed-in user's role and clinic |
| Appointments.PatientById | src/app/api/appointments/route.ts:55-56 | the patient is found iff one has the id |
| Appointments.DoctorById | src/app/api/appointments/route.ts:59-62 | the doctor is found iff one has the id |
| Appointments.DoctorByUser | src/app/api/appointments/route.ts:63-68 | the doctor is found iff one belongs to the user |
| Appointments.ResolveDoctor | src/app/api/appointments/route.ts:59-70 | the given id is used if it names a doctor, else the doctor whose user id it is; none iff neither exists |
| Appointments.Clashing | src/app/api/appointments/route.ts:77-89 | the conflict query returns exactly the same-doctor, same-date appointments that overlap, with no status or clinic filter |
| Appointments.InsertKeepsNoOverlap | src/app/api/appointments/route.ts:77-111 | inserting after an empty conflict query keeps every doctor free of overlapping appointments |
| Appointments.AnyStatusBlocks | src/app/api/appointments/route.ts:77-85 | a cancelled appointment, or one of another clinic, still blocks the slot |
| Appointments.NewAppointment | src/app/api/appointments/route.ts:91-102 | the new appointment is SCHEDULED in the caller's clinic with the resolved doctor, and its service is absent when omitted or empty |
| Appointments.AppointmentInClinic | src/app/api/consultations/route.ts:113-122 | the appointment is found iff one has the id and the caller's clinic |
| Consultations.StoredStatus | src/app/api/consultations/route.ts:110 | stored status is the upper-cased text |
| Consultations.ReturnedStatus | src/app/api/consultations/route.ts:205 | returned status is lower-cased |
| Consultations.StatusRoundTrip | src/app/api/consultations/route.ts:110 | for the three status values, storing then returning gives the value back |
| Consultations.ListFilter | src/app/api/consultations/route.ts:31-35 | the filter always holds the caller's clinic, and patient, doctor and upper-cased status exactly when given |
| Consultations.ListStaysInClinic | src/app/api/consultations/route.ts:31-35 | listed consultations all belong to the caller's clinic |
| Consultations.ListFilterSelectsListed | src/app/api/consultations/route.ts:31-35 | the built filter selects exactly the consultations matching the query |
| Consultations.CreateStatus | src/app/api/consultations/route.ts:96-110 | the stored status returns as the requested one, defaulting to scheduled |
| Consultations.MatchStartTime | src/app/api/consultations/route.ts:147-150 | a match is one or two digits, ':', two digits, with no range check |
| Consultations.MatchesClockText | src/app/api/consultations/route.ts:147-150 | an HH:MM text matches with its hours and minutes |
| Consultations.MatchExamples | src/app/api/consultations/route.ts:147-150 | example: 9:05 and 99:99 match; 9:5 and a trailing space do not |
| Consultations.SetHoursSameDay | src/app/api/consultations/route.ts:151-154 | setting hours and minutes keeps the day and sets the time of day |
| Consultations.ConsultationDate | src/app/api/consultations/route.ts:140-161 | a matching start time sets hours and minutes on the appointment date, otherwise the date is kept |
| Consultations.ConsultationAtStartTime | src/app/api/consultations/route.ts:140-161 | for a valid clock the consultation is that day at the start time |
| Consultations.ConsultationFor | src/app/api/consultations/route.ts:125-137 | the existing consultation is found iff one has the appointment and clinic |
| Consultations.AddKeepsOnePerAppointment | src/app/api/consultations/route.ts:125-198 | inserting after the duplicate check keeps one consultation per appointment per clinic |
| Consultations.UpperMatchesCaseVariants | src/app/api/consultations/route.ts:35 | upper-casing matches that of a lower-case word exactly on the spellings of that word in any mix of cases |
| Consultations.StatusFilterValidIff | src/app/api/consultations/route.ts:35 | the status filter can be matched exactly when it is empty or one of scheduled, completed, cancelled in any mix of cases |
| Consultations.NewConsultation | src/app/api/consultations/route.ts:164-198 | the record takes patient and doctor from the request, the date from the appointment and start time, complaint, diagnosis, notes and vital signs as sent, and the requested status |
| Consultations.Presented | src/app/api/consultations/route.ts:71 | listed consultations are returned with lower-cased status and otherwise unchanged |
| PrescriptionPdf.MedicationLineParts | src/app/api/prescriptions/route.ts:110-111 | line i starts with "i. name", holds " - " and each present dosage, frequency and duration, and puts them in that order (exact line for none, each single field, and all three) |
| PrescriptionPdf.CursorAfter | src/app/api/prescriptions/route.ts:109-119 | after k medications y advanced between 8k and 16k |
| PrescriptionPdf.MedicationLines | src/app/api/prescriptions/route.ts:109-119 | k medications produce between k and 2k lines |
| PrescriptionPdf.DrawPrescription | src/app/api/prescriptions/route.ts:99-123 | the drawing loop produces exactly the page layout |
| PrescriptionPdf.DrawMedication | src/app/api/prescriptions/route.ts:111-117 | one pass appends the medication's block, its line at the cursor and its notes 8 below when given, and moves the cursor 8, or 16 with notes |
| PrescriptionPdf.DrawStep | src/app/api/prescriptions/route.ts:109-118 | appending one more block keeps the loop's picture: the header, the lines of the medications drawn so far, and the cursor after them |
| PrescriptionPdf.LayoutBounds | src/app/api/prescriptions/route.ts:99-123 | the page has the header and a line per medication, and the instructions sit at y+4 and y+12 after the list |
| Billing.ToLineItems | src/app/api/invoices/route.ts:63 | each item becomes a line item with integer quantity of at least 1 and non-negative price |
| Billing.SubtotalAppend | src/app/api/invoices/route.ts:63 | the subtotal of concatenated items is the sum of the subtotals |
| Billing.SubtotalBounds | src/app/api/invoices/route.ts:63 | the subtotal is non-negative and at least each unit price |
| Billing.Totals | src/app/api/invoices/route.ts:60-64 | total is subtotal plus tax, tax defaulting to 0 |
| Billing.InvoiceNumber | src/app/api/invoices/route.ts:68-69 | the number is "INV-", the upper-cased clinic prefix, '-', and the padded sequence |
| Billing.InvoiceNumberInjective | src/app/api/invoices/route.ts:68-69 | within a clinic different counts give different numbers |
| Billing.NumberedAppend | src/app/api/invoices/route.ts:67-83 | inserting with the clinic's count keeps the in-order numbering invariant |
| Billing.CountGrows | src/app/api/invoices/route.ts:68 | a clinic's invoice count strictly grows past each of its invoices |
| Billing.NumberedPrefix | src/app/api/invoices/route.ts:67-83 | every prefix of a table numbered in order is numbered in order |
| Billing.NumberedAt | src/app/api/invoices/route.ts:68-69 | in a table numbered in order, each invoice's number comes from its clinic's count over the invoices before it |
| Billing.NumbersDistinctInClinic | src/app/api/invoices/route.ts:68-69 | in-order numbering makes a clinic's invoice numbers distinct |
| Billing.ChargeAmount | src/app/api/payments/route.ts:26 | with totals in cents the charged amount is the total |
| Billing.WithPaymentStatus | src/app/api/payments/confirm/route.ts:18-19 | only the payment with the id gets the status |
| Billing.CompletedAt | src/app/api/webhooks/stripe/route.ts:37 | only the payment with the id becomes COMPLETED with paidAt set |
| Billing.WithInvoiceStatus | src/app/api/payments/confirm/route.ts:20 | only the invoice with the id gets the status |
| Billing.PaymentByIntent | src/app/api/webhooks/stripe/route.ts:28-31 | the payment is found iff one has the intent id |
| Billing.PaymentByIntentInClinic | src/app/api/payments/confirm/route.ts:15-16 | the payment is found iff one has the intent id and the caller's clinic |
| Billing.InvoiceById | src/app/api/payments/route.ts:18-24 | the invoice is found iff one has the id |
| Billing.PaidSumCongruent | src/app/api/webhooks/stripe/route.ts:40-43 | the paid sum depends only on invoice, status and amount of each payment |
| Billing.NewInvoiceStatus | src/app/api/webhooks/stripe/route.ts:44 | PAID when the paid sum reaches the total, else PARTIALLY_PAID when positive, else unchanged |
| Billing.NewInvoiceStatusIdempotent | src/app/api/webhooks/stripe/route.ts:44 | recomputing the status twice changes nothing |
| Billing.Succeeded | src/app/api/webhooks/stripe/route.ts:23-49 | the payment completes, then its invoice is recomputed from the completed payments including it |
| Billing.SucceededReplay | src/app/api/webhooks/stripe/route.ts:37-45 | replaying a succeeded event leaves payment and invoice statuses as they were |
| Billing.LookupAfterStatus | src/app/api/webhooks/stripe/route.ts:45 | after a status update the invoice reads back with the new status |
| Billing.Confirmed | src/app/api/payments/confirm/route.ts:18-20 | confirmation completes the payment and marks its invoice PAID whatever the amounts |
| Billing.ConfirmTwice | src/app/api/payments/confirm/route.ts:18-22 | confirming twice gives the same state as once |
| Billing.NewInvoice | src/app/api/invoices/route.ts:70-82 | a PENDING invoice in the caller's clinic numbered by the clinic's count, with 0 <= subtotal <= total |
| Billing.NewPayment | src/app/api/payments/route.ts:30-41 | a PENDING STRIPE payment for the invoice total with the intent id |
| Billing.CountSameClinics | src/app/api/invoices/route.ts:68 | a per-clinic count depends only on the clinics of the invoices |
| Billing.SameNumbersKeepNumbering | src/app/api/webhooks/stripe/route.ts:45 | numbering in order depends only on each row's clinic and number |
| Billing.NewInvoiceKeepsNumbering | src/app/api/invoices/route.ts:67-83 | appending the invoice a request creates keeps the table numbered in order |
| Billing.StatusKeepsNumbering | src/app/api/webhooks/stripe/route.ts:45 | status changes keep the numbering invariant |
| BillingForm.UpdateItem | src/app/dashboard/billing/new/page.tsx:73-75 | only the chosen field of item i changes; length and other items are preserved |
| BillingForm.AddItem | src/app/dashboard/billing/new/page.tsx:77-79 | exactly one default item is appended |
| BillingForm.RemoveItem | src/app/dashboard/billing/new/page.tsx:81-83 | index i is removed keeping the others in order; an out-of-range index changes nothing |
| BillingForm.RemoveAdded | src/app/dashboard/billing/new/page.tsx:77-83 | removing a just-added item restores the list |
| BillingForm.UpdateTwice | src/app/dashboard/billing/new/page.tsx:73-75 | the second update of a field wins |
| BillingForm.UpdateThenRemove | src/app/dashboard/billing/new/page.tsx:73-83 | removing an updated item is removing the item |
| BillingForm.ItemIssue | src/app/dashboard/billing/new/page.tsx:19 | an item passes iff description non-empty, quantity an integer at least 1, and unit price at least 0 |
| BillingForm.FirstItemIssue | src/app/dashboard/billing/new/page.tsx:58 | no error is reported iff every item passes; otherwise the error is the first failing item's, all items before it passing |
| BillingForm.HandleSubmit | src/app/dashboard/billing/new/page.tsx:50-71 | sends iff patient set, at least one item and all valid; the payload converts each item and has tax 0; otherwise the error shown is the patient's, the empty list's, or the first failing item's |
| BillingForm.InitialItemsRefused | src/app/dashboard/billing/new/page.tsx:26 | the initial default item fails on its empty description |
| Tokens.Link | src/app/api/auth/invite/route.ts:29 | the URL is base, path and token in that order |
| Tokens.LinkInjective | src/app/api/auth/invite/route.ts:29 | two links on the same base are equal iff their tokens are |
| Tokens.TokenText | src/app/api/auth/invite/route.ts:15 | tokens are hex of twice the byte length, and equal iff the bytes are |
| Tokens.NewInvite | src/app/api/auth/invite/route.ts:16-27 | the invite has the admin's clinic and id, expires seven days on, is unused, and is live until then exactly |
| Tokens.InviteByToken | src/app/api/auth/invite/accept/route.ts:11 | the invite is found iff one has the token |
| Tokens.MarkInviteUsed | src/app/api/auth/invite/accept/route.ts:33 | only the invite with the id is flagged used |
| Tokens.InviteUsedAfterMark | src/app/api/auth/invite/accept/route.ts:33 | after marking, the token reads back as used |
| Tokens.InvitedUser | src/app/api/auth/invite/accept/route.ts:17-29 | the new user takes the invite's email, role and clinic, is active and not verified |
| Tokens.InviteAcceptance | src/app/api/auth/invite/accept/route.ts:6-40 | 400 for missing fields or an unknown, used or expired token; 500 on insert failure; otherwise one user added and the token used |
| Tokens.InviteSingleUse | src/app/api/auth/invite/accept/route.ts:11-33 | a second acceptance with the same token is 400 and changes nothing |
| Tokens.FailedAcceptKeepsToken | src/app/api/auth/invite/accept/route.ts:17-39 | a failed insert answers 500 and leaves the token unused |
| Tokens.NewReset | src/app/api/auth/password-reset/request/route.ts:17-27 | the reset token has the user's id and clinic and expires in one hour |
| Tokens.ResetByToken | src/app/api/auth/password-reset/accept/route.ts:10 | the reset is found iff one has the token |
| Tokens.MarkResetUsed | src/app/api/auth/password-reset/accept/route.ts:16 | only the reset with the id is flagged used |
| Tokens.ResetUsedAfterMark | src/app/api/auth/password-reset/accept/route.ts:16 | after marking, the token reads back as used |
| Tokens.WithPassword | src/app/api/auth/password-reset/accept/route.ts:15 | only the owner's password field changes |
| Tokens.ResetConsumption | src/app/api/auth/password-reset/confirm/route.ts:5-23 | 400 for a missing field or an unknown, used or expired token; otherwise the owner's password changes and the token is used |
| Tokens.ResetSingleUse | src/app/api/auth/password-reset/accept/route.ts:11-16 | reusing a consumed token is 400 and changes nothing |
| Tokens.ResetTouchesOnlyOwner | src/app/api/auth/password-reset/accept/route.ts:15 | no user other than the token's owner changes |
| Tokens.ResetIssue | src/app/api/auth/password-reset/request/route.ts:11-27 | a token is issued only when an email is given and its user exists |
| Tokens.IssuedTokenRedeemable | src/app/api/auth/password-reset/request/route.ts:17-29 | a freshly issued token redeems within its hour |
| Tokens.FirstTokenMatch | src/app/api/auth/password-reset/accept/route.ts:10 | a fresh token appended to the table is the one found |
| Accounts.StaffEmailOkIsShape | src/app/api/staff/route.ts:35-41 | the email test accepts exactly local@d1.d2 with non-empty parts free of '@' and of every character JavaScript's `\s` matches |
| Accounts.StaffEmailRefusesUnicodeSpace | src/app/api/staff/route.ts:35-36 | an ideographic space in the local part and a thin space in the domain are refused, as `\s` matches them |
| Accounts.StaffEmailAccepted | src/app/api/staff/route.ts:35-41 | example: a@b.c and an address with a dotted domain are accepted |
| Accounts.StaffEmailRefused | src/app/api/staff/route.ts:35-41 | example: addresses without a dotted domain, with a space or with two '@' are refused |
| Accounts.StaffFormIssue | src/app/api/staff/route.ts:27-50 | 400 unless email and role are present, the email has the shape and the role is ADMIN, DOCTOR or RECEPTIONIST |
| Accounts.RoleMatchIsExact | src/app/api/staff/route.ts:44-50 | example: roles are matched exactly: lower-case and PATIENT are refused |
| Accounts.PatientPassword | src/app/api/patients/route.ts:73 | the given password is used, else the default |
| Accounts.PatientPasswordLength | src/app/api/patients/route.ts:51-73 | the password hashed for a valid input is at least 6 UTF-16 code units long, whether given or the default |
| Accounts.AstralPasswordAccepted | src/app/api/patients/route.ts:51 | example: three emoji are six code units, so `.min(6)` accepts them |
| Accounts.PasswordRule | src/app/api/settings/profile/route.ts:64-88 | exactly one of the two passwords given is refused; both given looks the user up |
| Accounts.NewPhone | src/app/api/settings/profile/route.ts:90-93 | an absent phone keeps it, null clears it, a value sets it |
| Accounts.WithProfile | src/app/api/settings/profile/route.ts:90-101 | only the session user's names and phone change |
| Accounts.AddUserKeepsUnique | src/app/api/patients/route.ts:70-108 | adding a user whose email is unused keeps emails unique |
| Accounts.SameEmailsKeepUnique | src/app/api/settings/profile/route.ts:90-101 | an update keeping every email keeps them unique |
| Accounts.UserInClinic | src/app/api/staff/route.ts:53-66 | the duplicate is found iff a user has the email in the caller's clinic |
| Accounts.DuplicateIsPerClinic | src/app/api/staff/route.ts:53-66 | the same email in another clinic is not a staff duplicate |
| Accounts.PatientRecord | src/app/api/patients/route.ts:89-100 | the patient row takes the clinic and user, a parsed date of birth and a gender only when given, and the other profile fields as sent |
| Accounts.PatientUser | src/app/api/patients/route.ts:75-95 | the new user is a verified, active PATIENT of the clinic with the hashed password |
| Accounts.RegisteredClinic | src/app/api/auth/register/route.ts:35-45 | the clinic takes the clinic name, the user's email and the phone |
| Accounts.RegisteredAdmin | src/app/api/auth/register/route.ts:46-61 | the new user is an active, verified ADMIN of the new clinic |
| Routes.Caller | src/lib/auth-utils.ts:17-30 | a guard failure inside a handler's try becomes 500, outside keeps its status; an empty clinic is 500 |
| Routes.AdmitBooking | src/app/api/appointments/route.ts:31-70 | admitted iff an allowed role, valid fields, a known patient, a resolvable doctor and a parsed date; otherwise 400 or 500 |
| Routes.AdmitConsultation | src/app/api/consultations/route.ts:87-137 | admitted iff DOCTOR/ADMIN, valid, the appointment is in the clinic and has no consultation; 404 and 400 otherwise |
| Routes.Prescriber | src/app/api/prescriptions/route.ts:75-81 | the doctor is the given one, else the caller's doctor record |
| Routes.AdmitPrescription | src/app/api/prescriptions/route.ts:62-81 | guard status escapes; admitted iff valid with at least one medication and a resolvable doctor |
| Routes.AdmitInvoice | src/app/api/invoices/route.ts:50-58 | RECEPTIONIST/ADMIN only, guard status escapes; admitted iff the invoice input is valid |
| Routes.AdmitPayment | src/app/api/payments/route.ts:8-24 | 401 anonymous, 400 without an invoice id, 404 unless the invoice is the caller's clinic's |
| Routes.PaidInvoiceStillChargeable | src/app/api/payments/route.ts:18-41 | a PAID invoice is still admitted for a new payment |
| Routes.AdmitConfirm | src/app/api/payments/confirm/route.ts:5-31 | 400 without an intent id, 404 with no matching payment in the clinic; admitted with that payment |
| Routes.AdmitPatient | src/app/api/patients/route.ts:39-71 | admitted iff ADMIN/RECEPTIONIST, valid fields and an email unused in any clinic |
| Routes.AdmitRegistration | src/app/api/auth/register/route.ts:6-29 | admitted iff all required fields are given and the email is unused |
| Routes.AdmitStaff | src/app/api/staff/route.ts:20-66 | 400 on the validation chain, 409 iff the email is taken in the clinic, admitted otherwise |
| Routes.AdmitInvite | src/app/api/auth/invite/route.ts:9-13 | admitted iff ADMIN with email and role given; the role is not checked against a list |
| Routes.StaffPassesInvite | src/app/api/staff/route.ts:69-96 | a staff request the staff route admits is admitted by the invite route as the same admin |
| Routes.InviteMail | src/app/api/auth/invite/route.ts:29-30 | the invite mail links base + accept path + token and names the admin's email or id as inviter |
| Routes.ResetMail | src/app/api/auth/password-reset/request/route.ts:29-31 | the reset mail links base + reset path + token and states the expiry |
| Routes.EmailTaken | src/app/api/auth/invite/accept/route.ts:17-31 | the insert is rejected when the invite's email already has a user |
| Routes.AdmitProfile | src/app/api/settings/profile/route.ts:45-88 | 400 on bad names or one password, 404 on a missing user, admitted otherwise |
| Store.ClinicStore.constructor | src/app/api/auth/register/route.ts:35-61 | a store holding the given people and empty tables satisfies the invariant |
| Store.ClinicStore.BookAppointment | src/app/api/appointments/route.ts:31-129 | refused requests keep the table; a clash is 409 and keeps it; otherwise 201 and exactly one appointment appended; no doctor is double-booked |
| Store.ClinicStore.ListAppointments | src/app/api/appointments/route.ts:6-29 | lists exactly the caller's clinic's appointments |
| Store.ClinicStore.CreateConsultation | src/app/api/consultations/route.ts:87-226 | 201 and one consultation added when admitted, else the table is kept; one per appointment holds |
| Store.ClinicStore.ListConsultations | src/app/api/consultations/route.ts:20-85 | 500 when the status filter is not one of the enum's values after upper-casing; otherwise lists the clinic's consultations matching the filters with lower-cased status |
| Store.ClinicStore.CreatePrescription | src/app/api/prescriptions/route.ts:62-144 | 201 with a record whose pdfUrl is null, set to the storage key only on upload; the page is the layout |
| Store.ClinicStore.ListPrescriptions | src/app/api/prescriptions/route.ts:25-60 | lists the clinic's prescriptions matching patient and doctor filters |
| Store.InvoiceCreation | src/app/api/invoices/route.ts:50-90 | 201 exactly when the guard and schema admit, with the new invoice numbered by the clinic's count appended; a refusal (400, 401, 403, 500) leaves the table; numbering stays in order |
| Store.ClinicStore.CreateInvoice | src/app/api/invoices/route.ts:50-90 | status and invoice table are those of InvoiceCreation, and the store invariant holds after |
| Store.ClinicStore.ListInvoices | src/app/api/invoices/route.ts:20-48 | lists exactly the caller's clinic's invoices |
| Store.ClinicStore.CreatePayment | src/app/api/payments/route.ts:8-48 | one PENDING payment for the invoice total appended when admitted and the intent created |
| Store.ConfirmOutcome | src/app/api/payments/confirm/route.ts:5-32 | 200 exactly when the confirmation is admitted, with the payment COMPLETED and its invoice PAID; a refusal (400, 404, 500) leaves both tables; numbering stays in order |
| Store.ClinicStore.ConfirmPayment | src/app/api/payments/confirm/route.ts:5-32 | status and both tables are those of ConfirmOutcome, and the store invariant holds after |
| Store.ClinicStore.StripeWebhook | src/app/api/webhooks/stripe/route.ts:9-75 | bad signature 400 with no change; succeeded completes and recomputes; refunds touch only the payment; other events nothing |
| Store.ClinicStore.Refund | src/app/api/webhooks/stripe/route.ts:51-63 | the matching payment becomes REFUNDED and no invoice changes |
| Store.ClinicStore.Invite | src/app/api/auth/invite/route.ts:9-38 | the token is stored before sending; a send failure is 500 with the token kept |
| Store.ClinicStore.CreateStaff | src/app/api/staff/route.ts:20-105 | refused requests keep all tables; admitted ones store an invite and send its mail, 500 when delivery fails |
| Store.ClinicStore.AcceptInvite | src/app/api/auth/invite/accept/route.ts:6-40 | the state change is the invite acceptance, a taken email counting as an insert failure; emails stay unique |
| Store.ClinicStore.RequestReset | src/app/api/auth/password-reset/request/route.ts:8-38 | always 200; a token and its mail only when the user exists |
| Store.ClinicStore.RedeemReset | src/app/api/auth/password-reset/accept/route.ts:5-23 | the state change is the reset consumption shared by the accept and confirm routes |
| Store.ClinicStore.CreatePatient | src/app/api/patients/route.ts:39-118 | a user and its patient are added together or not at all: refusals keep both tables, an unparseable date of birth or a gender outside the enum answers 500 and keeps both, otherwise both rows are added |
| Store.ClinicStore.ListPatients | src/app/api/patients/route.ts:8-37 | lists exactly the caller's clinic's patients |
| Store.ClinicStore.Register | src/app/api/auth/register/route.ts:6-78 | a clinic and its ADMIN are added together, 400 otherwise |
| Store.ClinicStore.ListStaff | src/app/api/staff/route.ts:6-18 | ADMIN only, any failure 403, lists the clinic's users |
| Store.ClinicStore.GetProfile | src/app/api/settings/profile/route.ts:7-34 | the session user's profile, or 404 |
| Store.ClinicStore.UpdateProfile | src/app/api/settings/profile/route.ts:45-111 | only names and phone of the session user change; no password ever changes |
| Store.WebhookKeepsNumbering | src/app/api/webhooks/stripe/route.ts:37-45 | the webhook's invoice update keeps the numbering invariant |
| Store.AcceptedEmailIsNew | src/app/api/auth/invite/accept/route.ts:17-31 | a successful acceptance keeps emails unique |

## Left out

- Database, ORM and transactions: each table is a sequence. A transaction is one atomic method. Row order of listings (`orderBy`) and included relations are not modelled. Foreign keys are not checked.
- E-mail uniqueness: the model assumes a unique constraint on user e-mail. The schema file is not part of this model. A duplicate insert is an input flag (`insertRejected`) plus the model's own check (`Routes.EmailTaken`).
- Row-level security: setting the session clinic on the connection is a no-op here. Its failures are swallowed in the source, so `Access.RequireAuth` never fails because of it.
- Concurrency: the race between the conflict check and the insert, and between the invoice count and the insert. The model is single-threaded.
- Payment provider SDK: signature verification and intent creation are boolean and id inputs. Client card confirmation is not modelled.
- bcrypt, random bytes, the clock and date parsing are parameters.
  - A token's byte count (20 for invites, 24 for resets) is the caller's choice of `bytes`, not a model constant.
- JS `Date`: consultation hours are set on a millisecond count in UTC. Time zones and daylight saving are not modelled.
- Money: amounts on the server are integer cents. JS floating point arithmetic on amounts is not modelled.
- Case mapping: `Text.Upper` and `Text.Lower` map only ASCII letters. JavaScript's `toUpperCase` and `toLowerCase` also map other letters ('ſ' to 'S', 'ß' to "SS"). This affects `Billing.InvoiceNumber`'s prefix, `Consultations.StoredStatus` and `Consultations.ReturnedStatus`, so a list filter such as "ſcheduled" matches nothing in the model.
- E-mail format of the patient schema: zod's `.email()` check is the input flag `emailAccepted` of `Accounts.PatientValid` and `Routes.AdmitPatient`. Its pattern is not modelled.
- Enum values: the schema file is not part of this model. The consultation statuses come from the consultation route's schema. The genders (MALE, FEMALE, OTHER) come from the new-patient page.
- Consultation vital signs: a JSON object is a map from keys to the JSON text of each value. Any other JSON value is refused with 400.
- Times.Overlaps and Appointments.Clashing: the overlap comparison at src/app/api/appointments/route.ts:82 runs in the database, under the column's collation. The model compares character by character on Unicode scalar values. The two orders agree on zero-padded clock text (`Times.ClockLexLt`, `Times.ClockLexLe`), but may differ on other text, where a collation can put "a" before "B". For such times the model and the program can disagree on whether a booking clashes.
- Billing.InvoicePrefix: `slice(0, 6)` counts UTF-16 code units, while the model takes the first six characters. The two differ only when the clinic id has characters outside the Basic Multilingual Plane. A code-unit slice can split a surrogate pair, and a Dafny `char` cannot hold half of one. The password rule of `Accounts.PatientValid` does count code units (`Text.Utf16Length`).
- BookingForms.DefaultDate: the ISO text of the appointment's date is an input. An appointment date that does not parse makes `toISOString()` throw a RangeError before any prompt, so the reschedule stops. The model takes the text as given.
- `Number`: only plain decimal text is modelled. Whitespace, exponents, hex and `Infinity` are not.
- Routes.AdmitPrescription and Routes.AdmitInvoice: request bodies are typed records, so a field of the wrong JSON type, a medication without `name`, and an invoice item without `quantity` or `unitPrice` cannot be built. The schemas of src/app/api/prescriptions/route.ts:9-14 and src/app/api/invoices/route.ts:6-10 answer such bodies with 400. The model keeps the checks on values: the required ids, a non-empty list, a quantity of at least 1 and a non-negative price.
- PDF: jsPDF rendering and the storage upload are not modelled. The page is a sequence of (text, y) pairs. The upload is a success flag and a key. Converting `pdfUrl` to a download URL in the prescriptions listing is not modelled.
- Mail delivery: SendGrid itself is not modelled. Its outcome is the `delivered` flag.
- Staff route: its HTTP call to the invite route is a direct call. Whether the call reached the route is the `reached` flag.
- Invite route: it uses the unscoped client, so no tenant check applies. Its clinic name is the clinic id, as in the source.
- Guard failures outside a handler's `try` escape the handler. The model returns the guard's own status (401/403). How the framework renders the escaped value is not modelled.
- Middleware: the `matcher` configuration that decides which paths run it is not modelled.
- React rendering, `loading` flags, navigation and presentational components are not modelled. Neither are the thin CRUD routes (clinic, services, doctors, health, custom session).
- `PrescriptionPdf.Layout` is specified through `PrescriptionPdf.DrawPrescription` and `PrescriptionPdf.LayoutBounds`, not by a contract of its own.
