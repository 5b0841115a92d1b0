/** The rows the route handlers read and write. Dates are integer
    milliseconds, money is integer cents, and a nullable text column is an
    `Option<string>`; a user's or token's missing clinic id is "". */
module Records {
  import opened Text

  datatype Clinic = Clinic(id: string, name: string, email: string, phone: Option<string>)

  /** `password` holds a password hash, never the password itself. */
  datatype User = User(
    id: string, email: string, password: Option<string>,
    firstName: string, lastName: string, phone: Option<string>,
    role: string, clinicId: string, isActive: bool, emailVerified: bool)

  /** The profile columns are nullable; `gender` holds the enum's name. */
  datatype Patient = Patient(
    id: string, userId: string, clinicId: string,
    dateOfBirth: Option<int>, gender: Option<string>, bloodType: Option<string>,
    address: Option<string>, emergencyContact: Option<string>,
    allergies: Option<string>, chronicConditions: Option<string>)

  datatype Doctor = Doctor(id: string, userId: string, clinicId: string)

  datatype AppointmentStatus = Scheduled | Completed | Cancelled | NoShow

  datatype Appointment = Appointment(
    id: string, clinicId: string, patientId: string, doctorId: string,
    serviceId: Option<string>, date: int, startTime: string, endTime: string,
    notes: Option<string>, status: AppointmentStatus)

  /** `status` is stored as the enum's upper-case name; `vitalSigns` is a
      JSON object, each value kept as its JSON text. */
  datatype Consultation = Consultation(
    id: string, clinicId: string, appointmentId: string, patientId: string,
    doctorId: string, chiefComplaint: string, diagnosis: Option<string>,
    notes: Option<string>, vitalSigns: Option<map<string, string>>, date: int, status: string)

  datatype Medication = Medication(
    name: string, dosage: Option<string>, frequency: Option<string>,
    duration: Option<string>, notes: Option<string>)

  datatype Prescription = Prescription(
    id: string, clinicId: string, consultationId: string, patientId: string,
    doctorId: string, medications: seq<Medication>, instructions: Option<string>,
    pdfUrl: Option<string>)

  datatype InvoiceStatus = InvoicePending | PartiallyPaid | Paid

  /** One line of an invoice: quantity times a unit price in cents. */
  datatype LineItem = LineItem(description: string, quantity: int, unitPrice: int, serviceId: Option<string>)

  datatype Invoice = Invoice(
    id: string, clinicId: string, patientId: string, number: string,
    items: seq<LineItem>, subtotal: int, tax: int, total: int,
    notes: Option<string>, status: InvoiceStatus)

  datatype PaymentStatus = PaymentPending | PaymentCompleted | Refunded

  datatype Payment = Payment(
    id: string, clinicId: string, invoiceId: string, amount: int, paymentMethod: string,
    status: PaymentStatus, intentId: string, paidAt: Option<int>)

  datatype InviteToken = InviteToken(
    id: string, token: string, email: string, role: string, clinicId: string,
    invitedBy: string, expiresAt: int, used: bool)

  datatype ResetToken = ResetToken(
    id: string, token: string, userId: string, clinicId: string,
    expiresAt: int, used: bool)

  /** A unique-column lookup (`findUnique` on email): the first user with
      that email. */
  function UserByEmail(users: seq<User>, email: string): (r: Option<User>)
    ensures r.Some? ==> r.value in users && r.value.email == email
    ensures r.None? <==> forall u :: u in users ==> u.email != email
  {
    if users == [] then None
    else if users[0].email == email then Some(users[0])
    else
      assert forall u :: u in users ==> u == users[0] || u in users[1..];
      UserByEmail(users[1..], email)
  }

  function UserById(users: seq<User>, id: string): (r: Option<User>)
    ensures r.Some? ==> r.value in users && r.value.id == id
    ensures r.None? <==> forall u :: u in users ==> u.id != id
  {
    if users == [] then None
    else if users[0].id == id then Some(users[0])
    else
      assert forall u :: u in users ==> u == users[0] || u in users[1..];
      UserById(users[1..], id)
  }

  /** The rows a `findMany` with a condition returns, in table order. */
  function Filtered<T(!new)>(rows: seq<T>, keep: T -> bool): (r: seq<T>)
    ensures forall x :: x in r <==> x in rows && keep(x)
    ensures |r| <= |rows|
  {
    if rows == [] then []
    else
      var rest := Filtered(rows[1..], keep);
      assert forall x :: x in rows <==> x == rows[0] || x in rows[1..];
      if keep(rows[0]) then [rows[0]] + rest else rest
  }
}
