/** The server-side booking rules: which doctor a request names, which
    stored appointments the conflict query returns, and the table property
    that booking only through this check keeps: no two appointments of one
    doctor on one date overlap. */
module Appointments {
  import opened Text
  import opened Times
  import opened Records

  /** The booking request after JSON parsing; every field may be missing.
      The schema wants strings for all but the service and the notes, and
      accepts empty ones. */
  datatype BookingInput = BookingInput(
    patientId: Option<string>, doctorId: Option<string>, serviceId: Option<string>,
    appointmentDate: Option<string>, startTime: Option<string>, endTime: Option<string>,
    notes: Option<string>)

  predicate ValidBooking(b: BookingInput) {
    b.patientId.Some? && b.doctorId.Some? && b.appointmentDate.Some? && b.startTime.Some? && b.endTime.Some?
  }

  /** The roles that may book. */
  const BookingRoles: seq<string> := ["ADMIN", "RECEPTIONIST", "PATIENT"]

  function PatientById(patients: seq<Patient>, id: string): (r: Option<Patient>)
    ensures r.Some? ==> r.value in patients && r.value.id == id
    ensures r.None? <==> forall p :: p in patients ==> p.id != id
  {
    if patients == [] then None
    else if patients[0].id == id then Some(patients[0])
    else
      assert forall p :: p in patients ==> p == patients[0] || p in patients[1..];
      PatientById(patients[1..], id)
  }

  function DoctorById(doctors: seq<Doctor>, id: string): (r: Option<Doctor>)
    ensures r.Some? ==> r.value in doctors && r.value.id == id
    ensures r.None? <==> forall d :: d in doctors ==> d.id != id
  {
    if doctors == [] then None
    else if doctors[0].id == id then Some(doctors[0])
    else
      assert forall d :: d in doctors ==> d == doctors[0] || d in doctors[1..];
      DoctorById(doctors[1..], id)
  }

  /** The first doctor whose user account has this id. */
  function DoctorByUser(doctors: seq<Doctor>, userId: string): (r: Option<Doctor>)
    ensures r.Some? ==> r.value in doctors && r.value.userId == userId
    ensures r.None? <==> forall d :: d in doctors ==> d.userId != userId
  {
    if doctors == [] then None
    else if doctors[0].userId == userId then Some(doctors[0])
    else
      assert forall d :: d in doctors ==> d == doctors[0] || d in doctors[1..];
      DoctorByUser(doctors[1..], userId)
  }

  /** The doctor id a booking is stored under: the given value when a
      doctor has it as id, else the id of the doctor whose user it is, else
      none. Both lookups ignore the clinic. */
  function ResolveDoctor(doctors: seq<Doctor>, given: string): (r: Option<string>)
    ensures r.None? <==> forall d :: d in doctors ==> d.id != given && d.userId != given
    ensures r.Some? ==> exists d :: d in doctors && d.id == r.value
    ensures DoctorById(doctors, given).Some? ==> r == Some(given)
    ensures DoctorById(doctors, given).None? && r.Some? ==>
              exists d :: d in doctors && d.id == r.value && d.userId == given
  {
    if DoctorById(doctors, given).Some? then Some(given)
    else if DoctorByUser(doctors, given).Some? then Some(DoctorByUser(doctors, given).value.id)
    else None
  }

  /** The conflict query's condition on one stored appointment: the same
      doctor and date, and `startTime <= endTime` and `endTime >= startTime`
      as strings. Neither the status nor the clinic is looked at. */
  predicate Clashes(a: Appointment, doctorId: string, date: int, startTime: string, endTime: string) {
    a.doctorId == doctorId && a.date == date && Overlaps(a.startTime, a.endTime, startTime, endTime)
  }

  /** The rows the conflict query returns, in table order. */
  function Clashing(appts: seq<Appointment>, doctorId: string, date: int, startTime: string, endTime: string)
    : (r: seq<Appointment>)
    ensures forall a :: a in r <==> a in appts && Clashes(a, doctorId, date, startTime, endTime)
    ensures |r| <= |appts|
  {
    if appts == [] then []
    else
      var rest := Clashing(appts[1..], doctorId, date, startTime, endTime);
      assert forall a :: a in appts <==> a == appts[0] || a in appts[1..];
      if Clashes(appts[0], doctorId, date, startTime, endTime) then [appts[0]] + rest else rest
  }

  /** No two appointments of one doctor on one date overlap, in either
      order. */
  ghost predicate NoDoctorOverlap(appts: seq<Appointment>) {
    forall i, j ::
      (0 <= i < |appts| && 0 <= j < |appts| && i != j &&
       appts[i].doctorId == appts[j].doctorId && appts[i].date == appts[j].date) ==>
      !Overlaps(appts[i].startTime, appts[i].endTime, appts[j].startTime, appts[j].endTime)
  }

  /** Appending an appointment the conflict query found nothing for keeps
      the table free of overlaps. */
  lemma InsertKeepsNoOverlap(appts: seq<Appointment>, a: Appointment)
    requires NoDoctorOverlap(appts)
    requires Clashing(appts, a.doctorId, a.date, a.startTime, a.endTime) == []
    ensures NoDoctorOverlap(appts + [a])
  {
    var s := appts + [a];
    forall i, j | 0 <= i < |s| && 0 <= j < |s| && i != j && s[i].doctorId == s[j].doctorId && s[i].date == s[j].date
      ensures !Overlaps(s[i].startTime, s[i].endTime, s[j].startTime, s[j].endTime)
    {
      if i == |appts| {
        assert s[j] in appts && !Clashes(s[j], a.doctorId, a.date, a.startTime, a.endTime);
        OverlapsSymmetric(s[j].startTime, s[j].endTime, a.startTime, a.endTime);
      } else if j == |appts| {
        assert s[i] in appts && !Clashes(s[i], a.doctorId, a.date, a.startTime, a.endTime);
      } else {
        assert s[i] == appts[i] && s[j] == appts[j];
      }
    }
  }

  /** A cancelled or completed appointment in another clinic still blocks
      the slot: the query finds it. */
  lemma AnyStatusBlocks(a: Appointment, startTime: string, endTime: string)
    requires Overlaps(a.startTime, a.endTime, startTime, endTime)
    ensures Clashing([a], a.doctorId, a.date, startTime, endTime) == [a]
    ensures Clashing([a.(status := Cancelled, clinicId := "other")], a.doctorId, a.date, startTime, endTime) != []
  {
    var c := a.(status := Cancelled, clinicId := "other");
    assert Clashes(c, a.doctorId, a.date, startTime, endTime);
    assert c in Clashing([c], a.doctorId, a.date, startTime, endTime);
  }

  /** The row a successful booking stores: SCHEDULED, in the session's
      clinic, under the resolved doctor, with an empty service id stored as
      null. */
  function NewAppointment(id: string, clinicId: string, input: BookingInput, doctorId: string, date: int)
    : (r: Appointment)
    requires ValidBooking(input)
    ensures r.status == Scheduled && r.clinicId == clinicId && r.doctorId == doctorId && r.date == date
    ensures r.patientId == input.patientId.value
    ensures r.startTime == input.startTime.value && r.endTime == input.endTime.value
    ensures r.serviceId.Some? <==> Truthy(input.serviceId)
    ensures r.serviceId.Some? ==> r.serviceId == input.serviceId
  {
    Appointment(id, clinicId, input.patientId.value, doctorId,
                if Truthy(input.serviceId) then input.serviceId else None,
                date, input.startTime.value, input.endTime.value, input.notes, Scheduled)
  }

  /** `appointment.findUnique({ where: { id, clinicId } })`: the appointment
      with that id, provided it belongs to the clinic. */
  function AppointmentInClinic(appts: seq<Appointment>, id: string, clinicId: string): (r: Option<Appointment>)
    ensures r.Some? ==> r.value in appts && r.value.id == id && r.value.clinicId == clinicId
    ensures r.None? <==> forall a :: a in appts ==> !(a.id == id && a.clinicId == clinicId)
  {
    if appts == [] then None
    else if appts[0].id == id && appts[0].clinicId == clinicId then Some(appts[0])
    else
      assert forall a :: a in appts ==> a == appts[0] || a in appts[1..];
      AppointmentInClinic(appts[1..], id, clinicId)
  }
}
