/** The pure rules of the consultations API: the list filter, the status
    spelling (lower case on the wire, the enum's upper case in storage), the
    validation of a create request and the consultation date derived from
    the appointment's date and start time. */
module Consultations {
  import opened Text
  import opened Times
  import opened Scoping
  import opened Records

  /** The statuses a create request may name. */
  const StatusValues: seq<string> := ["scheduled", "completed", "cancelled"]

  const DefaultStatus := "scheduled"

  /** `status.toUpperCase()` on the way into storage. */
  function StoredStatus(status: string): (r: string)
    ensures |r| == |status|
    ensures NoUpperAscii(status) ==> Lower(r) == status
  {
    if NoUpperAscii(status) then LowerUpper(status); Upper(status) else Upper(status)
  }

  /** `status ? status.toLowerCase() : status` on the way out. */
  function ReturnedStatus(stored: string): (r: string)
    ensures stored == "" ==> r == ""
    ensures |r| == |stored| && NoUpperAscii(r)
  {
    if stored == "" then stored else Lower(stored)
  }

  /** Each request status comes back spelled as it was sent. */
  lemma StatusRoundTrip(status: string)
    requires status in StatusValues
    ensures ReturnedStatus(StoredStatus(status)) == status
  {
    assert NoUpperAscii(status) by {
      assert status == "scheduled" || status == "completed" || status == "cancelled";
    }
  }

  // ---------------------------------------------------------------------
  // GET

  /** The values of the status column's enum. */
  const StoredStatuses: seq<string> := ["SCHEDULED", "COMPLETED", "CANCELLED"]

  /** Whether the list query can run: no status filter, or one that
      upper-cases to a value of the enum. Any other value makes the query
      throw, and the handler answers 500. */
  predicate StatusFilterValid(status: Option<string>) {
    !Truthy(status) || StoredStatus(status.value) in StoredStatuses
  }

  /** Upper-casing matches that of a lower-case word exactly on the
      spellings of that word in any mix of cases. */
  lemma {:induction false} UpperMatchesCaseVariants(s: string, t: string)
    requires forall i :: 0 <= i < |t| ==> 'a' <= t[i] <= 'z'
    ensures Upper(s) == Upper(t) <==> Lower(s) == t
  {
    if |s| == |t| {
      forall i | 0 <= i < |s|
        ensures UpperChar(s[i]) == UpperChar(t[i]) <==> LowerChar(s[i]) == t[i]
      {
      }
      if Lower(s) == t {
        assert forall i :: 0 <= i < |s| ==> Upper(s)[i] == Upper(t)[i];
      }
      if Upper(s) == Upper(t) {
        assert forall i :: 0 <= i < |s| ==> Lower(s)[i] == t[i];
      }
    }
  }

  /** A status filter is accepted exactly when it is absent, empty, or one
      of the three statuses in any mix of cases. */
  lemma StatusFilterValidIff(status: string)
    ensures StatusFilterValid(Some(status)) <==> status == "" || Lower(status) in StatusValues
  {
    assert Upper("scheduled") == "SCHEDULED";
    assert Upper("completed") == "COMPLETED";
    assert Upper("cancelled") == "CANCELLED";
    UpperMatchesCaseVariants(status, "scheduled");
    UpperMatchesCaseVariants(status, "completed");
    UpperMatchesCaseVariants(status, "cancelled");
  }

  /** The `where` the list query uses: the session clinic always, and the
      patient, doctor and upper-cased status when given and non-empty. */
  function ListFilter(clinicId: string, patientId: Option<string>, doctorId: Option<string>, status: Option<string>)
    : (r: Filter)
    ensures "clinicId" in r && r["clinicId"] == clinicId
    ensures "patientId" in r <==> Truthy(patientId)
    ensures "doctorId" in r <==> Truthy(doctorId)
    ensures "status" in r <==> Truthy(status)
    ensures Truthy(patientId) ==> r["patientId"] == patientId.value
    ensures Truthy(doctorId) ==> r["doctorId"] == doctorId.value
    ensures Truthy(status) ==> r["status"] == StoredStatus(status.value)
    ensures r.Keys <= {"clinicId", "patientId", "doctorId", "status"}
  {
    var w := map["clinicId" := clinicId];
    var w := if Truthy(patientId) then w["patientId" := patientId.value] else w;
    var w := if Truthy(doctorId) then w["doctorId" := doctorId.value] else w;
    if Truthy(status) then w["status" := StoredStatus(status.value)] else w
  }

  /** The list only ever holds the session clinic's rows. */
  lemma ListStaysInClinic(clinicId: string, patientId: Option<string>, doctorId: Option<string>,
                          status: Option<string>, rows: seq<Row>)
    ensures forall x :: x in FindManyRows(rows, Some(ListFilter(clinicId, patientId, doctorId, status))) ==>
              "clinicId" in x && x["clinicId"] == clinicId
  {
    var f := Some(ListFilter(clinicId, patientId, doctorId, status));
    forall x | x in FindManyRows(rows, f)
      ensures "clinicId" in x && x["clinicId"] == clinicId
    {
      assert Holds(f, x);
    }
  }

  // ---------------------------------------------------------------------
  // POST

  /** The vital signs a request sends: a JSON object (its values kept as
      JSON text), or any other JSON value. */
  datatype VitalSignsInput = VitalRecord(entries: map<string, string>) | NotARecord

  datatype CreateInput = CreateInput(
    appointmentId: Option<string>, patientId: Option<string>, doctorId: Option<string>,
    chiefComplaint: Option<string>, diagnosis: Option<string>, notes: Option<string>,
    vitalSigns: Option<VitalSignsInput>, status: Option<string>)

  /** The create schema: four non-empty ids and complaint, vital signs that
      are an object when sent, and a status from the list when one is
      sent. */
  predicate ValidCreate(input: CreateInput) {
    Truthy(input.appointmentId) && Truthy(input.patientId) && Truthy(input.doctorId) &&
    Truthy(input.chiefComplaint) && (input.vitalSigns.None? || input.vitalSigns.value.VitalRecord?) &&
    (input.status.None? || input.status.value in StatusValues)
  }

  /** The status stored for a valid request: the one sent, else the
      schema's default, upper-cased. */
  function CreateStatus(input: CreateInput): (r: string)
    requires ValidCreate(input)
    ensures ReturnedStatus(r) in StatusValues
    ensures input.status.None? ==> ReturnedStatus(r) == DefaultStatus
    ensures input.status.Some? ==> ReturnedStatus(r) == input.status.value
  {
    var s := if input.status.Some? then input.status.value else DefaultStatus;
    StatusRoundTrip(s);
    StoredStatus(s)
  }

  // ---------------------------------------------------------------------
  // The consultation date

  /** `/^(\d{1,2}):(\d{2})$/`: one or two hour digits, a colon and two
      minute digits, with nothing around them; no range check. */
  function MatchStartTime(s: string): (r: Option<(nat, nat)>)
    ensures r.Some? ==> r.value.0 < 100 && r.value.1 < 100
    ensures r.Some? ==> (|s| == 4 || |s| == 5) && s[|s| - 3] == ':'
  {
    if |s| == 4 && IsDigit(s[0]) && s[1] == ':' && IsDigit(s[2]) && IsDigit(s[3]) then
      Some((DigitValue(s[0]), DigitValue(s[2]) * 10 + DigitValue(s[3])))
    else if |s| == 5 && IsDigit(s[0]) && IsDigit(s[1]) && s[2] == ':' && IsDigit(s[3]) && IsDigit(s[4]) then
      Some((DigitValue(s[0]) * 10 + DigitValue(s[1]), DigitValue(s[3]) * 10 + DigitValue(s[4])))
    else None
  }

  /** Every zero-padded "HH:MM" matches, with its own fields. */
  lemma MatchesClockText(s: string)
    requires WellFormedClock(s)
    ensures MatchStartTime(s) == Some((ClockHours(s), ClockMins(s)))
  {
  }

  /** A one-digit hour matches too, and so do out-of-range fields. */
  lemma MatchExamples()
    ensures MatchStartTime("9:05") == Some((9, 5))
    ensures MatchStartTime("99:99") == Some((99, 99))
    ensures MatchStartTime("9:5").None?
    ensures MatchStartTime("09:05 ").None?
  {
  }

  const MsPerMinute := 60000
  const MsPerDay := 86400000

  /** `date.setHours(h, m, 0, 0)` with the server's clock on UTC: the start
      of the date's day plus the given hours and minutes, carrying into
      later days when they are out of range. */
  function SetHours(date: int, h: nat, m: nat): int {
    date - date % 86400000 + (h * 60 + m) * 60000
  }

  /** Hours below 24 and minutes below 60 stay on the same day, at that
      time of day. */
  lemma SetHoursSameDay(date: int, h: nat, m: nat)
    requires h < 24 && m < 60
    ensures SetHours(date, h, m) / MsPerDay == date / MsPerDay
    ensures SetHours(date, h, m) % MsPerDay == (h * 60 + m) * MsPerMinute
  {
    var start := date - date % 86400000;
    assert start == (date / 86400000) * 86400000;
    var offset := (h * 60 + m) * 60000;
    assert 0 <= offset < 86400000;
  }

  /** The consultation's date: the appointment's date with its start time
      applied when the start time matches the pattern, else the date as it
      is. */
  function ConsultationDate(appointmentDate: int, startTime: string): (r: int)
    ensures MatchStartTime(startTime).None? ==> r == appointmentDate
    ensures MatchStartTime(startTime).Some? ==>
              r == SetHours(appointmentDate, MatchStartTime(startTime).value.0, MatchStartTime(startTime).value.1)
  {
    match MatchStartTime(startTime)
    case None => appointmentDate
    case Some((h, m)) => SetHours(appointmentDate, h, m)
  }

  /** For a time of day the consultation starts on the appointment's day at
      that time. */
  lemma ConsultationAtStartTime(appointmentDate: int, startTime: string)
    requires TimeOfDay(startTime)
    ensures ConsultationDate(appointmentDate, startTime) / MsPerDay == appointmentDate / MsPerDay
    ensures ConsultationDate(appointmentDate, startTime) % MsPerDay == ClockMinutes(startTime) * MsPerMinute
  {
    MatchesClockText(startTime);
    SetHoursSameDay(appointmentDate, ClockHours(startTime), ClockMins(startTime));
  }

  // ---------------------------------------------------------------------
  // One consultation per appointment

  /** The first consultation of this clinic recorded for the appointment:
      the duplicate check's lookup. */
  function ConsultationFor(consultations: seq<Consultation>, appointmentId: string, clinicId: string)
    : (r: Option<Consultation>)
    ensures r.Some? ==> r.value in consultations && r.value.appointmentId == appointmentId && r.value.clinicId == clinicId
    ensures r.None? <==> forall c :: c in consultations ==> !(c.appointmentId == appointmentId && c.clinicId == clinicId)
  {
    if consultations == [] then None
    else if consultations[0].appointmentId == appointmentId && consultations[0].clinicId == clinicId then Some(consultations[0])
    else
      assert forall c :: c in consultations ==> c == consultations[0] || c in consultations[1..];
      ConsultationFor(consultations[1..], appointmentId, clinicId)
  }

  /** No two consultations of one clinic record the same appointment. */
  ghost predicate OneConsultationPerAppointment(consultations: seq<Consultation>) {
    forall i, j ::
      (0 <= i < j < |consultations| && consultations[i].clinicId == consultations[j].clinicId) ==>
      consultations[i].appointmentId != consultations[j].appointmentId
  }

  /** Adding a consultation only when the lookup finds none keeps the rule. */
  lemma AddKeepsOnePerAppointment(consultations: seq<Consultation>, c: Consultation)
    requires OneConsultationPerAppointment(consultations)
    requires ConsultationFor(consultations, c.appointmentId, c.clinicId).None?
    ensures OneConsultationPerAppointment(consultations + [c])
  {
    var s := consultations + [c];
    forall i, j | 0 <= i < j < |s| && s[i].clinicId == s[j].clinicId
      ensures s[i].appointmentId != s[j].appointmentId
    {
      assert s[i] == consultations[i];
      if j == |consultations| {
        assert consultations[i] in consultations;
      } else {
        assert s[j] == consultations[j];
      }
    }
  }

  /** The fields of a stored consultation the list filter can name. */
  function ConsultationRow(c: Consultation): (r: Row)
    ensures r.Keys == {"clinicId", "patientId", "doctorId", "status"}
    ensures r["clinicId"] == c.clinicId && r["patientId"] == c.patientId
    ensures r["doctorId"] == c.doctorId && r["status"] == c.status
  {
    map["clinicId" := c.clinicId, "patientId" := c.patientId, "doctorId" := c.doctorId, "status" := c.status]
  }

  /** A consultation the list returns: the session clinic's, and matching
      each query parameter that is given and non-empty, the status compared
      upper-cased. */
  predicate Listed(c: Consultation, clinicId: string, patientId: Option<string>, doctorId: Option<string>,
                   status: Option<string>) {
    c.clinicId == clinicId &&
    (Truthy(patientId) ==> c.patientId == patientId.value) &&
    (Truthy(doctorId) ==> c.doctorId == doctorId.value) &&
    (Truthy(status) ==> c.status == StoredStatus(status.value))
  }

  /** The list filter holds of a consultation exactly when it is listed. */
  lemma ListFilterSelectsListed(c: Consultation, clinicId: string, patientId: Option<string>,
                                doctorId: Option<string>, status: Option<string>)
    ensures Holds(Some(ListFilter(clinicId, patientId, doctorId, status)), ConsultationRow(c))
            <==> Listed(c, clinicId, patientId, doctorId, status)
  {
    var f := ListFilter(clinicId, patientId, doctorId, status);
    var row := ConsultationRow(c);
    if Listed(c, clinicId, patientId, doctorId, status) {
      forall k | k in f
        ensures k in row && row[k] == f[k]
      {
      }
    }
    if Holds(Some(f), row) {
      assert row["clinicId"] == f["clinicId"];
      if Truthy(patientId) {
        assert row["patientId"] == f["patientId"];
      }
      if Truthy(doctorId) {
        assert row["doctorId"] == f["doctorId"];
      }
      if Truthy(status) {
        assert row["status"] == f["status"];
      }
    }
  }

  /** The consultation a valid request creates: the ids from the request
      (not from the appointment), the date from the appointment's date and
      start time, and the requested or default status in upper case. */
  function NewConsultation(id: string, clinicId: string, appointment: Appointment, input: CreateInput)
    : (r: Consultation)
    requires ValidCreate(input)
    ensures r.clinicId == clinicId && r.appointmentId == input.appointmentId.value
    ensures r.patientId == input.patientId.value && r.doctorId == input.doctorId.value
    ensures r.date == ConsultationDate(appointment.date, appointment.startTime)
    ensures ReturnedStatus(r.status) == (if input.status.Some? then input.status.value else DefaultStatus)
    ensures r.chiefComplaint == input.chiefComplaint.value && r.diagnosis == input.diagnosis && r.notes == input.notes
    ensures r.vitalSigns.Some? <==> input.vitalSigns.Some?
    ensures r.vitalSigns.Some? ==> r.vitalSigns.value == input.vitalSigns.value.entries
  {
    Consultation(id, clinicId, input.appointmentId.value, input.patientId.value, input.doctorId.value,
                 input.chiefComplaint.value, input.diagnosis, input.notes,
                 if input.vitalSigns.Some? then Some(input.vitalSigns.value.entries) else None,
                 ConsultationDate(appointment.date, appointment.startTime), CreateStatus(input))
  }

  /** A consultation as the API returns it: the status in lower case. */
  function Presented(cs: seq<Consultation>): (r: seq<Consultation>)
    ensures |r| == |cs|
    ensures forall i :: 0 <= i < |r| ==> r[i] == cs[i].(status := ReturnedStatus(cs[i].status))
  {
    seq(|cs|, i requires 0 <= i < |cs| => cs[i].(status := ReturnedStatus(cs[i].status)))
  }
}
