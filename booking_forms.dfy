/** The client side of appointment booking: the staff booking page, the
    patient self-booking page and the reschedule / complete / cancel actions.
    Each page's form is component state; submitting computes missing start
    and end times from the chosen service's duration and builds the body of
    the POST to the appointments API. */
module BookingForms {
  import opened Text
  import opened Times

  /** The booking form as its inputs hold it. */
  datatype Form = Form(
    patientId: string, serviceId: string, doctorId: string, date: string,
    time: string, startTime: string, endTime: string, notes: string)

  const EmptyForm := Form("", "", "", "", "", "", "", "")

  /** A service from the services list; its duration in minutes may be null. */
  datatype Service = Service(id: string, duration: Option<int>)

  /** The JSON body sent to the appointments API. `serviceId` is None when
      the key is left out of the body (an `undefined` value). */
  datatype AppointmentRequest = AppointmentRequest(
    patientId: string, doctorId: string, serviceId: Option<string>,
    appointmentDate: string, startTime: string, endTime: string, notes: string)

  /** `services.find((s) => s.id === id)`: the first service with that id. */
  function FindService(services: seq<Service>, id: string): (r: Option<Service>)
    ensures r.Some? ==> r.value in services && r.value.id == id
    ensures r.None? <==> forall s :: s in services ==> s.id != id
    ensures r.Some? ==> exists k :: 0 <= k < |services| && services[k] == r.value &&
                          forall j :: 0 <= j < k ==> services[j].id != id
  {
    if services == [] then None
    else if services[0].id == id then Some(services[0])
    else
      var r := FindService(services[1..], id);
      assert forall s :: s in services[1..] ==> s in services;
      if r.Some? then
        var k :| 0 <= k < |services[1..]| && services[1..][k] == r.value &&
                 forall j :: 0 <= j < k ==> services[1..][j].id != id;
        assert services[k + 1] == r.value;
        assert forall j :: 0 <= j < k + 1 ==> services[j].id != id;
        r
      else
        assert forall s :: s in services ==> s == services[0] || s in services[1..];
        r
  }

  /** `Number(svc.duration || 0)`: a null duration counts as zero minutes. */
  function DurationOf(s: Service): int {
    match s.duration
    case Some(d) => d
    case None => 0
  }

  /** Start and end text for a slot beginning at the time written in `time`
      and lasting `minutes`: both are read back from Dates set to that time
      of day and to that time plus the duration. */
  function SlotFrom(time: string, minutes: int): (string, string) {
    (ShiftedClock(time, 0), ShiftedClock(time, minutes))
  }

  /** The slot is zero-padded "HH:MM" text: its start is the typed time and
      its end lies `minutes` after it, both modulo a day; a time of day
      starts where it was written; a zero duration gives an empty slot;
      unreadable text gives "NaN:NaN". */
  lemma SlotFacts(time: string, minutes: int)
    ensures ZeroPaddedClock(time) ==>
              TimeOfDay(SlotFrom(time, minutes).0) && TimeOfDay(SlotFrom(time, minutes).1) &&
              ClockMinutes(SlotFrom(time, minutes).0) == ClockMinutes(time) % 1440 &&
              ClockMinutes(SlotFrom(time, minutes).1) == (ClockMinutes(time) + minutes) % 1440
    ensures TimeOfDay(time) ==> SlotFrom(time, minutes).0 == time
    ensures minutes == 0 ==> SlotFrom(time, minutes).0 == SlotFrom(time, minutes).1
    ensures ParseClock(time).None? ==> SlotFrom(time, minutes) == ("NaN:NaN", "NaN:NaN")
  {
    if ZeroPaddedClock(time) {
      SlotStart(time, minutes);
      SlotEnd(time, minutes);
    }
    if TimeOfDay(time) {
      ShiftByZero(time);
    }
  }

  lemma SlotStart(time: string, minutes: int)
    requires ZeroPaddedClock(time)
    ensures TimeOfDay(SlotFrom(time, minutes).0) && ClockMinutes(SlotFrom(time, minutes).0) == ClockMinutes(time) % 1440
  {
    ShiftedTimeOfDay(time, 0);
  }

  lemma SlotEnd(time: string, minutes: int)
    requires ZeroPaddedClock(time)
    ensures TimeOfDay(SlotFrom(time, minutes).1) && ClockMinutes(SlotFrom(time, minutes).1) == (ClockMinutes(time) + minutes) % 1440
  {
    ShiftedTimeOfDay(time, minutes);
  }

  /** The submit condition: a time is missing and a time of day and a
      service are chosen. */
  predicate NeedsTimes(form: Form) {
    (form.startTime == "" || form.endTime == "") && form.time != "" && form.serviceId != ""
  }

  /** The `let startTime`/`let endTime` computation that both booking pages
      run on submit: recomputed only when needed and the service is known. */
  method ComputeTimes(form: Form, services: seq<Service>) returns (startTime: string, endTime: string)
    ensures !NeedsTimes(form) || FindService(services, form.serviceId).None? ==>
              startTime == form.startTime && endTime == form.endTime
    ensures NeedsTimes(form) && FindService(services, form.serviceId).Some? ==>
              (startTime, endTime)
                == SlotFrom(form.time, DurationOf(FindService(services, form.serviceId).value))
  {
    startTime := form.startTime;
    endTime := form.endTime;
    if (startTime == "" || endTime == "") && form.time != "" && form.serviceId != "" {
      var svc := FindService(services, form.serviceId);
      if svc.Some? {
        var minutes := DurationOf(svc.value);
        startTime := ShiftedClock(form.time, 0);
        endTime := ShiftedClock(form.time, minutes);
      }
    }
  }

  /** The time input's change handler, as a new form: the time is stored and,
      when the current service is known and the value is non-empty, the start
      and end times are recomputed from it. */
  function TimeChanged(form: Form, value: string, services: seq<Service>): (r: Form)
    ensures r.time == value
    ensures r.(startTime := form.startTime, endTime := form.endTime) == form.(time := value)
    ensures FindService(services, form.serviceId).Some? && value != "" ==>
              (r.startTime, r.endTime)
                == SlotFrom(value, DurationOf(FindService(services, form.serviceId).value))
    ensures FindService(services, form.serviceId).None? || value == "" ==>
              r == form.(time := value)
  {
    var svc := FindService(services, form.serviceId);
    if svc.Some? && value != "" then
      var slot := SlotFrom(value, DurationOf(svc.value));
      form.(time := value, startTime := slot.0, endTime := slot.1)
    else form.(time := value)
  }

  /** Every slot text is non-empty, "NaN:NaN" included. */
  lemma ShiftedNonEmpty(time: string, minutes: int)
    ensures ShiftedClock(time, minutes) != ""
  {
    if ParseClock(time).Some? {
      assert TimeOfDay(ShiftedClock(time, minutes));
    }
  }

  /** Once the time handler has filled both times, submit keeps them, even
      after the service is changed. */
  lemma NoRecomputeAfterTimeChange(form: Form, value: string, services: seq<Service>, later: string)
    requires FindService(services, form.serviceId).Some? && value != ""
    ensures !NeedsTimes(TimeChanged(form, value, services).(serviceId := later))
  {
    var svc := FindService(services, form.serviceId).value;
    ShiftedNonEmpty(value, 0);
    ShiftedNonEmpty(value, DurationOf(svc));
  }

  // ---------------------------------------------------------------------
  // The staff booking page

  class DashboardBookingPage {
    var form: Form
    var services: seq<Service>

    constructor (services: seq<Service>)
      ensures form == EmptyForm && this.services == services
    {
      form := EmptyForm;
      this.services := services;
    }

    /** `handleChange` for the time input, then the recompute. */
    method OnTimeChange(value: string)
      modifies this
      ensures services == old(services)
      ensures form == TimeChanged(old(form), value, services)
    {
      var svc := FindService(services, form.serviceId);
      form := form.(time := value);
      if svc.Some? && value != "" {
        var slot := SlotFrom(value, DurationOf(svc.value));
        form := form.(startTime := slot.0, endTime := slot.1);
      }
    }

    /** The request body `handleSubmit` posts: `date` goes out as
        `appointmentDate` and the service id is sent as it is. */
    method HandleSubmit() returns (req: AppointmentRequest)
      ensures req.patientId == form.patientId && req.doctorId == form.doctorId
      ensures req.serviceId == Some(form.serviceId)
      ensures req.appointmentDate == form.date && req.notes == form.notes
      ensures !NeedsTimes(form) || FindService(services, form.serviceId).None? ==>
                req.startTime == form.startTime && req.endTime == form.endTime
      ensures NeedsTimes(form) && FindService(services, form.serviceId).Some? ==>
                (req.startTime, req.endTime)
                  == SlotFrom(form.time, DurationOf(FindService(services, form.serviceId).value))
    {
      var startTime, endTime := ComputeTimes(form, services);
      req := AppointmentRequest(form.patientId, form.doctorId, Some(form.serviceId),
                                form.date, startTime, endTime, form.notes);
    }
  }

  // ---------------------------------------------------------------------
  // The patient self-booking page

  /** A row of the patients list, with its user's email and phone, each
      absent when the user or the field is missing. */
  datatype PatientEntry = PatientEntry(id: string, email: Option<string>, phone: Option<string>)

  /** The signed-in user as the user endpoint returns it. */
  datatype CurrentUser = CurrentUser(email: Option<string>, phone: Option<string>)

  /** `pt.user?.email === user.email || pt.user?.phone === user.phone`;
      two absent values are equal. */
  predicate IsCurrentUser(p: PatientEntry, user: CurrentUser) {
    p.email == user.email || p.phone == user.phone
  }

  /** The first patient that is the current user. */
  function FindSelf(patients: seq<PatientEntry>, user: CurrentUser): (r: Option<PatientEntry>)
    ensures r.Some? ==> r.value in patients && IsCurrentUser(r.value, user)
    ensures r.None? <==> forall p :: p in patients ==> !IsCurrentUser(p, user)
    ensures r.Some? ==> exists k :: 0 <= k < |patients| && patients[k] == r.value &&
                          forall j :: 0 <= j < k ==> !IsCurrentUser(patients[j], user)
  {
    if patients == [] then None
    else if IsCurrentUser(patients[0], user) then Some(patients[0])
    else
      var r := FindSelf(patients[1..], user);
      assert forall p :: p in patients[1..] ==> p in patients;
      if r.Some? then
        var k :| 0 <= k < |patients[1..]| && patients[1..][k] == r.value &&
                 forall j :: 0 <= j < k ==> !IsCurrentUser(patients[1..][j], user);
        assert patients[k + 1] == r.value;
        assert forall j :: 0 <= j < k + 1 ==> !IsCurrentUser(patients[j], user);
        r
      else
        assert forall p :: p in patients ==> p == patients[0] || p in patients[1..];
        r
  }

  /** What submitting the self-booking form does: post a request, or stop
      with a message before any request is made. */
  datatype PortalOutcome = Post(req: AppointmentRequest) | Refused(message: string)

  const NoPatientMessage := "Could not resolve patient record for current user"

  /** The message shown when the API answers with an error status: the
      body's `error` field when present and non-empty, else a fixed text. */
  function FailureMessage(bodyError: Option<string>): (r: string)
    ensures Truthy(bodyError) ==> r == bodyError.value
    ensures !Truthy(bodyError) ==> r == "Failed to create appointment"
  {
    OrElse(bodyError, "Failed to create appointment")
  }

  class PortalBookingPage {
    var form: Form
    var services: seq<Service>

    constructor (services: seq<Service>)
      ensures form == EmptyForm && this.services == services
    {
      form := EmptyForm;
      this.services := services;
    }

    /** The mount effect's pre-fill: when the user and the patients list
        both loaded, the patient id becomes that of the first patient that
        is the current user; otherwise the form is left as it is. */
    method Prefill(patients: seq<PatientEntry>, user: Option<CurrentUser>)
      modifies this
      ensures services == old(services)
      ensures user.Some? && FindSelf(patients, user.value).Some? ==>
                form == old(form).(patientId := FindSelf(patients, user.value).value.id)
      ensures user.None? || FindSelf(patients, user.value).None? ==> form == old(form)
    {
      if user.Some? {
        var me := FindSelf(patients, user.value);
        if me.Some? {
          form := form.(patientId := me.value.id);
        }
      }
    }

    method OnTimeChange(value: string)
      modifies this
      ensures services == old(services)
      ensures form == TimeChanged(old(form), value, services)
    {
      var svc := FindService(services, form.serviceId);
      form := form.(time := value);
      if svc.Some? && value != "" {
        var slot := SlotFrom(value, DurationOf(svc.value));
        form := form.(startTime := slot.0, endTime := slot.1);
      }
    }

    /** `handleSubmit`: without a patient id nothing is sent; otherwise the
        body carries the computed times and leaves out an empty service id. */
    method HandleSubmit() returns (outcome: PortalOutcome)
      ensures form.patientId == "" <==> outcome == Refused(NoPatientMessage)
      ensures outcome.Post? ==>
                outcome.req.patientId == form.patientId && outcome.req.doctorId == form.doctorId &&
                outcome.req.appointmentDate == form.date && outcome.req.notes == form.notes &&
                (outcome.req.serviceId == if form.serviceId == "" then None else Some(form.serviceId))
      ensures outcome.Post? && (!NeedsTimes(form) || FindService(services, form.serviceId).None?) ==>
                outcome.req.startTime == form.startTime && outcome.req.endTime == form.endTime
      ensures outcome.Post? && NeedsTimes(form) && FindService(services, form.serviceId).Some? ==>
                (outcome.req.startTime, outcome.req.endTime)
                  == SlotFrom(form.time, DurationOf(FindService(services, form.serviceId).value))
    {
      var startTime, endTime := ComputeTimes(form, services);
      if form.patientId == "" {
        return Refused(NoPatientMessage);
      }
      var serviceId := if form.serviceId == "" then None else Some(form.serviceId);
      outcome := Post(AppointmentRequest(form.patientId, form.doctorId, serviceId,
                                         form.date, startTime, endTime, form.notes));
    }
  }

  // ---------------------------------------------------------------------
  // The appointment actions: reschedule, mark completed, cancel

  /** A request the actions send to the appointment's own endpoint. */
  datatype ActionRequest = Patch(fields: map<string, string>) | Delete | NoRequest

  /** `hh * 60 + mm` after `'HH:MM'.split(':').map(Number)`, with no
      rounding; NaN as None. */
  function ReadMinutes(text: string): Option<real> {
    match ClockNumbers(text)
    case Some((h, m)) => Some(h * 60.0 + m)
    case None => None
  }

  /** The stored slot's length in minutes; a missing time reads as "00:00". */
  function StoredDuration(startTime: Option<string>, endTime: Option<string>): (r: Option<real>)
    ensures (ReadMinutes(OrElse(startTime, "00:00")).Some? &&
             ReadMinutes(OrElse(endTime, "00:00")).Some?) ==>
              r == Some(ReadMinutes(OrElse(endTime, "00:00")).value
                        - ReadMinutes(OrElse(startTime, "00:00")).value)
    ensures (ReadMinutes(OrElse(startTime, "00:00")).None? ||
             ReadMinutes(OrElse(endTime, "00:00")).None?) ==> r.None?
  {
    Difference(ReadMinutes(OrElse(startTime, "00:00")), ReadMinutes(OrElse(endTime, "00:00")))
  }

  /** `end - start` on numbers that may be NaN. */
  function Difference(start: Option<real>, end: Option<real>): (r: Option<real>)
    ensures start.Some? && end.Some? ==> r == Some(end.value - start.value)
    ensures start.None? || end.None? ==> r.None?
  {
    if start.Some? && end.Some? then Some(end.value - start.value) else None
  }

  /** Zero-padded stored times give their minutes-of-day difference, and a
      missing time counts as midnight. */
  lemma StoredDurationOfClocks(startTime: Option<string>, endTime: Option<string>)
    requires ZeroPaddedClock(OrElse(startTime, "00:00")) && ZeroPaddedClock(OrElse(endTime, "00:00"))
    ensures StoredDuration(startTime, endTime)
              == Some((ClockMinutes(OrElse(endTime, "00:00")) - ClockMinutes(OrElse(startTime, "00:00"))) as real)
  {
    ClocksDifference(OrElse(startTime, "00:00"), OrElse(endTime, "00:00"));
  }

  lemma ClocksDifference(s: string, e: string)
    requires ZeroPaddedClock(s) && ZeroPaddedClock(e)
    ensures Difference(ReadMinutes(s), ReadMinutes(e)) == Some((ClockMinutes(e) - ClockMinutes(s)) as real)
  {
    ClockRead(s);
    ClockRead(e);
  }

  lemma ClockRead(s: string)
    requires ZeroPaddedClock(s)
    ensures ReadMinutes(s) == Some(ClockMinutes(s) as real)
  {
    ParseZeroPadded(s);
  }

  /** `Math.max(15, d)`. */
  function AtLeastFifteen(d: real): real {
    if d < 15.0 then 15.0 else d
  }

  /** The new end: `setHours(nh, nm, 0, 0)` on the new start, plus
      `Math.max(15, d)` minutes, read back with `getMinutes`, which drops
      the fraction of a minute the whole-minute start does not have; NaN
      anywhere gives "NaN:NaN". */
  function RescheduledEnd(newTime: string, duration: Option<real>): string {
    match duration
    case Some(d) => ShiftedClock(newTime, AtLeastFifteen(d).Floor)
    case None => "NaN:NaN"
  }

  /** A stored duration up to fifteen minutes gives a fifteen-minute slot,
      and a longer one is kept to the whole minute below, modulo a day. */
  lemma RescheduledEndFacts(newTime: string, d: real)
    requires ZeroPaddedClock(newTime)
    ensures TimeOfDay(RescheduledEnd(newTime, Some(d)))
    ensures d <= 15.0 ==>
              ClockMinutes(RescheduledEnd(newTime, Some(d))) == (ClockMinutes(newTime) + 15) % 1440
    ensures 15.0 <= d ==>
              ClockMinutes(RescheduledEnd(newTime, Some(d))) == (ClockMinutes(newTime) + d.Floor) % 1440
  {
    var k := AtLeastFifteen(d).Floor;
    WholeMinutesAdded(d);
    ShiftedTimeOfDay(newTime, k);
  }

  /** The whole minutes of `Math.max(15, d)`. */
  lemma WholeMinutesAdded(d: real)
    ensures d <= 15.0 ==> AtLeastFifteen(d).Floor == 15
    ensures 15.0 <= d ==> AtLeastFifteen(d).Floor == d.Floor
  {
  }

  /** A fractional stored minute is carried into the duration and only
      dropped at the end: a 09:00.5 to 10:00 slot lasts 59.5 minutes, so
      moved to 11:00 it ends at 11:59. */
  lemma FractionalMinuteKept()
    ensures StoredDuration(Some("09:00.5"), Some("10:00")) == Some(59.5)
    ensures RescheduledEnd("11:00", Some(59.5)) == "11:59"
  {
    HalfMinuteRead();
    TenOClockRead();
    EndAtElevenFiftyNine();
  }

  lemma HalfMinuteRead()
    ensures ReadMinutes("09:00.5") == Some(540.5)
  {
    HalfMinuteFields();
    HalfMinuteNumber();
    NineNumber();
    assert ClockNumbers("09:00.5") == Some((9.0, 0.5));
  }

  lemma NineNumber()
    ensures JsNumber("09") == Some(9.0)
  {
    DecimalTwoDigits("09");
  }

  lemma HalfMinuteFields()
    ensures Split("09:00.5", ':') == ["09", "00.5"]
  {
    SplitAround("09", "00.5", ':');
    assert "09" + [':'] + "00.5" == "09:00.5";
  }

  lemma HalfMinuteNumber()
    ensures JsNumber("00.5") == Some(0.5)
  {
    SplitAround("00", "5", '.');
    assert "00" + ['.'] + "5" == "00.5";
    assert DigitsValue("00") == 0 && DigitsValue("5") == 5;
  }

  lemma TenOClockRead()
    ensures ReadMinutes("10:00") == Some(600.0)
  {
    ParseZeroPadded("10:00");
  }

  lemma EndAtElevenFiftyNine()
    ensures RescheduledEnd("11:00", Some(59.5)) == "11:59"
  {
    WholeMinutesAdded(59.5);
    ShiftedIsFormatted("11:00", 59);
    FormatClockOfFields(11, 59);
    assert 11 * 60 + 59 == ClockMinutes("11:00") + 59;
  }

  /** `reschedule`: the two prompt answers (None when dismissed) lead to a
      PATCH of exactly the date, the new start and the new end, or to no
      request when either answer is empty. */
  method Reschedule(startTime: Option<string>, endTime: Option<string>,
                    dateAnswer: Option<string>, timeAnswer: Option<string>)
    returns (req: ActionRequest)
    ensures !Truthy(dateAnswer) || !Truthy(timeAnswer) <==> req == NoRequest
    ensures req.Patch? ==>
              req.fields.Keys == {"appointmentDate", "startTime", "endTime"} &&
              req.fields["appointmentDate"] == dateAnswer.value &&
              req.fields["startTime"] == timeAnswer.value &&
              req.fields["endTime"] == RescheduledEnd(timeAnswer.value, StoredDuration(startTime, endTime))
    ensures req != Delete
  {
    if !Truthy(dateAnswer) {
      return NoRequest;
    }
    var newDate := dateAnswer.value;
    if !Truthy(timeAnswer) {
      return NoRequest;
    }
    var newTime := timeAnswer.value;
    var duration := StoredDuration(startTime, endTime);
    var end := RescheduledEnd(newTime, duration);
    req := Patch(map["appointmentDate" := newDate, "startTime" := newTime, "endTime" := end]);
  }

  /** The date the reschedule prompt offers: the date part of the ISO text
      of the appointment's date, or of today when it has none. */
  function DefaultDate(appointmentIso: Option<string>, todayIso: string): (r: string)
    ensures 'T' !in r
    ensures Truthy(appointmentIso) ==>
              |r| <= |appointmentIso.value| && r == appointmentIso.value[..|r|]
    ensures !Truthy(appointmentIso) ==> |r| <= |todayIso| && r == todayIso[..|r|]
  {
    var iso := OrElse(appointmentIso, todayIso);
    BeforeIsPrefix(iso, 'T');
    Before(iso, 'T')
  }

  /** `markCompleted`: a PATCH of the status alone. */
  function MarkCompleted(): (req: ActionRequest)
    ensures req.Patch? && req.fields.Keys == {"status"} && req.fields["status"] == "COMPLETED"
  {
    Patch(map["status" := "COMPLETED"])
  }

  /** `cancel`: a DELETE only once the user confirms. */
  function Cancel(confirmed: bool): (req: ActionRequest)
    ensures confirmed <==> req == Delete
    ensures !confirmed ==> req == NoRequest
  {
    if confirmed then Delete else NoRequest
  }
}
