/** The request schemas of api/validators/appointment.ts: what a create, an
    update and an available-slots request must satisfy, and the values the
    controllers take from a request that passes. Dates are whole minutes; a
    duration is a JavaScript number, so it is modelled as a `real` and must
    be integral. "now" is a parameter. */
module AppointmentValidator {
  import opened Outcomes
  import opened AppointmentModel
  import opened Text

  /** `Joi.number().integer()`: a number with no fractional part. */
  predicate IsInteger(x: real) {
    x.Floor as real == x
  }

  /** `Joi.string()`: a string field, when present, may not be empty. */
  predicate NonEmptyIfPresent(s: Option<string>) {
    s.Some? ==> s.value != ""
  }

  /** The duration rule of both appointment schemas: a whole number of
      minutes from 15 to 480, the schema's own bounds. */
  function AppointmentDuration(x: real): (r: Option<int>)
    ensures r.Some? <==> IsInteger(x) && MinDuration as real <= x <= MaxDuration as real
    ensures r.Some? ==> r.value as real == x && MinDuration <= r.value <= MaxDuration
  {
    if IsInteger(x) && MinDuration as real <= x <= MaxDuration as real then Some(x.Floor) else None
  }

  /** Both bounds are inclusive; fractions and values just outside are refused. */
  lemma AppointmentDurationBoundaries()
    ensures AppointmentDuration(15.0) == Some(15) && AppointmentDuration(480.0) == Some(480)
    ensures AppointmentDuration(14.0) == None && AppointmentDuration(481.0) == None
    ensures AppointmentDuration(30.5) == None
  {
  }

  /** `Joi.date().min('now')`: the start may be now or later, never earlier. */
  predicate NotInPast(start: int, now: int) {
    start >= now
  }

  /** A status field, when present, names one of the five statuses; the
      update schema and the search schema share this rule. `None` means the
      field is refused; `Some(None)` means it is absent. */
  function StatusField(s: Option<string>): (r: Option<Option<Status>>)
    ensures r.Some? <==> (s.None? || exists st :: StatusName(st) == s.value)
    ensures r.Some? && s.Some? ==> r.value.Some? && StatusName(r.value.value) == s.value
    ensures s.None? ==> r == Some(None)
  {
    match s
    case None => Some(None)
    case Some(name) =>
      var p := ParseStatus(name);
      if p.None? then None else Some(p)
  }

  // ---------------------------------------------------------------------
  // Create

  datatype CreateRequest = CreateRequest(
    patientId: Option<string>,
    dentistId: Option<string>,
    dateTime: Option<int>,
    duration: Option<real>,
    treatmentType: Option<string>,
    notes: Option<string>)

  /** The values of a create request that passed `createAppointmentSchema`. */
  datatype NewAppointment = NewAppointment(
    patientId: string,
    dentistId: string,
    start: int,
    duration: int,
    treatmentType: string,
    notes: Option<string>)

  /** `createAppointmentSchema`: patient, dentist, start, duration and
      treatment type are required; the ids and the type may not be empty;
      the start may not be in the past; the duration is a whole number of
      minutes from 15 to 480; the notes are optional and may be empty. */
  function ValidateCreate(req: CreateRequest, now: int): (r: Option<NewAppointment>)
    ensures r.Some? <==>
      && req.patientId.Some? && req.patientId.value != ""
      && req.dentistId.Some? && req.dentistId.value != ""
      && req.dateTime.Some? && NotInPast(req.dateTime.value, now)
      && req.duration.Some? && IsInteger(req.duration.value)
      && MinDuration as real <= req.duration.value <= MaxDuration as real
      && req.treatmentType.Some? && req.treatmentType.value != ""
    ensures r.Some? ==>
      && r.value.patientId == req.patientId.value && r.value.dentistId == req.dentistId.value
      && r.value.start == req.dateTime.value && r.value.start >= now
      && r.value.duration as real == req.duration.value
      && MinDuration <= r.value.duration <= MaxDuration
      && r.value.treatmentType == req.treatmentType.value && r.value.treatmentType != ""
      && r.value.notes == req.notes
  {
    if req.patientId.None? || req.patientId.value == "" then None
    else if req.dentistId.None? || req.dentistId.value == "" then None
    else if req.dateTime.None? || !NotInPast(req.dateTime.value, now) then None
    else if req.duration.None? then None
    else
      match AppointmentDuration(req.duration.value)
      case None => None
      case Some(d) =>
        if req.treatmentType.None? || req.treatmentType.value == "" then None
        else Some(NewAppointment(req.patientId.value, req.dentistId.value, req.dateTime.value,
                                 d, req.treatmentType.value, req.notes))
  }

  /** The create schema bounds the duration as the document schema does,
      but it checks the treatment type before the document's `trim` runs: a
      document holding an accepted request's duration and trimmed type
      meets the document schema exactly when that type is not all white
      space. */
  lemma CreateRequestMeetsSchema(req: CreateRequest, now: int, a: Appointment)
    requires ValidateCreate(req, now).Some?
    requires a.duration == ValidateCreate(req, now).value.duration
    requires a.treatmentType == Trim(ValidateCreate(req, now).value.treatmentType)
    ensures var t := ValidateCreate(req, now).value.treatmentType;
      SchemaValid(a) <==> !(forall i :: 0 <= i < |t| ==> IsWhitespace(t[i]))
  {
  }

  /** A treatment type of one space passes the create schema, and the
      document's `trim` then leaves the required type empty. */
  lemma BlankTreatmentTypePassesRequest(now: int)
    ensures var req := CreateRequest(Some("p"), Some("d"), Some(now), Some(30.0), Some(" "), None);
      && ValidateCreate(req, now).Some?
      && Trim(ValidateCreate(req, now).value.treatmentType) == ""
  {
    assert IsWhitespace(" "[0]);
  }

  // ---------------------------------------------------------------------
  // Update

  datatype UpdateRequest = UpdateRequest(
    patientId: Option<string>,
    dentistId: Option<string>,
    dateTime: Option<int>,
    duration: Option<real>,
    status: Option<string>,
    treatmentType: Option<string>,
    notes: Option<string>)

  /** The values of an update request that passed `updateAppointmentSchema`:
      exactly the fields the request carried. */
  datatype Patch = Patch(
    patientId: Option<string>,
    dentistId: Option<string>,
    dateTime: Option<int>,
    duration: Option<int>,
    status: Option<Status>,
    treatmentType: Option<string>,
    notes: Option<string>)

  /** `updateAppointmentSchema`: every field is optional, but each one
      present obeys the create rules (no empty ids or type, no start in the
      past, a whole duration from 15 to 480) and a status must be one of the
      five names. */
  function ValidateUpdate(req: UpdateRequest, now: int): (r: Option<Patch>)
    ensures r.Some? <==>
      && NonEmptyIfPresent(req.patientId) && NonEmptyIfPresent(req.dentistId)
      && (req.dateTime.Some? ==> NotInPast(req.dateTime.value, now))
      && (req.duration.Some? ==>
            IsInteger(req.duration.value) && MinDuration as real <= req.duration.value <= MaxDuration as real)
      && (req.status.Some? ==> exists st :: StatusName(st) == req.status.value)
      && NonEmptyIfPresent(req.treatmentType)
    ensures r.Some? ==>
      && r.value.patientId == req.patientId && r.value.dentistId == req.dentistId
      && r.value.dateTime == req.dateTime && r.value.treatmentType == req.treatmentType
      && r.value.notes == req.notes
      && r.value.duration.Some? == req.duration.Some?
      && (r.value.duration.Some? ==>
            r.value.duration.value as real == req.duration.value && MinDuration <= r.value.duration.value <= MaxDuration)
      && r.value.status.Some? == req.status.Some?
      && (r.value.status.Some? ==> StatusName(r.value.status.value) == req.status.value)
  {
    if !NonEmptyIfPresent(req.patientId) || !NonEmptyIfPresent(req.dentistId) then None
    else if req.dateTime.Some? && !NotInPast(req.dateTime.value, now) then None
    else if !NonEmptyIfPresent(req.treatmentType) then None
    else
      var d := if req.duration.Some? then AppointmentDuration(req.duration.value) else None;
      if req.duration.Some? && d.None? then None
      else
        match StatusField(req.status)
        case None => None
        case Some(st) =>
          Some(Patch(req.patientId, req.dentistId, req.dateTime, d, st, req.treatmentType, req.notes))
  }

  /** The user interface's `no_show` spelling does not pass the update schema. */
  lemma UpdateRefusesUserInterfaceSpelling(now: int)
    ensures ValidateUpdate(UpdateRequest(None, None, None, None, Some("no_show"), None, None), now) == None
    ensures ValidateUpdate(UpdateRequest(None, None, None, None, Some("no-show"), None, None), now).Some?
  {
    assert StatusName(NoShow) == "no-show";
  }

  // ---------------------------------------------------------------------
  // Available slots

  datatype SlotQuery = SlotQuery(dentistId: Option<string>, date: Option<int>, duration: Option<real>)

  /** `availableSlotsSchema`: a dentist and a date are required; the slot
      length is a whole number of minutes from 15 to 120, 30 when absent.
      The result is the (dentist, date, slot length) the controller uses. */
  function ValidateSlotQuery(q: SlotQuery): (r: Option<(string, int, int)>)
    ensures r.Some? <==>
      && q.dentistId.Some? && q.dentistId.value != "" && q.date.Some?
      && (q.duration.Some? ==> IsInteger(q.duration.value) && 15.0 <= q.duration.value <= 120.0)
    ensures r.Some? ==> r.value.0 == q.dentistId.value && r.value.1 == q.date.value && 15 <= r.value.2 <= 120
    ensures r.Some? && q.duration.Some? ==> r.value.2 as real == q.duration.value
    ensures r.Some? && q.duration.None? ==> r.value.2 == 30
  {
    if q.dentistId.None? || q.dentistId.value == "" || q.date.None? then None
    else
      match q.duration
      case None => Some((q.dentistId.value, q.date.value, 30))
      case Some(x) =>
        if IsInteger(x) && 15.0 <= x <= 120.0 then Some((q.dentistId.value, q.date.value, x.Floor)) else None
  }

  /** A slot length that passes is positive, so both slot algorithms may be
      run with it, and it never exceeds an appointment's own upper bound. */
  lemma SlotQueryDurationUsable(q: SlotQuery)
    requires ValidateSlotQuery(q).Some?
    ensures 0 < ValidateSlotQuery(q).value.2 <= MaxDuration
    ensures AppointmentDuration(ValidateSlotQuery(q).value.2 as real).Some?
  {
  }
}
