/** The appointment handlers of api/controllers/appointmentController.ts:
    the conflict query of `createAppointment` and `updateAppointment`, the
    status transition table of `updateAppointmentStatus`, the delete guard,
    and the fixed slot grid of `getAvailableSlots`. The database is an
    in-memory sequence of appointment documents held by `AppointmentStore`;
    the patient lookup and the active-dentist lookup are given as booleans. */
module AppointmentController {
  import opened Outcomes
  import opened Query
  import opened AppointmentModel
  import opened AppointmentValidator
  import opened Text

  /** The refusals a handler can answer with (its 400, 404 and 409 replies). */
  datatype Error =
    | ValidationFailed
    | PatientNotFound
    | DentistNotFound
    | AppointmentNotFound
    | SchedulingConflict
    | InvalidStatus
    | InvalidTransition(from: Status, to: Status)
    | NotDeletable
    | SaveRefused   // the document schema refused the save; the handler answers with its server error

  // ---------------------------------------------------------------------
  // The conflict query

  /** One document matches the conflict query for a proposed
      [start, start + d): it is scheduled or confirmed, and either it began
      at or before `start` and runs past it, or it begins within the
      proposed span. The query reads the document's `appointmentDate`. For
      positive durations this is exactly half-open overlap, so bookings that
      only touch do not conflict. */
  function ConflictsWith(e: Appointment, start: int, d: int): (r: bool)
    ensures !IsActive(e.status) ==> !r
    ensures e.duration > 0 && d > 0 ==>
      (r <==> IsActive(e.status)
              && Overlap(Interval(start, start + d), Interval(e.appointmentDate, e.appointmentDate + e.duration)))
    ensures e.duration > 0 && e.appointmentDate + e.duration == start ==> !r
    ensures d > 0 && e.appointmentDate == start + d ==> !r
  {
    IsActive(e.status)
    && ((e.appointmentDate <= start && e.appointmentDate + e.duration > start)
        || (start <= e.appointmentDate < start + d))
  }

  /** For a document whose two start fields agree, the conflict query and
      `overlapsWith` give the same answer about an active appointment. */
  lemma ConflictAgreesWithOverlapsWith(e: Appointment, candidate: Appointment)
    requires e.appointmentDate == e.dateTime && IsActive(e.status)
    requires e.duration > 0 && candidate.duration > 0
    ensures ConflictsWith(e, candidate.dateTime, candidate.duration) <==> OverlapsWith(e, candidate)
  {
  }

  /** `findOne` on the conflict query finds something: some document of the
      dentist, other than the one being rescheduled, matches. */
  predicate HasConflict(records: seq<Appointment>, dentistId: string, start: int, d: int, exclude: Option<nat>) {
    exists e :: e in records && exclude != Some(e.id) && e.dentistId == dentistId && ConflictsWith(e, start, d)
  }

  predicate Consistent(records: seq<Appointment>) {
    forall a :: a in records ==> a.appointmentDate == a.dateTime
  }

  predicate PositiveDurations(records: seq<Appointment>) {
    forall a :: a in records ==> a.duration > 0
  }

  /** No two active appointments of one dentist overlap in time. */
  predicate NoDoubleBooking(records: seq<Appointment>) {
    forall i, j :: 0 <= i < j < |records| && records[i].dentistId == records[j].dentistId
      && IsActive(records[i].status) && IsActive(records[j].status)
      ==> !Overlap(Span(records[i]), Span(records[j]))
  }

  /** When the query field agrees with the start on every document, adding
      an appointment the conflict query let through keeps every dentist's
      active appointments apart. */
  lemma AcceptedBookingKeepsApart(records: seq<Appointment>, a: Appointment)
    requires Consistent(records) && PositiveDurations(records) && NoDoubleBooking(records)
    requires a.appointmentDate == a.dateTime && a.duration > 0
    requires !HasConflict(records, a.dentistId, a.dateTime, a.duration, None)
    ensures NoDoubleBooking(records + [a])
    ensures Consistent(records + [a]) && PositiveDurations(records + [a])
  {
    var rs := records + [a];
    forall i, j | 0 <= i < j < |rs| && rs[i].dentistId == rs[j].dentistId
      && IsActive(rs[i].status) && IsActive(rs[j].status)
      ensures !Overlap(Span(rs[i]), Span(rs[j]))
    {
      if j < |records| {
        assert rs[i] == records[i] && rs[j] == records[j];
      } else {
        var e := records[i];
        assert rs[i] == e && rs[j] == a && e in records;
        assert !ConflictsWith(e, a.dateTime, a.duration);
      }
    }
  }

  // ---------------------------------------------------------------------
  // Status transitions

  /** The `validTransitions` table. */
  function NextStatuses(s: Status): seq<Status> {
    match s
    case Scheduled => [Confirmed, Cancelled]
    case Confirmed => [Completed, Cancelled, NoShow]
    case Completed => []
    case Cancelled => [Scheduled]
    case NoShow => [Scheduled]
  }

  /** A transition the table allows, characterised by its target: only a
      cancelled or missed appointment is scheduled again, only a scheduled
      one is confirmed, only a confirmed one is completed or marked missed,
      and an active one may be cancelled. */
  function CanTransition(from: Status, to: Status): (r: bool)
    ensures r <==> match to
      case Scheduled => from == Cancelled || from == NoShow
      case Confirmed => from == Scheduled
      case Completed => from == Confirmed
      case Cancelled => IsActive(from)
      case NoShow => from == Confirmed
  {
    to in NextStatuses(from)
  }

  /** A completed appointment is final, no status moves to itself, and a
      status that holds no time can only be made active again by going back
      to `scheduled`. */
  lemma TransitionFacts(from: Status, to: Status)
    ensures !CanTransition(Completed, to)
    ensures !CanTransition(from, from)
    ensures !IsActive(from) && CanTransition(from, to) ==> to == Scheduled
    ensures CanTransition(from, to) && IsActive(to) && !IsActive(from) ==> from != Completed
  {
  }

  /** Reopening runs no conflict check: a cancelled appointment taken back
      to `scheduled` can overlap one booked into its place meanwhile. */
  lemma ReopeningCanDoubleBook(user: string)
    ensures var a0 := Appointment(0, "p", "d", 540, 540, 30, Cancelled, "t", None, "u", None);
      var a1 := Appointment(1, "q", "d", 540, 540, 30, Scheduled, "t", None, "u", None);
      && CanTransition(Cancelled, Scheduled)
      && !HasConflict([a0], "d", 540, 30, None)
      && NoDoubleBooking([a0, a1])
      && !NoDoubleBooking([a0.(status := Scheduled, updatedBy := Some(user)), a1])
  {
    var a0 := Appointment(0, "p", "d", 540, 540, 30, Cancelled, "t", None, "u", None);
    var a1 := Appointment(1, "q", "d", 540, 540, 30, Scheduled, "t", None, "u", None);
    var rs := [a0.(status := Scheduled, updatedBy := Some(user)), a1];
    assert rs[0].dentistId == rs[1].dentistId && Overlap(Span(rs[0]), Span(rs[1]));
  }

  // ---------------------------------------------------------------------
  // Updating a document

  /** `Object.assign(appointment, value)`: every field the validated update
      carries replaces the document's, including `status`, the treatment
      type and the notes passing through their `trim` setters; `dateTime` is
      written but `appointmentDate`, the field the queries read, is not. */
  function ApplyPatch(a: Appointment, p: Patch, user: string): (r: Appointment)
    ensures r.id == a.id && r.appointmentDate == a.appointmentDate && r.createdBy == a.createdBy
    ensures r.patientId == p.patientId.GetOr(a.patientId) && r.dentistId == p.dentistId.GetOr(a.dentistId)
    ensures r.dateTime == p.dateTime.GetOr(a.dateTime) && r.duration == p.duration.GetOr(a.duration)
    ensures r.status == p.status.GetOr(a.status)
    ensures r.treatmentType == if p.treatmentType.Some? then Trim(p.treatmentType.value) else a.treatmentType
    ensures r.notes == (if p.notes.Some? then TrimOption(p.notes) else a.notes)
    ensures r.updatedBy == Some(user)
  {
    a.(patientId := p.patientId.GetOr(a.patientId),
       dentistId := p.dentistId.GetOr(a.dentistId),
       dateTime := p.dateTime.GetOr(a.dateTime),
       duration := p.duration.GetOr(a.duration),
       status := p.status.GetOr(a.status),
       treatmentType := if p.treatmentType.Some? then Trim(p.treatmentType.value) else a.treatmentType,
       notes := if p.notes.Some? then TrimOption(p.notes) else a.notes,
       updatedBy := Some(user))
  }

  /** A document that met the schema still meets it after an update that
      passed the update schema, unless the update brings a treatment type of
      nothing but white space, which the `trim` setter empties and the
      save then refuses. */
  lemma PatchKeepsSchema(a: Appointment, req: UpdateRequest, now: int, user: string)
    requires SchemaValid(a) && ValidateUpdate(req, now).Some?
    ensures SchemaValid(ApplyPatch(a, ValidateUpdate(req, now).value, user)) <==>
      (req.treatmentType.None? || Trim(req.treatmentType.value) != "")
  {
  }

  /** The update handler sets `status` directly, past the transition table:
      a completed appointment goes back to `scheduled`. */
  lemma UpdateBypassesTransitions(a: Appointment, now: int, user: string)
    requires a.status == Completed
    ensures var req := UpdateRequest(None, None, None, None, Some("scheduled"), None, None);
      && ValidateUpdate(req, now).Some?
      && ApplyPatch(a, ValidateUpdate(req, now).value, user).status == Scheduled
      && !CanTransition(Completed, Scheduled)
  {
  }

  /** Rescheduling moves `dateTime` only. The conflict query goes on reading
      the old `appointmentDate`, so a later booking at the new time is not
      seen to clash, although `overlapsWith` says the two overlap. */
  lemma RescheduleLeavesQueryStale(user: string)
    ensures var a := Appointment(0, "p", "d", 540, 540, 30, Scheduled, "t", None, "u", None);
      var p := Patch(None, None, Some(600), None, None, None, None);
      var moved := ApplyPatch(a, p, user);
      var later := Appointment(1, "q", "d", 600, 600, 30, Scheduled, "t", None, "u", None);
      && moved.dateTime == 600 && moved.appointmentDate == 540
      && !HasConflict([moved], "d", 600, 30, None)
      && OverlapsWith(moved, later)
  {
    var a := Appointment(0, "p", "d", 540, 540, 30, Scheduled, "t", None, "u", None);
    var moved := ApplyPatch(a, Patch(None, None, Some(600), None, None, None, None), user);
    assert !ConflictsWith(moved, 600, 30);
  }

  // ---------------------------------------------------------------------
  // The slot grid of getAvailableSlots

  predicate Free(x: Interval, busy: seq<Appointment>) {
    forall a :: a in busy ==> !Overlap(x, Span(a))
  }

  /** The `k`-th candidate start of a grid from `t` in steps of `d`. */
  function GridStart(t: int, d: int, k: nat): int {
    t + k * d
  }

  /** The grid's candidate starts: `t` plus a whole number of steps `d`. */
  ghost predicate OnGrid(s: int, t: int, d: int) {
    exists k: nat :: GridStart(t, d, k) == s
  }

  /** What the `for` loop of `getAvailableSlots` pushes from `t` on: a
      candidate [t, t + d) whenever it overlaps no fetched appointment, for
      every start before closing time. Only the start is bounded, so the
      last candidate may end after closing. */
  function Grid(t: int, close: int, d: int, busy: seq<Appointment>): seq<Interval>
    requires d > 0
    decreases close - t
  {
    if t >= close then []
    else (if Free(Interval(t, t + d), busy) then [Interval(t, t + d)] else []) + Grid(t + d, close, d, busy)
  }

  lemma GridStep(s: int, t: int, d: int)
    requires d > 0
    ensures OnGrid(s, t, d) <==> s == t || OnGrid(s, t + d, d)
  {
    if OnGrid(s, t, d) && s != t {
      var k: nat :| GridStart(t, d, k) == s;
      assert k != 0;
      assert GridStart(t + d, d, k - 1) == s;
    }
    if s == t {
      assert GridStart(t, d, 0) == s;
    }
    if OnGrid(s, t + d, d) {
      var k: nat :| GridStart(t + d, d, k) == s;
      assert GridStart(t, d, k + 1) == s;
    }
  }

  /** A start before `t` is never on the grid from `t`. */
  lemma GridStartsFrom(s: int, t: int, d: int)
    requires d > 0 && OnGrid(s, t, d)
    ensures t <= s
  {
    var k: nat :| GridStart(t, d, k) == s;
  }

  /** A slot is offered exactly when its start is on the grid and before
      closing, it lasts `d`, and it overlaps none of the fetched appointments. */
  lemma {:induction false} GridMembership(x: Interval, t: int, close: int, d: int, busy: seq<Appointment>)
    requires d > 0
    ensures x in Grid(t, close, d, busy) <==>
      OnGrid(x.start, t, d) && x.start < close && x.end == x.start + d && Free(x, busy)
    decreases close - t
  {
    GridStep(x.start, t, d);
    if t < close {
      GridMembership(x, t + d, close, d, busy);
    } else if OnGrid(x.start, t, d) {
      GridStartsFrom(x.start, t, d);
    }
  }

  /** The offered slots come in ascending order, each starting no earlier
      than the one before ends. */
  lemma {:induction false} GridAscending(t: int, close: int, d: int, busy: seq<Appointment>)
    requires d > 0
    ensures Ascending(Grid(t, close, d, busy)) && AllStartFrom(Grid(t, close, d, busy), t)
    decreases close - t
  {
    if t < close {
      GridAscending(t + d, close, d, busy);
      var head := if Free(Interval(t, t + d), busy) then [Interval(t, t + d)] else [];
      AscendingConcat(head, Grid(t + d, close, d, busy), t + d);
    }
  }

  /** On a day with nothing fetched, the grid holds ceil((close - t) / d)
      back-to-back slots from `t`: the last one starts before closing. */
  lemma {:induction false} GridOnEmptyDay(t: int, close: int, d: int)
    requires d > 0 && t < close
    ensures var g := Grid(t, close, d, []);
      && (|g| - 1) * d < close - t <= |g| * d
      && forall k :: 0 <= k < |g| ==> g[k] == Interval(t + k * d, t + k * d + d)
    decreases close - t
  {
    var g := Grid(t, close, d, []);
    if t + d < close {
      GridOnEmptyDay(t + d, close, d);
      var n := |Grid(t + d, close, d, [])|;
      assert |g| == n + 1;
      assert (|g| - 1) * d == (n - 1) * d + d;
      forall k | 1 <= k < |g| ensures g[k] == Interval(t + k * d, t + k * d + d) {
        assert g[k] == Grid(t + d, close, d, [])[k - 1];
        assert t + d + (k - 1) * d == t + k * d;
      }
    } else {
      assert Grid(t + d, close, d, []) == [];
    }
  }

  /** With 30-minute slots an empty working day offers 20 slots, 08:00 to 17:30. */
  lemma EmptyDayThirtyMinuteSlots(dayStart: int)
    ensures var g := Grid(dayStart + OpeningMinute, dayStart + ClosingMinute, 30, []);
      && |g| == 20
      && g[0] == Interval(dayStart + 480, dayStart + 510)
      && g[19] == Interval(dayStart + 1050, dayStart + 1080)
  {
    GridOnEmptyDay(dayStart + OpeningMinute, dayStart + ClosingMinute, 30);
  }

  /** With 45-minute slots the last slot offered runs 17:45 to 18:30, past
      closing time. */
  lemma FortyFiveMinuteSlotOverrunsClosing(dayStart: int)
    ensures var g := Grid(dayStart + OpeningMinute, dayStart + ClosingMinute, 45, []);
      && |g| == 14
      && g[13] == Interval(dayStart + 1065, dayStart + 1110)
      && g[13].end > dayStart + ClosingMinute
  {
    GridOnEmptyDay(dayStart + OpeningMinute, dayStart + ClosingMinute, 45);
  }

  /** The appointments `getAvailableSlots` fetches: the dentist's active
      ones whose `appointmentDate` falls within the working window, ascending. */
  function AppointmentDateOf(a: Appointment): int {
    a.appointmentDate
  }

  function GridBookings(records: seq<Appointment>, dentistId: string, dayStart: int): (r: seq<Appointment>)
    ensures SortedBy(r, AppointmentDateOf)
    ensures forall a :: a in r <==>
      a in records && a.dentistId == dentistId && IsActive(a.status)
      && dayStart + OpeningMinute <= a.appointmentDate < dayStart + ClosingMinute
  {
    var open := dayStart + OpeningMinute;
    var close := dayStart + ClosingMinute;
    var sel := Filter(records, (a: Appointment) =>
      a.dentistId == dentistId && open <= a.appointmentDate < close && IsActive(a.status));
    var r := SortBy(sel, AppointmentDateOf);
    assert forall a :: a in r <==> a in multiset(r);
    assert forall a :: a in sel <==> a in multiset(sel);
    r
  }

  /** The `for` loop of `getAvailableSlots`. */
  method GridSlots(busy: seq<Appointment>, open: int, close: int, d: int) returns (slots: seq<Interval>)
    requires d > 0
    ensures slots == Grid(open, close, d, busy)
  {
    slots := [];
    var time := open;
    while time < close
      invariant slots + Grid(time, close, d, busy) == Grid(open, close, d, busy)
      decreases close - time
    {
      var slotEnd := time + d;
      var hasConflict := exists a :: a in busy && Overlap(Interval(time, slotEnd), Span(a));
      if !hasConflict {
        slots := slots + [Interval(time, slotEnd)];
      }
      time := time + d;
    }
  }

  /** A slot is free of the fetched appointments exactly when it overlaps
      no active appointment of the dentist whose `appointmentDate` falls in
      the working window. */
  lemma FreeOfFetched(x: Interval, records: seq<Appointment>, dentistId: string, dayStart: int)
    ensures Free(x, GridBookings(records, dentistId, dayStart)) <==>
      forall a :: (a in records && a.dentistId == dentistId && IsActive(a.status)
                   && dayStart + OpeningMinute <= a.appointmentDate < dayStart + ClosingMinute) ==> !Overlap(x, Span(a))
  {
  }

  /** `slots` are the slots of `d` minutes offered on the day starting at
      `dayStart`: the grid from 08:00 without the fetched appointments, in
      ascending order, holding exactly the starts on the grid before 18:00
      whose slot overlaps none of the dentist's active appointments with an
      `appointmentDate` in the working window. */
  ghost predicate DaySlots(records: seq<Appointment>, dentistId: string, dayStart: int, d: int, slots: seq<Interval>) {
    var open := dayStart + OpeningMinute;
    var close := dayStart + ClosingMinute;
    && d > 0
    && slots == Grid(open, close, d, GridBookings(records, dentistId, dayStart))
    && Ascending(slots)
    && forall x :: x in slots <==>
         && OnGrid(x.start, open, d) && x.start < close && x.end == x.start + d
         && forall a :: (a in records && a.dentistId == dentistId && IsActive(a.status)
                         && open <= a.appointmentDate < close) ==> !Overlap(x, Span(a))
  }

  /** The grid the loop builds has the properties `DaySlots` names. */
  lemma SlotsOfDay(records: seq<Appointment>, dentistId: string, dayStart: int, d: int)
    requires d > 0
    ensures DaySlots(records, dentistId, dayStart, d,
                     Grid(dayStart + OpeningMinute, dayStart + ClosingMinute, d, GridBookings(records, dentistId, dayStart)))
  {
    var open := dayStart + OpeningMinute;
    var close := dayStart + ClosingMinute;
    var busy := GridBookings(records, dentistId, dayStart);
    GridAscending(open, close, d, busy);
    forall x ensures x in Grid(open, close, d, busy) <==>
      && OnGrid(x.start, open, d) && x.start < close && x.end == x.start + d
      && forall a :: (a in records && a.dentistId == dentistId && IsActive(a.status)
                      && open <= a.appointmentDate < close) ==> !Overlap(x, Span(a))
    {
      GridMembership(x, open, close, d, busy);
      FreeOfFetched(x, records, dentistId, dayStart);
    }
  }

  /** `getAvailableSlots`: the query must pass its schema and the dentist
      must be active; the slots are then the grid from 08:00 of the day,
      every start on the grid before 18:00 whose slot overlaps none of the
      dentist's active appointments fetched by `appointmentDate` (each
      measured from its `dateTime`), in ascending order. */
  method GetAvailableSlots(records: seq<Appointment>, q: SlotQuery, dentistActive: bool)
    returns (r: Result<seq<Interval>, Error>)
    ensures ValidateSlotQuery(q).None? ==> r == Failure(ValidationFailed)
    ensures ValidateSlotQuery(q).Some? && !dentistActive ==> r == Failure(DentistNotFound)
    ensures r.Success? <==> ValidateSlotQuery(q).Some? && dentistActive
    ensures r.Success? ==>
      var v := ValidateSlotQuery(q).value;
      DaySlots(records, v.0, v.1, v.2, r.value)
  {
    var v := ValidateSlotQuery(q);
    if v.None? {
      return Failure(ValidationFailed);
    }
    if !dentistActive {
      return Failure(DentistNotFound);
    }
    var dentistId, day, d := v.value.0, v.value.1, v.value.2;
    var busy := GridBookings(records, dentistId, day);
    var slots := GridSlots(busy, day + OpeningMinute, day + ClosingMinute, d);
    SlotsOfDay(records, dentistId, day, d);
    return Success(slots);
  }

  /** An appointment that starts before 08:00 but runs into the working day
      is not fetched, so both slot algorithms offer the 08:00 slot it
      overlaps. */
  lemma EarlyAppointmentNotFetched(dayStart: int)
    ensures var a := Appointment(0, "p", "d", dayStart + 450, dayStart + 450, 60, Scheduled, "t", None, "u", None);
      var open := dayStart + OpeningMinute;
      var close := dayStart + ClosingMinute;
      var first := Interval(open, open + 30);
      && Overlap(first, Span(a))
      && first in Grid(open, close, 30, GridBookings([a], "d", dayStart))
      && first in Pack(DayBookings([a], "d", dayStart), open, close, 30)
  {
    var a := Appointment(0, "p", "d", dayStart + 450, dayStart + 450, 60, Scheduled, "t", None, "u", None);
    var open := dayStart + OpeningMinute;
    var close := dayStart + ClosingMinute;
    assert GridBookings([a], "d", dayStart) == [];
    assert DayBookings([a], "d", dayStart) == [];
    GridOnEmptyDay(open, close, 30);
    FillUntilCount(open, close, 30);
    assert Grid(open, close, 30, [])[0] == Interval(open, open + 30);
    assert FillUntil(open, close, 30)[0] == Interval(open, open + 30);
  }

  /** The two slot algorithms disagree: around an appointment from 08:10 to
      08:40 the greedy one offers 08:40-09:10, which the grid, fixed to
      half hours from 08:00, never offers. */
  lemma GreedyAndGridDiffer(dayStart: int)
    ensures var a := Appointment(0, "p", "d", dayStart + 490, dayStart + 490, 30, Scheduled, "t", None, "u", None);
      var open := dayStart + OpeningMinute;
      var close := dayStart + ClosingMinute;
      var slot := Interval(dayStart + 520, dayStart + 550);
      && slot in Pack([a], open, close, 30)
      && slot !in Grid(open, close, 30, [a])
  {
    var a := Appointment(0, "p", "d", dayStart + 490, dayStart + 490, 30, Scheduled, "t", None, "u", None);
    var open := dayStart + OpeningMinute;
    var close := dayStart + ClosingMinute;
    var slot := Interval(dayStart + 520, dayStart + 550);
    assert FillUntil(open, dayStart + 490, 30) == [];
    assert FillEnd(open, dayStart + 490, 30) == open;
    assert Pack([a], open, close, 30) == FillUntil(dayStart + 520, close, 30);
    assert FillUntil(dayStart + 520, close, 30)[0] == slot;
    GridMembership(slot, open, close, 30, [a]);
    forall k: nat ensures GridStart(open, 30, k) != slot.start {
      if k <= 1 {
      } else {
        assert GridStart(open, 30, k) >= open + 60;
      }
    }
  }

  // ---------------------------------------------------------------------
  // The store

  /** Where the document with a given id sits, as `findById` finds it. */
  function IndexOf(records: seq<Appointment>, id: nat): (r: Option<nat>)
    ensures r.Some? ==> r.value < |records| && records[r.value].id == id
    ensures r.None? ==> forall a :: a in records ==> a.id != id
  {
    if records == [] then None
    else if records[0].id == id then Some(0)
    else
      match IndexOf(records[1..], id)
      case None => None
      case Some(k) => Some(k + 1)
  }

  predicate UniqueIds(records: seq<Appointment>) {
    forall i, j :: 0 <= i < j < |records| ==> records[i].id != records[j].id
  }

  /** Removing the document at `i` removes exactly the documents with its
      id, and keeps the ids unique. */
  lemma RemovalKeepsOthers(records: seq<Appointment>, i: nat)
    requires i < |records| && UniqueIds(records)
    ensures var rest := records[..i] + records[i + 1..];
      && UniqueIds(rest)
      && forall b :: b in rest <==> b in records && b.id != records[i].id
  {
    var rest := records[..i] + records[i + 1..];
    assert forall j :: 0 <= j < |rest| ==> rest[j] == if j < i then records[j] else records[j + 1];
    forall b ensures b in rest <==> b in records && b.id != records[i].id {
      if b in records && b.id != records[i].id {
        var j :| 0 <= j < |records| && records[j] == b;
        if j < i { assert rest[j] == b; } else { assert rest[j - 1] == b; }
      }
      if b in rest {
        var j :| 0 <= j < |rest| && rest[j] == b;
        assert b == records[if j < i then j else j + 1];
      }
    }
  }

  /** The appointments collection. `nextId` stands for the database's
      fresh document ids. */
  class AppointmentStore {
    var records: seq<Appointment>
    var nextId: nat

    ghost predicate Valid()
      reads this
    {
      UniqueIds(records) && forall a :: a in records ==> a.id < nextId
    }

    constructor ()
      ensures Valid() && records == [] && nextId == 0
    {
      records := [];
      nextId := 0;
    }

    /** `createAppointment`: validate, look up patient and dentist, refuse a
        conflicting time, else build a new `scheduled` appointment whose
        `appointmentDate` is the requested start and whose treatment type
        and notes are trimmed, and save it. The handler never sets
        `dateTime`; the model fills it with the same start so that the
        span-based code has one to read; the save refuses a type that
        the trim left empty. A refusal writes nothing; an accepted booking
        keeps a consistent, double-booking-free collection that way. */
    method Create(req: CreateRequest, now: int, user: string, patientExists: bool, dentistActive: bool)
      returns (r: Result<Appointment, Error>)
      requires Valid()
      modifies this
      ensures Valid()
      ensures ValidateCreate(req, now).None? ==> r == Failure(ValidationFailed)
      ensures ValidateCreate(req, now).Some? && !patientExists ==> r == Failure(PatientNotFound)
      ensures ValidateCreate(req, now).Some? && patientExists && !dentistActive ==> r == Failure(DentistNotFound)
      ensures ValidateCreate(req, now).Some? && patientExists && dentistActive ==>
        var v := ValidateCreate(req, now).value;
        if HasConflict(old(records), v.dentistId, v.start, v.duration, None) then r == Failure(SchedulingConflict)
        else if Trim(v.treatmentType) == "" then r == Failure(SaveRefused)
        else r == Success(Appointment(old(nextId), v.patientId, v.dentistId, v.start, v.start, v.duration,
                                      Scheduled, Trim(v.treatmentType), TrimOption(v.notes), user, None))
      ensures r.Failure? ==> records == old(records) && nextId == old(nextId)
      ensures r.Success? ==> records == old(records) + [r.value] && nextId == old(nextId) + 1
      ensures r.Success? ==> SchemaValid(r.value) && r.value.status == Scheduled
      ensures old(Consistent(records) && PositiveDurations(records) && NoDoubleBooking(records)) ==>
        Consistent(records) && PositiveDurations(records) && NoDoubleBooking(records)
    {
      var v := ValidateCreate(req, now);
      if v.None? {
        return Failure(ValidationFailed);
      }
      if !patientExists {
        return Failure(PatientNotFound);
      }
      if !dentistActive {
        return Failure(DentistNotFound);
      }
      r := Book(v.value, user);
    }

    /** The second half of `createAppointment`, for a validated request:
        refuse a conflicting time, build the document with its trimmed
        treatment type and notes (and `dateTime` filled by the model from the
        start, as for `Create`), and save it unless the trim left the type
        empty. */
    method Book(n: NewAppointment, user: string) returns (r: Result<Appointment, Error>)
      requires Valid() && MinDuration <= n.duration <= MaxDuration
      modifies this
      ensures Valid()
      ensures if HasConflict(old(records), n.dentistId, n.start, n.duration, None) then r == Failure(SchedulingConflict)
        else if Trim(n.treatmentType) == "" then r == Failure(SaveRefused)
        else r == Success(Appointment(old(nextId), n.patientId, n.dentistId, n.start, n.start, n.duration,
                                      Scheduled, Trim(n.treatmentType), TrimOption(n.notes), user, None))
      ensures r.Failure? ==> records == old(records) && nextId == old(nextId)
      ensures r.Success? ==> records == old(records) + [r.value] && nextId == old(nextId) + 1
      ensures r.Success? ==> SchemaValid(r.value)
      ensures old(Consistent(records) && PositiveDurations(records) && NoDoubleBooking(records)) ==>
        Consistent(records) && PositiveDurations(records) && NoDoubleBooking(records)
    {
      if HasConflict(records, n.dentistId, n.start, n.duration, None) {
        return Failure(SchedulingConflict);
      }
      var treatmentType := Trim(n.treatmentType);
      if treatmentType == "" {
        return Failure(SaveRefused);
      }
      var a := Appointment(nextId, n.patientId, n.dentistId, n.start, n.start, n.duration,
                           Scheduled, treatmentType, TrimOption(n.notes), user, None);
      if Consistent(records) && PositiveDurations(records) && NoDoubleBooking(records) {
        AcceptedBookingKeepsApart(records, a);
      }
      records := records + [a];
      nextId := nextId + 1;
      return Success(a);
    }

    /** `updateAppointment`: validate, find the document, and when a new
        start or duration is given check the conflict query for the
        resulting span, taking the current start or duration for the one not
        given, excluding the document itself and using its current dentist;
        then overwrite the fields the update carries and save, which the
        document schema may refuse. */
    method Update(id: nat, req: UpdateRequest, now: int, user: string) returns (r: Result<Appointment, Error>)
      requires Valid()
      modifies this
      ensures Valid() && nextId == old(nextId)
      ensures ValidateUpdate(req, now).None? ==> r == Failure(ValidationFailed)
      ensures ValidateUpdate(req, now).Some? && IndexOf(old(records), id).None? ==> r == Failure(AppointmentNotFound)
      ensures ValidateUpdate(req, now).Some? && IndexOf(old(records), id).Some? ==>
        var p := ValidateUpdate(req, now).value;
        var i := IndexOf(old(records), id).value;
        var a := old(records)[i];
        if (p.dateTime.Some? || p.duration.Some?)
           && HasConflict(old(records), a.dentistId, p.dateTime.GetOr(a.dateTime), p.duration.GetOr(a.duration), Some(id))
        then r == Failure(SchedulingConflict)
        else if !SchemaValid(ApplyPatch(a, p, user)) then r == Failure(SaveRefused)
        else r == Success(ApplyPatch(a, p, user)) && records == old(records)[i := r.value]
      ensures r.Failure? ==> records == old(records)
    {
      var v := ValidateUpdate(req, now);
      if v.None? {
        return Failure(ValidationFailed);
      }
      var found := IndexOf(records, id);
      if found.None? {
        return Failure(AppointmentNotFound);
      }
      var i := found.value;
      var a := records[i];
      var p := v.value;
      if p.dateTime.Some? || p.duration.Some? {
        var newStart := p.dateTime.GetOr(a.dateTime);
        var newDuration := p.duration.GetOr(a.duration);
        if HasConflict(records, a.dentistId, newStart, newDuration, Some(id)) {
          return Failure(SchedulingConflict);
        }
      }
      var updated := ApplyPatch(a, p, user);
      if !SchemaValid(updated) {
        return Failure(SaveRefused);
      }
      records := records[i := updated];
      return Success(updated);
    }

    /** `updateAppointmentStatus`: the status must be one of the five names,
        the document must exist, and the table must allow the move from its
        current status; then only the status and `updatedBy` change. */
    method UpdateStatus(id: nat, status: string, user: string) returns (r: Result<Appointment, Error>)
      requires Valid()
      modifies this
      ensures Valid() && nextId == old(nextId)
      ensures ParseStatus(status).None? ==> r == Failure(InvalidStatus)
      ensures ParseStatus(status).Some? && IndexOf(old(records), id).None? ==> r == Failure(AppointmentNotFound)
      ensures ParseStatus(status).Some? && IndexOf(old(records), id).Some? ==>
        var s := ParseStatus(status).value;
        var i := IndexOf(old(records), id).value;
        var a := old(records)[i];
        if CanTransition(a.status, s)
        then r == Success(a.(status := s, updatedBy := Some(user))) && records == old(records)[i := r.value]
        else r == Failure(InvalidTransition(a.status, s))
      ensures r.Failure? ==> records == old(records)
    {
      var s := ParseStatus(status);
      if s.None? {
        return Failure(InvalidStatus);
      }
      var found := IndexOf(records, id);
      if found.None? {
        return Failure(AppointmentNotFound);
      }
      var i := found.value;
      var a := records[i];
      if !CanTransition(a.status, s.value) {
        return Failure(InvalidTransition(a.status, s.value));
      }
      var updated := a.(status := s.value, updatedBy := Some(user));
      records := records[i := updated];
      return Success(updated);
    }

    /** `deleteAppointment`: only a `scheduled` appointment is removed;
        every other document stays, in order. */
    method Delete(id: nat) returns (r: Result<(), Error>)
      requires Valid()
      modifies this
      ensures Valid() && nextId == old(nextId)
      ensures IndexOf(old(records), id).None? ==> r == Failure(AppointmentNotFound)
      ensures IndexOf(old(records), id).Some? ==>
        var i := IndexOf(old(records), id).value;
        if old(records)[i].status == Scheduled
        then r == Success(()) && records == old(records)[..i] + old(records)[i + 1..]
        else r == Failure(NotDeletable)
      ensures r.Failure? ==> records == old(records)
      ensures r.Success? ==> forall b :: b in records <==> b in old(records) && b.id != id
    {
      var found := IndexOf(records, id);
      if found.None? {
        return Failure(AppointmentNotFound);
      }
      var i := found.value;
      if records[i].status != Scheduled {
        return Failure(NotDeletable);
      }
      RemovalKeepsOthers(records, i);
      records := records[..i] + records[i + 1..];
      return Success(());
    }
  }
}
