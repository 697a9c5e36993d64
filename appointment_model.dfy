/** The appointment document (api/models/Appointment.ts): its fields and schema
    bounds, the `formattedDuration` virtual, the `overlapsWith` method and the
    greedy `findAvailableSlots` static. Times are whole minutes on one
    absolute clock; a calendar day is given by the minute of its midnight. */
module AppointmentModel {
  import opened Outcomes
  import opened Decimal
  import opened Query

  // ---------------------------------------------------------------------
  // Status

  datatype Status = Scheduled | Confirmed | Completed | Cancelled | NoShow

  /** The string stored for a status. The API spells the last one `no-show`. */
  function StatusName(s: Status): string {
    match s
    case Scheduled => "scheduled"
    case Confirmed => "confirmed"
    case Completed => "completed"
    case Cancelled => "cancelled"
    case NoShow => "no-show"
  }

  /** The status a string names, if it is one of the five the API accepts. */
  function ParseStatus(name: string): (r: Option<Status>)
    ensures r.Some? ==> StatusName(r.value) == name
    ensures forall s :: StatusName(s) == name ==> r == Some(s)
  {
    if name == "scheduled" then Some(Scheduled)
    else if name == "confirmed" then Some(Confirmed)
    else if name == "completed" then Some(Completed)
    else if name == "cancelled" then Some(Cancelled)
    else if name == "no-show" then Some(NoShow)
    else None
  }

  /** The user interface spells the last status `no_show`; the API refuses
      that spelling. */
  lemma UserInterfaceSpellingRejected()
    ensures ParseStatus("no_show") == None
    ensures ParseStatus("no-show") == Some(NoShow)
  {
  }

  /** An appointment in one of these statuses holds its dentist's time. */
  predicate IsActive(s: Status) {
    s == Scheduled || s == Confirmed
  }

  /** The schema's default status. */
  const DefaultStatus: Status := Scheduled

  // ---------------------------------------------------------------------
  // The document

  const MinDuration: int := 15
  const MaxDuration: int := 480

  /** An appointment document. `dateTime` is the schema's start field, the one
      `overlapsWith`, `findAvailableSlots` and `updateAppointment` use;
      `appointmentDate` is the field the controller writes at creation and
      filters on in its queries. The schema's `endTime` is not stored: the
      end is always `dateTime + duration` (see `End`). */
  datatype Appointment = Appointment(
    id: nat,
    patientId: string,
    dentistId: string,
    appointmentDate: int,
    dateTime: int,
    duration: int,
    status: Status,
    treatmentType: string,
    notes: Option<string>,
    createdBy: string,
    updatedBy: Option<string>)

  function End(a: Appointment): int {
    a.dateTime + a.duration
  }

  /** The schema's bounds: a duration of 15 to 480 minutes and a treatment type. */
  predicate SchemaValid(a: Appointment) {
    MinDuration <= a.duration <= MaxDuration && a.treatmentType != ""
  }

  /** A document the schema accepts ends strictly after it starts, exactly
      `duration` minutes later. */
  lemma SchemaValidHasPositiveLength(a: Appointment)
    requires SchemaValid(a)
    ensures a.dateTime < End(a) && End(a) - a.dateTime == a.duration
  {
  }

  // ---------------------------------------------------------------------
  // Intervals and overlap

  /** A half-open span of minutes [start, end). */
  datatype Interval = Interval(start: int, end: int)

  function Span(a: Appointment): Interval {
    Interval(a.dateTime, End(a))
  }

  function Max(x: int, y: int): int {
    if x < y then y else x
  }

  function Min(x: int, y: int): int {
    if x < y then x else y
  }

  /** The one half-open overlap test used for appointments and slots. */
  predicate Overlap(x: Interval, y: Interval) {
    x.start < y.end && x.end > y.start
  }

  predicate Covers(x: Interval, t: int) {
    x.start <= t < x.end
  }

  /** Two spans overlap exactly when they share a minute. */
  lemma OverlapMeansSharedMinute(x: Interval, y: Interval)
    requires x.start < x.end && y.start < y.end
    ensures Overlap(x, y) <==> exists t :: Covers(x, t) && Covers(y, t)
  {
    if Overlap(x, y) {
      var t := Max(x.start, y.start);
      assert Covers(x, t) && Covers(y, t);
    }
  }

  /** `overlapsWith`: the two appointments' spans overlap. It is symmetric,
      and spans that only touch (one ends when the other starts) do not overlap. */
  function OverlapsWith(a: Appointment, b: Appointment): (r: bool)
    ensures a.duration > 0 && b.duration > 0 ==> (r <==> Max(a.dateTime, b.dateTime) < Min(End(a), End(b)))
    ensures r <==> (b.dateTime < End(a) && a.dateTime < End(b))
    ensures End(a) == b.dateTime || End(b) == a.dateTime ==> !r
  {
    a.dateTime < End(b) && End(a) > b.dateTime
  }

  // ---------------------------------------------------------------------
  // formattedDuration

  /** JavaScript's `%`, which truncates toward zero. */
  function JsRemainder(a: int, b: int): int
    requires b > 0
  {
    if a >= 0 then a % b else -((-a) % b)
  }

  /** `formattedDuration`: `M dakika` when there are no whole hours, `H saat`
      when there are no spare minutes, else `H saat M dakika`, with
      H = floor(duration / 60) and M = duration % 60 (JavaScript's). */
  function FormattedDuration(duration: int): (r: string)
    ensures 0 <= duration < 60 ==> r == NatToString(duration) + " dakika"
    ensures 60 <= duration && duration % 60 == 0 ==> r == NatToString(duration / 60) + " saat"
    ensures 60 <= duration && duration % 60 != 0 ==>
      r == NatToString(duration / 60) + " saat " + NatToString(duration % 60) + " dakika"
  {
    // Math.floor(duration / 60): Dafny's division by a positive divisor rounds down
    var hours := duration / 60;
    var minutes := JsRemainder(duration, 60);
    if hours == 0 then IntToString(minutes) + " dakika"
    else if minutes == 0 then IntToString(hours) + " saat"
    else IntToString(hours) + " saat " + IntToString(minutes) + " dakika"
  }

  /** Reads a duration back from the text `formattedDuration` produces:
      a leading number, then its units. */
  function ParseFormattedDuration(s: string): Option<int> {
    var n := DigitRun(s);
    if n == 0 then None else ParseUnits(Value(s[..n]), s[n..])
  }

  /** Reads what follows the leading number `v`: ` dakika`, ` saat`, or
      ` saat ` and the minutes part. */
  function ParseUnits(v: nat, rest: string): Option<int> {
    if rest == " dakika" then Some(v)
    else if rest == " saat" then Some(60 * v)
    else if |rest| > 6 && rest[..6] == " saat " then
      match ParseMinutesText(rest[6..])
      case Some(m) => Some(60 * v + m)
      case None => None
    else None
  }

  /** Reads `M dakika`, the minutes part of the text. */
  function ParseMinutesText(s: string): Option<int> {
    var m := DigitRun(s);
    if m == 0 || s[m..] != " dakika" then None else Some(Value(s[..m]))
  }

  /** The leading number of the text is read back exactly. */
  lemma ReadLeadingNumber(n: nat, rest: string)
    requires rest == [] || !IsDigit(rest[0])
    ensures ParseFormattedDuration(NatToString(n) + rest) == ParseUnits(n, rest)
  {
    var ds := NatToString(n);
    var s := ds + rest;
    DigitRunOfDigitsThen(ds, rest);
    assert s[..|ds|] == ds && s[|ds|..] == rest;
    ValueOfNatToString(n);
  }

  lemma ReadMinutesText(m: nat)
    ensures ParseMinutesText(NatToString(m) + " dakika") == Some(m)
  {
    var ms := NatToString(m);
    var s := ms + " dakika";
    DigitRunOfDigitsThen(ms, " dakika");
    assert s[..|ms|] == ms && s[|ms|..] == " dakika";
    ValueOfNatToString(m);
  }

  /** After the hours, ` saat ` and the minutes text read as the whole duration. */
  lemma ReadHoursUnitsThenMinutes(h: nat, m: nat)
    ensures ParseUnits(h, " saat " + NatToString(m) + " dakika") == Some(60 * h + m)
  {
    var tail := NatToString(m) + " dakika";
    var rest := " saat " + tail;
    assert " saat " + NatToString(m) + " dakika" == rest;
    assert |rest| > 7 && rest != " dakika" && rest != " saat";
    assert rest[..6] == " saat " && rest[6..] == tail;
    ReadMinutesText(m);
  }

  lemma ReadHoursAndMinutes(h: nat, m: nat)
    ensures ParseFormattedDuration(NatToString(h) + " saat " + NatToString(m) + " dakika") == Some(60 * h + m)
  {
    var rest := " saat " + NatToString(m) + " dakika";
    assert NatToString(h) + " saat " + NatToString(m) + " dakika" == NatToString(h) + rest;
    assert rest[0] == ' ';
    ReadLeadingNumber(h, rest);
    ReadHoursUnitsThenMinutes(h, m);
  }

  /** The duration text loses nothing: every non-negative duration is read
      back from its text. */
  lemma {:induction false} FormattedDurationRoundTrip(duration: nat)
    ensures ParseFormattedDuration(FormattedDuration(duration)) == Some(duration)
  {
    var h := duration / 60;
    var m := duration % 60;
    if duration < 60 {
      ReadLeadingNumber(duration, " dakika");
    } else if m == 0 {
      ReadLeadingNumber(h, " saat");
    } else {
      ReadHoursAndMinutes(h, m);
    }
  }

  // ---------------------------------------------------------------------
  // findAvailableSlots: greedy packing

  const OpeningMinute: int := 8 * 60
  const ClosingMinute: int := 18 * 60

  /** The slots the inner `while` pushes: back to back from `cur` while a
      whole slot still ends by `limit`. */
  function FillUntil(cur: int, limit: int, d: int): seq<Interval>
    requires d > 0
    decreases limit - cur
  {
    if cur + d <= limit then [Interval(cur, cur + d)] + FillUntil(cur + d, limit, d) else []
  }

  /** Where the inner `while` leaves `currentTime`. */
  function FillEnd(cur: int, limit: int, d: int): int
    requires d > 0
    decreases limit - cur
  {
    if cur + d <= limit then FillEnd(cur + d, limit, d) else cur
  }

  /** What the two loops of `findAvailableSlots` push, from `cur` on, for the
      remaining (fetched) appointments: the free run before each appointment,
      then a jump past it, then the run up to closing time. */
  function Pack(existing: seq<Appointment>, cur: int, close: int, d: int): seq<Interval>
    requires d > 0
    decreases |existing|
  {
    if existing == [] then FillUntil(cur, close, d)
    else
      var a := existing[0];
      FillUntil(cur, a.dateTime, d)
        + Pack(existing[1..], Max(FillEnd(cur, a.dateTime, d), End(a)), close, d)
  }

  predicate AllOfLength(slots: seq<Interval>, d: int) {
    forall x :: x in slots ==> x.end == x.start + d
  }

  predicate AllStartFrom(slots: seq<Interval>, t: int) {
    forall x :: x in slots ==> t <= x.start
  }

  predicate AllEndBy(slots: seq<Interval>, t: int) {
    forall x :: x in slots ==> x.end <= t
  }

  /** Strictly ascending and pairwise disjoint: each slot ends no later than
      the next one starts. */
  predicate Ascending(slots: seq<Interval>) {
    forall k, l :: 0 <= k < l < |slots| ==> slots[k].end <= slots[l].start
  }

  predicate NoneOverlap(slots: seq<Interval>, existing: seq<Appointment>) {
    forall x, a :: x in slots && a in existing ==> !Overlap(x, Span(a))
  }

  function StartOf(a: Appointment): int {
    a.dateTime
  }

  lemma AscendingConcat(s: seq<Interval>, t: seq<Interval>, m: int)
    requires Ascending(s) && Ascending(t)
    requires AllEndBy(s, m) && AllStartFrom(t, m)
    ensures Ascending(s + t)
  {
    forall k, l | 0 <= k < l < |s + t| ensures (s + t)[k].end <= (s + t)[l].start {
      if l < |s| {
      } else if k >= |s| {
        assert (s + t)[k] == t[k - |s|] && (s + t)[l] == t[l - |s|];
      } else {
        assert (s + t)[k] == s[k] && s[k] in s;
        assert (s + t)[l] == t[l - |s|] && t[l - |s|] in t;
      }
    }
  }

  lemma {:induction false} FillUntilShape(cur: int, limit: int, d: int)
    requires d > 0
    ensures var f := FillUntil(cur, limit, d);
      && AllOfLength(f, d) && AllStartFrom(f, cur) && AllEndBy(f, limit)
      && AllEndBy(f, FillEnd(cur, limit, d)) && Ascending(f)
      && cur <= FillEnd(cur, limit, d)
    decreases limit - cur
  {
    if cur + d <= limit {
      FillUntilShape(cur + d, limit, d);
      var rest := FillUntil(cur + d, limit, d);
      AscendingConcat([Interval(cur, cur + d)], rest, cur + d);
    }
  }

  /** The packed slots all last `d` minutes, start no earlier than `cur`, and
      come strictly in order without overlapping one another; when all the
      appointments start by `close`, the slots also end by `close`; and when
      the appointments come sorted by start, no slot overlaps any of them. */
  lemma {:induction false} PackShape(existing: seq<Appointment>, cur: int, close: int, d: int)
    requires d > 0
    ensures var p := Pack(existing, cur, close, d);
      && AllOfLength(p, d) && AllStartFrom(p, cur) && Ascending(p)
      && ((forall a :: a in existing ==> a.dateTime <= close) ==> AllEndBy(p, close))
      && (SortedBy(existing, StartOf) ==> NoneOverlap(p, existing))
    decreases |existing|
  {
    if existing == [] {
      FillUntilShape(cur, close, d);
    } else {
      var a := existing[0];
      var rest := existing[1..];
      var f := FillUntil(cur, a.dateTime, d);
      var next := Max(FillEnd(cur, a.dateTime, d), End(a));
      var p := Pack(rest, next, close, d);
      FillUntilShape(cur, a.dateTime, d);
      PackShape(rest, next, close, d);
      AscendingConcat(f, p, next);
      assert Pack(existing, cur, close, d) == f + p;
      assert forall b :: b in rest ==> b in existing;
      if SortedBy(existing, StartOf) {
        assert SortedBy(rest, StartOf);
        forall x, b | x in f + p && b in existing ensures !Overlap(x, Span(b)) {
          if x in f {
            if b != a {
              var j :| 0 <= j < |existing| && existing[j] == b;
              assert StartOf(existing[0]) <= StartOf(existing[j]);
            }
          } else if b != a {
            assert b in rest;
          }
        }
      }
    }
  }

  /** With nothing booked, the inner loop lays floor((limit - cur) / d)
      back-to-back slots from `cur`: as many as fit, and one more would not. */
  lemma {:induction false} FillUntilCount(cur: int, limit: int, d: int)
    requires d > 0 && cur <= limit
    ensures var f := FillUntil(cur, limit, d);
      && |f| * d <= limit - cur < |f| * d + d
      && forall k :: 0 <= k < |f| ==> f[k] == Interval(cur + k * d, cur + k * d + d)
    decreases limit - cur
  {
    if cur + d <= limit {
      FillUntilCount(cur + d, limit, d);
      var f := FillUntil(cur, limit, d);
      var n := |FillUntil(cur + d, limit, d)|;
      assert |f| * d == n * d + d;
      forall k | 1 <= k < |f| ensures f[k] == Interval(cur + k * d, cur + k * d + d) {
        assert f[k] == FillUntil(cur + d, limit, d)[k - 1];
        assert cur + d + (k - 1) * d == cur + k * d;
      }
    }
  }

  /** The active appointments of one dentist that start within a day's
      working window, ascending by start: the `find(...).sort({dateTime: 1})`
      query of `findAvailableSlots`. */
  function DayBookings(records: seq<Appointment>, dentistId: string, dayStart: int): (r: seq<Appointment>)
    ensures SortedBy(r, StartOf)
    ensures forall a :: a in r <==>
      a in records && a.dentistId == dentistId && IsActive(a.status)
      && dayStart + OpeningMinute <= a.dateTime < dayStart + ClosingMinute
  {
    var open := dayStart + OpeningMinute;
    var close := dayStart + ClosingMinute;
    var sel := Filter(records, (a: Appointment) =>
      a.dentistId == dentistId && open <= a.dateTime < close && IsActive(a.status));
    var r := SortBy(sel, StartOf);
    assert forall a :: a in r <==> a in multiset(r);
    assert forall a :: a in sel <==> a in multiset(sel);
    r
  }

  /** The loops of `findAvailableSlots`, run over the fetched appointments. */
  method PackSlots(existing: seq<Appointment>, open: int, close: int, duration: int) returns (slots: seq<Interval>)
    requires duration > 0
    ensures slots == Pack(existing, open, close, duration)
  {
    slots := [];
    var currentTime := open;
    var i := 0;
    while i < |existing|
      invariant 0 <= i <= |existing|
      invariant slots + Pack(existing[i..], currentTime, close, duration) == Pack(existing, open, close, duration)
    {
      var appointmentStart := existing[i].dateTime;
      var appointmentEnd := appointmentStart + existing[i].duration;
      assert existing[i..][1..] == existing[i + 1..];
      ghost var before := slots;
      ghost var from := currentTime;
      while currentTime + duration <= appointmentStart
        invariant before + FillUntil(from, appointmentStart, duration)
          == slots + FillUntil(currentTime, appointmentStart, duration)
        invariant FillEnd(from, appointmentStart, duration) == FillEnd(currentTime, appointmentStart, duration)
        decreases appointmentStart - currentTime
      {
        slots := slots + [Interval(currentTime, currentTime + duration)];
        currentTime := currentTime + duration;
      }
      assert slots == before + FillUntil(from, appointmentStart, duration);
      assert Pack(existing[i..], from, close, duration)
        == FillUntil(from, appointmentStart, duration)
           + Pack(existing[i + 1..], Max(FillEnd(from, appointmentStart, duration), appointmentEnd), close, duration);
      currentTime := Max(currentTime, appointmentEnd);
      i := i + 1;
    }
    while currentTime + duration <= close
      invariant slots + FillUntil(currentTime, close, duration) == Pack(existing, open, close, duration)
      decreases close - currentTime
    {
      slots := slots + [Interval(currentTime, currentTime + duration)];
      currentTime := currentTime + duration;
    }
  }

  /** `findAvailableSlots` (duration defaulting to 30): every slot lasts
      exactly the duration and lies within 08:00-18:00 of the day; the slots
      come in strictly ascending order and do not overlap one another; none
      overlaps an active appointment of the dentist that starts within the
      window; and on a day with no such appointment the result is
      floor(600 / duration) back-to-back slots from 08:00. */
  method FindAvailableSlots(records: seq<Appointment>, dentistId: string, dayStart: int, duration: Option<int>)
    returns (slots: seq<Interval>)
    requires duration.Some? ==> duration.value > 0
    ensures var d := duration.GetOr(30);
      && slots == Pack(DayBookings(records, dentistId, dayStart), dayStart + OpeningMinute, dayStart + ClosingMinute, d)
      && AllOfLength(slots, d)
      && AllStartFrom(slots, dayStart + OpeningMinute)
      && AllEndBy(slots, dayStart + ClosingMinute)
      && Ascending(slots)
      && (forall x, a ::
            (x in slots && a in records && a.dentistId == dentistId && IsActive(a.status)
             && dayStart + OpeningMinute <= a.dateTime < dayStart + ClosingMinute) ==> !Overlap(x, Span(a)))
      && (DayBookings(records, dentistId, dayStart) == [] ==>
            |slots| * d <= ClosingMinute - OpeningMinute < |slots| * d + d
            && forall k :: 0 <= k < |slots| ==>
                 slots[k] == Interval(dayStart + OpeningMinute + k * d, dayStart + OpeningMinute + k * d + d))
  {
    var d := duration.GetOr(30);
    var open := dayStart + OpeningMinute;
    var close := dayStart + ClosingMinute;
    var existing := DayBookings(records, dentistId, dayStart);
    slots := PackSlots(existing, open, close, d);
    PackShape(existing, open, close, d);
    if existing == [] {
      FillUntilCount(open, close, d);
    }
  }
}
