/** The tooth rules of api/validators/treatment.ts: tooth numbers in the
    two-digit FDI notation of ISO 3950 (quadrant digit, then position in the
    quadrant), the listed tooth conditions and surfaces, the tooth-entry
    schema, and the parts of the treatment schemas that use them. Costs are
    whole kuruş. */
module TreatmentValidator {
  import opened Outcomes

  /** ISO 3950: tooth `position` of `quadrant`. */
  function ToothNumber(quadrant: int, position: int): int {
    10 * quadrant + position
  }

  /** The 32 permanent teeth: quadrants 1 to 4, positions 1 to 8. */
  const PermanentTeeth: seq<int> := [
    11, 12, 13, 14, 15, 16, 17, 18,
    21, 22, 23, 24, 25, 26, 27, 28,
    31, 32, 33, 34, 35, 36, 37, 38,
    41, 42, 43, 44, 45, 46, 47, 48]

  /** The 20 deciduous teeth: quadrants 5 to 8, positions 1 to 5. */
  const DeciduousTeeth: seq<int> := [
    51, 52, 53, 54, 55,
    61, 62, 63, 64, 65,
    71, 72, 73, 74, 75,
    81, 82, 83, 84, 85]

  /** Every number the tooth-entry schema accepts. */
  const AllTeeth: seq<int> := PermanentTeeth + DeciduousTeeth

  /** The refinement on `toothNumber`: membership in the combined list. */
  predicate IsValidToothNumber(n: int) {
    n in AllTeeth
  }

  /** Position `p` of quadrant `q` sits at index 8(q-1)+(p-1) of the list. */
  lemma PermanentPositionListed(q: int, p: int)
    requires 1 <= q <= 4 && 1 <= p <= 8
    ensures PermanentTeeth[8 * (q - 1) + (p - 1)] == ToothNumber(q, p)
  {
  }

  /** Position `p` of quadrant `q` sits at index 5(q-5)+(p-1) of the list. */
  lemma DeciduousPositionListed(q: int, p: int)
    requires 5 <= q <= 8 && 1 <= p <= 5
    ensures DeciduousTeeth[5 * (q - 5) + (p - 1)] == ToothNumber(q, p)
  {
  }

  /** The permanent list is exactly quadrants 1 to 4 by positions 1 to 8. */
  lemma PermanentTeethExactly(n: int)
    ensures n in PermanentTeeth <==> exists q, p :: 1 <= q <= 4 && 1 <= p <= 8 && n == ToothNumber(q, p)
  {
    if n in PermanentTeeth {
      var i :| 0 <= i < |PermanentTeeth| && PermanentTeeth[i] == n;
      PermanentPositionListed(i / 8 + 1, i % 8 + 1);
    }
    if exists q, p :: 1 <= q <= 4 && 1 <= p <= 8 && n == ToothNumber(q, p) {
      var q, p :| 1 <= q <= 4 && 1 <= p <= 8 && n == ToothNumber(q, p);
      PermanentPositionListed(q, p);
    }
  }

  /** The deciduous list is exactly quadrants 5 to 8 by positions 1 to 5. */
  lemma DeciduousTeethExactly(n: int)
    ensures n in DeciduousTeeth <==> exists q, p :: 5 <= q <= 8 && 1 <= p <= 5 && n == ToothNumber(q, p)
  {
    if n in DeciduousTeeth {
      var i :| 0 <= i < |DeciduousTeeth| && DeciduousTeeth[i] == n;
      DeciduousPositionListed(i / 5 + 5, i % 5 + 1);
    }
    if exists q, p :: 5 <= q <= 8 && 1 <= p <= 5 && n == ToothNumber(q, p) {
      var q, p :| 5 <= q <= 8 && 1 <= p <= 5 && n == ToothNumber(q, p);
      DeciduousPositionListed(q, p);
    }
  }

  /** A number is accepted exactly when it names a permanent or a deciduous
      tooth: a quadrant digit 1-8 and a position within that quadrant's
      range. */
  lemma ValidToothNumberCharacterised(n: int)
    ensures IsValidToothNumber(n) <==>
      (exists q, p :: 1 <= q <= 4 && 1 <= p <= 8 && n == ToothNumber(q, p)) ||
      (exists q, p :: 5 <= q <= 8 && 1 <= p <= 5 && n == ToothNumber(q, p))
  {
    PermanentTeethExactly(n);
    DeciduousTeethExactly(n);
  }

  predicate StrictlyAscending(s: seq<int>) {
    forall i, j :: 0 <= i < j < |s| ==> s[i] < s[j]
  }

  /** Adjacent steps upward make the whole sequence strictly ascending. */
  lemma {:induction false} StepsAscending(s: seq<int>)
    requires forall i :: 0 <= i < |s| - 1 ==> s[i] < s[i + 1]
    ensures StrictlyAscending(s)
    decreases |s|
  {
    if |s| > 1 {
      StepsAscending(s[1..]);
      forall i, j | 0 <= i < j < |s|
        ensures s[i] < s[j]
      {
        assert s[1..][j - 1] == s[j];
        if i > 0 {
          assert s[1..][i - 1] == s[i];
        } else if j > 1 {
          assert s[1..][0] == s[1];
        }
      }
    }
  }

  /** The combined list holds 52 numbers, each once, in ascending order. */
  lemma AllTeethDistinct()
    ensures |AllTeeth| == 52 && |PermanentTeeth| == 32 && |DeciduousTeeth| == 20
    ensures StrictlyAscending(AllTeeth)
    ensures forall i, j :: 0 <= i < j < |AllTeeth| ==> AllTeeth[i] != AllTeeth[j]
  {
    StepsAscending(AllTeeth);
  }

  /** Numbers outside the scheme are refused: a position 0 or 9, a
      deciduous position past 5, a quadrant 9. */
  lemma ToothNumbersRefused()
    ensures !IsValidToothNumber(10) && !IsValidToothNumber(19)
    ensures !IsValidToothNumber(56) && !IsValidToothNumber(91)
  {
    assert !IsValidToothNumber(10) by { ValidToothNumberCharacterised(10); }
    assert !IsValidToothNumber(19) by { ValidToothNumberCharacterised(19); }
    assert !IsValidToothNumber(56) by { ValidToothNumberCharacterised(56); }
    assert !IsValidToothNumber(91) by { ValidToothNumberCharacterised(91); }
  }

  /** The first and last tooth of each dentition are accepted. */
  lemma ToothNumberCorners()
    ensures IsValidToothNumber(11) && IsValidToothNumber(48)
    ensures IsValidToothNumber(51) && IsValidToothNumber(85)
  {
    ValidToothNumberCharacterised(11);
    ValidToothNumberCharacterised(48);
    ValidToothNumberCharacterised(51);
    ValidToothNumberCharacterised(85);
    assert ToothNumber(1, 1) == 11 && ToothNumber(4, 8) == 48;
    assert ToothNumber(5, 1) == 51 && ToothNumber(8, 5) == 85;
  }

  // ---------------------------------------------------------------------
  // Listed values

  datatype ToothCondition =
    | Healthy | Caries | Filled | Missing | Implant | Crown | RootCanal
    | Fractured | Mobility | Calculus | Plaque | Gingivitis | Periodontitis | OtherCondition

  function ConditionName(c: ToothCondition): string {
    match c
    case Healthy => "healthy"
    case Caries => "caries"
    case Filled => "filled"
    case Missing => "missing"
    case Implant => "implant"
    case Crown => "crown"
    case RootCanal => "root_canal"
    case Fractured => "fractured"
    case Mobility => "mobility"
    case Calculus => "calculus"
    case Plaque => "plaque"
    case Gingivitis => "gingivitis"
    case Periodontitis => "periodontitis"
    case OtherCondition => "other"
  }

  /** `z.enum(toothConditions)`: one of the fourteen names, and the one it names. */
  function ParseCondition(s: string): (r: Option<ToothCondition>)
    ensures r.Some? ==> ConditionName(r.value) == s
    ensures forall c :: ConditionName(c) == s ==> r == Some(c)
  {
    if s == "healthy" then Some(Healthy)
    else if s == "caries" then Some(Caries)
    else if s == "filled" then Some(Filled)
    else if s == "missing" then Some(Missing)
    else if s == "implant" then Some(Implant)
    else if s == "crown" then Some(Crown)
    else if s == "root_canal" then Some(RootCanal)
    else if s == "fractured" then Some(Fractured)
    else if s == "mobility" then Some(Mobility)
    else if s == "calculus" then Some(Calculus)
    else if s == "plaque" then Some(Plaque)
    else if s == "gingivitis" then Some(Gingivitis)
    else if s == "periodontitis" then Some(Periodontitis)
    else if s == "other" then Some(OtherCondition)
    else None
  }


  datatype ToothSurface = Mesial | Distal | Buccal | Lingual | Occlusal | Incisal | Facial | Palatal

  function SurfaceName(s: ToothSurface): string {
    match s
    case Mesial => "mesial"
    case Distal => "distal"
    case Buccal => "buccal"
    case Lingual => "lingual"
    case Occlusal => "occlusal"
    case Incisal => "incisal"
    case Facial => "facial"
    case Palatal => "palatal"
  }

  /** `z.enum(toothSurfaces)`. */
  function ParseSurface(s: string): (r: Option<ToothSurface>)
    ensures r.Some? ==> SurfaceName(r.value) == s
    ensures forall t :: SurfaceName(t) == s ==> r == Some(t)
  {
    if s == "mesial" then Some(Mesial)
    else if s == "distal" then Some(Distal)
    else if s == "buccal" then Some(Buccal)
    else if s == "lingual" then Some(Lingual)
    else if s == "occlusal" then Some(Occlusal)
    else if s == "incisal" then Some(Incisal)
    else if s == "facial" then Some(Facial)
    else if s == "palatal" then Some(Palatal)
    else None
  }


  /** `z.array(z.enum(toothSurfaces))`: every name parses, in order. */
  function ParseSurfaces(names: seq<string>): (r: Option<seq<ToothSurface>>)
    ensures r.Some? <==> forall i :: 0 <= i < |names| ==> ParseSurface(names[i]).Some?
    ensures r.Some? ==>
      |r.value| == |names| && forall i :: 0 <= i < |names| ==> SurfaceName(r.value[i]) == names[i]
  {
    if names == [] then Some([])
    else
      match ParseSurface(names[0])
      case None => None
      case Some(t) =>
        match ParseSurfaces(names[1..])
        case None => None
        case Some(rest) => Some([t] + rest)
  }

  // ---------------------------------------------------------------------
  // Tooth entries

  datatype ToothInfoRequest = ToothInfoRequest(
    toothNumber: int,
    condition: string,
    surfaces: Option<seq<string>>,
    notes: Option<string>)

  datatype ToothInfo = ToothInfo(
    toothNumber: int,
    condition: ToothCondition,
    surfaces: Option<seq<ToothSurface>>,
    notes: Option<string>)

  /** `toothInfoSchema`: a listed tooth number, a listed condition, optional
      listed surfaces and optional notes. */
  function ValidateToothInfo(req: ToothInfoRequest): (r: Option<ToothInfo>)
    ensures r.Some? <==>
      && IsValidToothNumber(req.toothNumber)
      && ParseCondition(req.condition).Some?
      && (req.surfaces.Some? ==> ParseSurfaces(req.surfaces.value).Some?)
    ensures r.Some? ==>
      && r.value.toothNumber == req.toothNumber
      && ConditionName(r.value.condition) == req.condition
      && r.value.surfaces.Some? == req.surfaces.Some?
      && (req.surfaces.Some? ==> r.value.surfaces == ParseSurfaces(req.surfaces.value))
      && (r.value.surfaces.Some? ==>
            && |r.value.surfaces.value| == |req.surfaces.value|
            && forall i :: 0 <= i < |req.surfaces.value| ==> SurfaceName(r.value.surfaces.value[i]) == req.surfaces.value[i])
      && r.value.notes == req.notes
  {
    if !IsValidToothNumber(req.toothNumber) then None
    else
      match ParseCondition(req.condition)
      case None => None
      case Some(c) =>
        match req.surfaces
        case None => Some(ToothInfo(req.toothNumber, c, None, req.notes))
        case Some(names) =>
          match ParseSurfaces(names)
          case None => None
          case Some(ts) => Some(ToothInfo(req.toothNumber, c, Some(ts), req.notes))
  }

  /** `z.array(toothInfoSchema)`: every entry passes, in order. */
  function ValidateTeeth(entries: seq<ToothInfoRequest>): (r: Option<seq<ToothInfo>>)
    ensures r.Some? <==> forall i :: 0 <= i < |entries| ==> ValidateToothInfo(entries[i]).Some?
    ensures r.Some? ==>
      |r.value| == |entries| && forall i :: 0 <= i < |entries| ==> Some(r.value[i]) == ValidateToothInfo(entries[i])
  {
    if entries == [] then Some([])
    else
      match ValidateToothInfo(entries[0])
      case None => None
      case Some(t) =>
        match ValidateTeeth(entries[1..])
        case None => None
        case Some(rest) => Some([t] + rest)
  }

  /** `updateDentalChartSchema`: at least one entry, and every entry valid. */
  function ValidateDentalChart(teeth: seq<ToothInfoRequest>): (r: Option<seq<ToothInfo>>)
    ensures r.Some? <==> |teeth| >= 1 && ValidateTeeth(teeth).Some?
    ensures |teeth| >= 1 ==> r == ValidateTeeth(teeth)
    ensures r.Some? ==>
      && |r.value| == |teeth| >= 1
      && (forall i :: 0 <= i < |teeth| ==> Some(r.value[i]) == ValidateToothInfo(teeth[i]))
      && forall i :: 0 <= i < |r.value| ==> IsValidToothNumber(r.value[i].toothNumber)
  {
    if |teeth| == 0 then None else ValidateTeeth(teeth)
  }

  // ---------------------------------------------------------------------
  // Creating a treatment

  datatype TreatmentStatus = Planned | InProgress | Completed | Cancelled | Postponed | EmergencyStatus

  function TreatmentStatusName(s: TreatmentStatus): string {
    match s
    case Planned => "planned"
    case InProgress => "in_progress"
    case Completed => "completed"
    case Cancelled => "cancelled"
    case Postponed => "postponed"
    case EmergencyStatus => "emergency"
  }

  function ParseTreatmentStatus(s: string): (r: Option<TreatmentStatus>)
    ensures r.Some? ==> TreatmentStatusName(r.value) == s
    ensures forall t :: TreatmentStatusName(t) == s ==> r == Some(t)
  {
    if s == "planned" then Some(Planned)
    else if s == "in_progress" then Some(InProgress)
    else if s == "completed" then Some(Completed)
    else if s == "cancelled" then Some(Cancelled)
    else if s == "postponed" then Some(Postponed)
    else if s == "emergency" then Some(EmergencyStatus)
    else None
  }


  datatype Priority = Low | Medium | High | EmergencyPriority

  function PriorityName(p: Priority): string {
    match p
    case Low => "low"
    case Medium => "medium"
    case High => "high"
    case EmergencyPriority => "emergency"
  }

  function ParsePriority(s: string): (r: Option<Priority>)
    ensures r.Some? ==> PriorityName(r.value) == s
    ensures forall p :: PriorityName(p) == s ==> r == Some(p)
  {
    if s == "low" then Some(Low)
    else if s == "medium" then Some(Medium)
    else if s == "high" then Some(High)
    else if s == "emergency" then Some(EmergencyPriority)
    else None
  }


  /** The eighteen treatment types. */
  const TreatmentTypes: seq<string> := [
    "checkup", "cleaning", "filling", "root_canal", "extraction", "crown",
    "bridge", "implant", "orthodontics", "whitening", "veneer", "denture",
    "periodontal", "oral_surgery", "emergency", "consultation", "xray", "other"]

  /** An optional enumerated field with a default: absent gives the
      default, present must parse. `None` means refused. */
  function WithDefault<T>(field: Option<string>, parse: string -> Option<T>, default: T): (r: Option<T>)
    ensures field.None? ==> r == Some(default)
    ensures field.Some? ==> r == parse(field.value)
  {
    if field.None? then Some(default) else parse(field.value)
  }

  datatype CreateTreatmentRequest = CreateTreatmentRequest(
    patientId: string,
    appointmentId: Option<string>,
    dentistId: string,
    treatmentType: string,
    toothInfo: seq<ToothInfoRequest>,
    description: string,
    diagnosis: string,
    treatmentPlan: string,
    estimatedCost: Option<int>,
    actualCost: Option<int>,
    insuranceCoverage: Option<int>,
    priority: Option<string>,
    status: Option<string>,
    notes: Option<string>)

  datatype NewTreatment = NewTreatment(
    patientId: string,
    appointmentId: Option<string>,
    dentistId: string,
    treatmentType: string,
    toothInfo: seq<ToothInfo>,
    description: string,
    diagnosis: string,
    treatmentPlan: string,
    estimatedCost: Option<int>,
    actualCost: Option<int>,
    insuranceCoverage: int,
    priority: Priority,
    status: TreatmentStatus,
    notes: Option<string>)

  predicate PositiveIfPresent(x: Option<int>) {
    x.Some? ==> x.value > 0
  }

  /** The numeric, enumerated and tooth rules of `createTreatmentSchema`:
      non-empty ids and texts, a listed treatment type, at least one valid
      tooth entry, positive costs, a coverage of zero or more (0 when
      absent), and a listed priority and status (`medium` and `planned`
      when absent). */
  function ValidateCreateTreatment(req: CreateTreatmentRequest): (r: Option<NewTreatment>)
    ensures r.Some? <==>
      && req.patientId != "" && req.dentistId != ""
      && req.treatmentType in TreatmentTypes
      && |req.toothInfo| >= 1 && ValidateTeeth(req.toothInfo).Some?
      && req.description != "" && req.diagnosis != "" && req.treatmentPlan != ""
      && PositiveIfPresent(req.estimatedCost) && PositiveIfPresent(req.actualCost)
      && (req.insuranceCoverage.Some? ==> req.insuranceCoverage.value >= 0)
      && (req.priority.Some? ==> ParsePriority(req.priority.value).Some?)
      && (req.status.Some? ==> ParseTreatmentStatus(req.status.value).Some?)
    ensures r.Some? ==>
      && r.value.patientId == req.patientId && r.value.appointmentId == req.appointmentId
      && r.value.dentistId == req.dentistId && r.value.treatmentType == req.treatmentType
      && r.value.description == req.description && r.value.diagnosis == req.diagnosis
      && r.value.treatmentPlan == req.treatmentPlan && r.value.notes == req.notes
      && r.value.estimatedCost == req.estimatedCost && r.value.actualCost == req.actualCost
      && |r.value.toothInfo| == |req.toothInfo| >= 1
      && (forall i :: 0 <= i < |req.toothInfo| ==> Some(r.value.toothInfo[i]) == ValidateToothInfo(req.toothInfo[i]))
      && r.value.insuranceCoverage == req.insuranceCoverage.GetOr(0)
      && (req.priority.None? ==> r.value.priority == Medium)
      && (req.priority.Some? ==> PriorityName(r.value.priority) == req.priority.value)
      && (req.status.None? ==> r.value.status == Planned)
      && (req.status.Some? ==> TreatmentStatusName(r.value.status) == req.status.value)
  {
    if req.patientId == "" || req.dentistId == "" || req.treatmentType !in TreatmentTypes then None
    else if req.description == "" || req.diagnosis == "" || req.treatmentPlan == "" then None
    else if !PositiveIfPresent(req.estimatedCost) || !PositiveIfPresent(req.actualCost) then None
    else if req.insuranceCoverage.Some? && req.insuranceCoverage.value < 0 then None
    else
      match ValidateDentalChart(req.toothInfo)
      case None => None
      case Some(teeth) =>
        match WithDefault(req.priority, ParsePriority, Medium)
        case None => None
        case Some(priority) =>
          match WithDefault(req.status, ParseTreatmentStatus, Planned)
          case None => None
          case Some(status) =>
            Some(NewTreatment(req.patientId, req.appointmentId, req.dentistId, req.treatmentType, teeth,
                              req.description, req.diagnosis, req.treatmentPlan, req.estimatedCost,
                              req.actualCost, req.insuranceCoverage.GetOr(0), priority, status, req.notes))
  }

  /** A treatment with no tooth entry is refused whatever else it carries,
      and so is a tooth entry with an unlisted number. */
  lemma TreatmentNeedsListedTeeth(req: CreateTreatmentRequest)
    ensures |req.toothInfo| == 0 ==> ValidateCreateTreatment(req).None?
    ensures ValidateCreateTreatment(req).Some? ==>
      forall t :: t in ValidateCreateTreatment(req).value.toothInfo ==> IsValidToothNumber(t.toothNumber)
  {
    if ValidateCreateTreatment(req).Some? {
      var teeth := ValidateCreateTreatment(req).value.toothInfo;
      forall t | t in teeth
        ensures IsValidToothNumber(t.toothNumber)
      {
        var i :| 0 <= i < |teeth| && teeth[i] == t;
        assert Some(t) == ValidateToothInfo(req.toothInfo[i]);
      }
    }
  }
}
