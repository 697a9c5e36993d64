/** The invoice handlers of api/controllers/invoiceController.ts: line-total
    summation, invoice creation, editing, the status transition table and
    payment recording. Each handler works on the document the id lookup
    found (`null` when none was found) and ends with the document's `save`,
    whose hooks re-derive the amounts and the status. Money is whole kuruş,
    so the rounding to two decimals is the identity and is not written. */
module InvoiceController {
  import opened Outcomes
  import opened Decimal
  import opened InvoiceModel

  datatype InvoiceError =
    | ValidationFailed
    | PatientNotFound
    | TreatmentsNotFound
    | InvoiceNotFound
    | PaidInvoiceLocked
    | InvalidTransition(from: InvoiceStatus, to: InvoiceStatus)
    | Overpayment

  // ---------------------------------------------------------------------
  // Line totals

  /** A line's total: its `totalPrice` when it has one, else quantity times
      unit price. */
  function LineTotal(item: LineItem): int {
    match item.totalPrice
    case Some(t) => t
    case None => item.quantity * item.unitPrice
  }

  /** The sum of the line totals. */
  function SumLines(items: seq<LineItem>): int {
    if items == [] then 0 else SumLines(items[..|items| - 1]) + LineTotal(items[|items| - 1])
  }

  /** The sum over two runs of lines is the sum of their sums. */
  lemma {:induction false} SumLinesConcat(s: seq<LineItem>, t: seq<LineItem>)
    ensures SumLines(s + t) == SumLines(s) + SumLines(t)
    decreases |t|
  {
    if t == [] {
      assert s + t == s;
    } else {
      var last := t[|t| - 1];
      var init := t[..|t| - 1];
      assert (s + t)[..|s + t| - 1] == s + init;
      SumLinesConcat(s, init);
    }
  }

  /** `Joi.string().regex(/^[0-9a-fA-F]{24}$/)`: a 24-digit hexadecimal id. */
  predicate IsObjectId(s: string) {
    |s| == 24 && forall i :: 0 <= i < |s| ==> IsDigit(s[i]) || 'a' <= s[i] <= 'f' || 'A' <= s[i] <= 'F'
  }

  /** A line the request schemas accept: a description, a whole quantity of
      at least 1, prices of at least 0, and a well-formed treatment id when
      one is given. */
  predicate ItemValid(item: LineItem) {
    && item.description != ""
    && item.quantity >= 1
    && item.unitPrice >= 0
    && (item.totalPrice.Some? ==> item.totalPrice.value >= 0)
    && (item.treatment.Some? ==> IsObjectId(item.treatment.value))
  }

  predicate ItemsValid(items: seq<LineItem>) {
    forall i :: 0 <= i < |items| ==> ItemValid(items[i])
  }

  /** Accepted lines never sum to less than zero. */
  lemma {:induction false} SumLinesNonNegative(items: seq<LineItem>)
    requires ItemsValid(items)
    ensures SumLines(items) >= 0
  {
    if items != [] {
      var init := items[..|items| - 1];
      assert ItemsValid(init) by {
        forall i | 0 <= i < |init| ensures ItemValid(init[i]) {
          assert init[i] == items[i];
        }
      }
      SumLinesNonNegative(init);
      assert ItemValid(items[|items| - 1]);
    }
  }

  /** A line's `totalPrice` is trusted as given, even when it disagrees with
      quantity times unit price. */
  lemma GivenTotalPriceWins()
    ensures SumLines([LineItem(None, "dolgu", 2, 50000, Some(1))]) == 1
    ensures SumLines([LineItem(None, "dolgu", 2, 50000, None)]) == 100000
  {
    assert [LineItem(None, "dolgu", 2, 50000, Some(1))][..0] == [];
    assert [LineItem(None, "dolgu", 2, 50000, None)][..0] == [];
  }

  /** `calculateInvoiceTotals`: the subtotal is the sum of the line totals,
      the tax is 0 and the total is the subtotal. */
  method CalculateTotals(items: seq<LineItem>) returns (subtotal: int, taxAmount: int, totalAmount: int)
    ensures subtotal == SumLines(items) && taxAmount == 0 && totalAmount == subtotal
  {
    subtotal := 0;
    var i := 0;
    while i < |items|
      invariant 0 <= i <= |items|
      invariant subtotal == SumLines(items[..i])
    {
      var item := items[i];
      var lineTotal := if item.totalPrice.Some? then item.totalPrice.value else item.quantity * item.unitPrice;
      assert items[..i + 1][..i] == items[..i];
      subtotal := subtotal + lineTotal;
      i := i + 1;
    }
    assert items[..i] == items;
    taxAmount := 0;
    totalAmount := subtotal + taxAmount;
  }

  // ---------------------------------------------------------------------
  // Status transitions

  /** The `validTransitions` table of `updateInvoiceStatus`. */
  function NextInvoiceStatuses(s: InvoiceStatus): seq<InvoiceStatus> {
    match s
    case Draft => [Sent, Cancelled]
    case Sent => [Paid, Partial, Cancelled]
    case Partial => [Paid, Cancelled]
    case Overdue => [Paid, Partial, Cancelled]
    case Paid => []
    case Cancelled => []
  }

  /** A transition the table allows, characterised by its target: nothing
      leads to `draft` or `overdue`, only a draft is sent, a sent or overdue
      invoice may become partly paid, anything open may be paid except a
      draft, and anything not yet paid or cancelled may be cancelled. */
  function CanTransitionInvoice(from: InvoiceStatus, to: InvoiceStatus): (r: bool)
    ensures r <==> match to
      case Draft => false
      case Overdue => false
      case Sent => from == Draft
      case Partial => from == Sent || from == Overdue
      case Paid => from == Sent || from == Partial || from == Overdue
      case Cancelled => from != Paid && from != Cancelled
  {
    to in NextInvoiceStatuses(from)
  }

  /** Paid and cancelled invoices are final and no status moves to itself. */
  lemma InvoiceTransitionFacts(from: InvoiceStatus, to: InvoiceStatus)
    ensures !CanTransitionInvoice(Paid, to) && !CanTransitionInvoice(Cancelled, to)
    ensures !CanTransitionInvoice(from, from)
  {
  }

  /** The table lets a draft be cancelled, but with nothing paid the save
      that follows writes `sent`; likewise a sent invoice marked `paid`
      without any payment stays `sent`. */
  lemma TableOverriddenBySave(total: int)
    ensures CanTransitionInvoice(Draft, Cancelled) && DerivedStatus(Cancelled, 0, total) == Sent
    ensures CanTransitionInvoice(Sent, Paid) && DerivedStatus(Paid, 0, total) == Sent
  {
  }

  /** A status-change note goes after the existing notes and a newline, or
      becomes the notes when there are none. */
  function AppendNote(existing: string, note: string): (r: string)
    ensures existing == "" ==> r == note
    ensures existing != "" ==> |r| == |existing| + 1 + |note| && r[|existing|] == '\n'
    ensures r[..|existing|] == existing && r[|r| - |note|..] == note
  {
    if existing == "" then note else existing + "\n" + note
  }

  // ---------------------------------------------------------------------
  // The handlers

  /** `generateInvoiceNumber`: `FTR`, the year, the two-digit month and a
      four-digit random number. The clock and the random draw are parameters. */
  function GeneratedNumber(year: nat, month: nat, random: nat): (r: string)
    ensures |r| > 3 && r[..3] == "FTR"
    ensures forall i :: 3 <= i < |r| ==> IsDigit(r[i])
  {
    var y := NatToString(year);
    var m := PadStart(NatToString(month), 2, '0');
    var n := PadStart(NatToString(random), 4, '0');
    PadStartDigits(NatToString(month), 2);
    PadStartDigits(NatToString(random), 4);
    var r := "FTR" + y + m + n;
    assert forall i :: 3 <= i < |r| ==> r[i] == (y + m + n)[i - 3];
    r
  }

  /** The controller always sets its own `FTR` number, so the numbering
      hook never runs on a created invoice; and were it to follow one, it
      would find no `INV-` counter there and start again at `INV-000001`. */
  lemma GeneratedNumberRestartsSequence(year: nat, month: nat, random: nat)
    ensures NextInvoiceNumber(Some(GeneratedNumber(year, month, random))) == NextInvoiceNumber(None)
  {
    var s := GeneratedNumber(year, month, random);
    assert s[..3][0] == s[0] && s[..3][1] == s[1] && s[..3][2] == s[2];
    UnmarkedNumberRestarts(s);
  }

  /** The body of a create request. The amounts and the payment method are
      checked by the schema but not read by the handler. */
  datatype CreateInvoiceRequest = CreateInvoiceRequest(
    patient: Option<string>,
    treatments: Option<seq<LineItem>>,
    subtotal: Option<int>,
    taxAmount: Option<int>,
    totalAmount: Option<int>,
    paidAmount: Option<int>,
    remainingAmount: Option<int>,
    dueDate: Option<int>,
    paymentMethod: Option<string>,
    notes: Option<string>)

  predicate NonNegativeIfPresent(x: Option<int>) {
    x.Some? ==> x.value >= 0
  }

  /** `createInvoiceSchema`: a well-formed patient id and a due date are
      required, the lines obey the line rules, the optional amounts are at
      least 0, an optional payment method is one of the five and optional
      notes are not empty. */
  predicate CreateInvoiceRequestValid(req: CreateInvoiceRequest) {
    && req.patient.Some? && IsObjectId(req.patient.value)
    && (req.treatments.Some? ==> ItemsValid(req.treatments.value))
    && NonNegativeIfPresent(req.subtotal) && NonNegativeIfPresent(req.taxAmount)
    && NonNegativeIfPresent(req.totalAmount) && NonNegativeIfPresent(req.paidAmount)
    && NonNegativeIfPresent(req.remainingAmount)
    && req.dueDate.Some?
    && (req.paymentMethod.Some? ==> ParsePaymentMethod(req.paymentMethod.value).Some?)
    && (req.notes.Some? ==> req.notes.value != "")
  }

  /** The ids of the treatment records the lines refer to. */
  function ReferencedTreatments(items: seq<LineItem>): (r: seq<string>)
    ensures |r| <= |items|
    ensures forall t :: t in r <==> exists i :: 0 <= i < |items| && items[i].treatment == Some(t)
  {
    if items == [] then []
    else
      var rest := ReferencedTreatments(items[1..]);
      assert forall i :: 1 <= i < |items| ==> items[i] == items[1..][i - 1];
      assert forall i :: 0 <= i < |items| - 1 ==> items[1..][i] == items[i + 1];
      match items[0].treatment
      case Some(t) => [t] + rest
      case None => rest
  }

  /** The treatment check: `Treatment.find` with `$in` returns each stored
      record once, and the request is refused unless that count equals the
      number of references. */
  predicate TreatmentsFound(items: seq<LineItem>, stored: set<string>) {
    var ids := ReferencedTreatments(items);
    ids == [] || |(set t | t in ids) * stored| == |ids|
  }

  /** A line list naming the same stored treatment twice is refused,
      although the treatment exists. */
  lemma RepeatedTreatmentRefused()
    ensures var line := LineItem(Some("t1"), "dolgu", 1, 100, None);
      !TreatmentsFound([line, line], {"t1"})
  {
    var line := LineItem(Some("t1"), "dolgu", 1, 100, None);
    assert ReferencedTreatments([line, line]) == ["t1", "t1"] by {
      assert [line, line][1..] == [line];
      assert [line][1..] == [];
    }
    assert (set t | t in ["t1", "t1"]) * {"t1"} == {"t1"};
  }

  /** `createInvoice`: validate, look up the patient and the referenced
      treatments, then store a draft with the computed totals, nothing paid
      and the whole total remaining, under a generated `FTR` number. The
      request's due date is checked but not copied onto the document. */
  method CreateInvoice(req: CreateInvoiceRequest, patientExists: bool, storedTreatments: set<string>,
                       year: nat, month: nat, random: nat, user: string, now: int)
    returns (r: Result<Invoice, InvoiceError>)
    ensures !CreateInvoiceRequestValid(req) ==> r == Failure(ValidationFailed)
    ensures CreateInvoiceRequestValid(req) && !patientExists ==> r == Failure(PatientNotFound)
    ensures CreateInvoiceRequestValid(req) && patientExists ==>
      (r == Failure(TreatmentsNotFound) <==> !TreatmentsFound(req.treatments.GetOr([]), storedTreatments))
    ensures r.Success? <==>
      CreateInvoiceRequestValid(req) && patientExists && TreatmentsFound(req.treatments.GetOr([]), storedTreatments)
    ensures r.Success? ==>
      var inv := r.value;
      var items := req.treatments.GetOr([]);
      && fresh(inv) && inv.Valid() && !inv.isNew
      && inv.patient == req.patient.value && inv.treatments == items
      && inv.subtotal == SumLines(items) && inv.taxAmount == 0 && inv.totalAmount == inv.subtotal
      && inv.paidAmount == 0 && inv.remainingAmount == inv.totalAmount && inv.payments == []
      && inv.status == Draft && inv.paymentDate == None
      && inv.invoiceNumber == GeneratedNumber(year, month, random)
      && inv.dueDate == None && inv.createdBy == user
  {
    if !CreateInvoiceRequestValid(req) {
      return Failure(ValidationFailed);
    }
    if !patientExists {
      return Failure(PatientNotFound);
    }
    var items := req.treatments.GetOr([]);
    if !TreatmentsFound(items, storedTreatments) {
      return Failure(TreatmentsNotFound);
    }
    var subtotal, taxAmount, totalAmount := CalculateTotals(items);
    var inv := new Invoice(GeneratedNumber(year, month, random), req.patient.value, items,
                           subtotal, taxAmount, totalAmount, 0, totalAmount, Draft, None, user);
    inv.Save(None, now);
    return Success(inv);
  }

  datatype UpdateInvoiceRequest = UpdateInvoiceRequest(
    treatments: Option<seq<LineItem>>,
    dueDate: Option<int>,
    notes: Option<string>)

  predicate UpdateInvoiceRequestValid(req: UpdateInvoiceRequest) {
    && (req.treatments.Some? ==> ItemsValid(req.treatments.value))
    && (req.notes.Some? ==> req.notes.value != "")
  }

  /** `updateInvoice`: a paid invoice cannot be edited. New lines replace
      the old and the totals are recomputed from them, with the remainder
      the new total minus what was paid, which is negative when the new
      total is below it; the due date and notes given replace the old; the
      save then re-derives the status. Payments are untouched. */
  method UpdateInvoice(inv: Invoice?, req: UpdateInvoiceRequest, now: int) returns (r: Result<(), InvoiceError>)
    requires inv != null ==> inv.Valid() && !inv.isNew
    modifies inv
    ensures !UpdateInvoiceRequestValid(req) ==> r == Failure(ValidationFailed)
    ensures UpdateInvoiceRequestValid(req) && inv == null ==> r == Failure(InvoiceNotFound)
    ensures UpdateInvoiceRequestValid(req) && inv != null ==>
      (r == Failure(PaidInvoiceLocked) <==> old(inv.status) == Paid)
    ensures r.Success? <==> UpdateInvoiceRequestValid(req) && inv != null && old(inv.status) != Paid
    ensures r.Failure? && inv != null ==> unchanged(inv)
    ensures r.Success? ==>
      && inv != null && inv.Valid()
      && inv.treatments == req.treatments.GetOr(old(inv.treatments))
      && inv.subtotal == (if req.treatments.Some? then SumLines(req.treatments.value) else old(inv.subtotal))
      && inv.taxAmount == (if req.treatments.Some? then 0 else old(inv.taxAmount))
      && inv.totalAmount == (if req.treatments.Some? then inv.subtotal else old(inv.totalAmount))
      && inv.remainingAmount == inv.totalAmount - inv.paidAmount
      && inv.paidAmount == old(inv.paidAmount) && inv.payments == old(inv.payments)
      && inv.status == DerivedStatus(old(inv.status), inv.paidAmount, inv.totalAmount)
      && inv.dueDate == (if req.dueDate.Some? then req.dueDate else old(inv.dueDate))
      && inv.notes == req.notes.GetOr(old(inv.notes))
      && inv.paymentDate == (if inv.status == Paid && old(inv.paymentDate).None? then Some(now) else old(inv.paymentDate))
      && inv.invoiceNumber == old(inv.invoiceNumber) && inv.patient == old(inv.patient)
      && inv.createdBy == old(inv.createdBy) && !inv.isNew
  {
    if !UpdateInvoiceRequestValid(req) {
      return Failure(ValidationFailed);
    }
    if inv == null {
      return Failure(InvoiceNotFound);
    }
    if inv.status == Paid {
      return Failure(PaidInvoiceLocked);
    }
    ApplyEdit(inv, req);
    inv.Save(None, now);
    return Success(());
  }

  /** The `Object.assign` of `updateInvoice`, with the totals recomputed
      when new lines are given. */
  method ApplyEdit(inv: Invoice, req: UpdateInvoiceRequest)
    modifies inv
    ensures inv.treatments == req.treatments.GetOr(old(inv.treatments))
    ensures inv.subtotal == (if req.treatments.Some? then SumLines(req.treatments.value) else old(inv.subtotal))
    ensures inv.taxAmount == (if req.treatments.Some? then 0 else old(inv.taxAmount))
    ensures inv.totalAmount == (if req.treatments.Some? then inv.subtotal else old(inv.totalAmount))
    ensures inv.dueDate == (if req.dueDate.Some? then req.dueDate else old(inv.dueDate))
    ensures inv.notes == req.notes.GetOr(old(inv.notes))
    ensures inv.paidAmount == old(inv.paidAmount) && inv.payments == old(inv.payments)
    ensures inv.status == old(inv.status) && inv.invoiceNumber == old(inv.invoiceNumber)
    ensures inv.remainingAmount ==
      (if req.treatments.Some? then inv.totalAmount - inv.paidAmount else old(inv.remainingAmount))
    ensures inv.isNew == old(inv.isNew) && inv.patient == old(inv.patient)
    ensures inv.createdBy == old(inv.createdBy) && inv.paymentDate == old(inv.paymentDate)
  {
    if req.treatments.Some? {
      var subtotal, taxAmount, totalAmount := CalculateTotals(req.treatments.value);
      inv.treatments := req.treatments.value;
      inv.subtotal := subtotal;
      inv.taxAmount := taxAmount;
      inv.totalAmount := totalAmount;
      inv.remainingAmount := totalAmount - inv.paidAmount;
    }
    if req.dueDate.Some? {
      inv.dueDate := req.dueDate;
    }
    if req.notes.Some? {
      inv.notes := req.notes.value;
    }
  }

  /** `updateInvoiceStatus`: the status must be one of the six names and the
      table must allow the move; a note is appended to the notes. The save
      then re-derives the status from the amounts, so the requested status
      is kept only when the amounts give it. */
  method UpdateInvoiceStatus(inv: Invoice?, status: Option<string>, note: Option<string>, now: int)
    returns (r: Result<(), InvoiceError>)
    requires inv != null ==> inv.Valid() && !inv.isNew
    modifies inv
    ensures status.None? || ParseInvoiceStatus(status.value).None? || (note.Some? && note.value == "") ==>
      r == Failure(ValidationFailed)
    ensures r.Failure? && inv != null ==> unchanged(inv)
    ensures r.Success? ==>
      && inv != null && status.Some? && ParseInvoiceStatus(status.value).Some?
      && CanTransitionInvoice(old(inv.status), ParseInvoiceStatus(status.value).value)
    ensures status.Some? && ParseInvoiceStatus(status.value).Some? && (note.None? || note.value != "") && inv == null
      ==> r == Failure(InvoiceNotFound)
    ensures status.Some? && ParseInvoiceStatus(status.value).Some? && inv != null
      && (note.None? || note.value != "") && !CanTransitionInvoice(old(inv.status), ParseInvoiceStatus(status.value).value)
      ==> r == Failure(InvalidTransition(old(inv.status), ParseInvoiceStatus(status.value).value))
    ensures r.Success? <==>
      && status.Some? && ParseInvoiceStatus(status.value).Some? && (note.None? || note.value != "") && inv != null
      && CanTransitionInvoice(old(inv.status), ParseInvoiceStatus(status.value).value)
    ensures r.Success? ==>
      && inv.Valid()
      && inv.status == DerivedStatus(ParseInvoiceStatus(status.value).value, inv.paidAmount, inv.totalAmount)
      && inv.notes == (if note.Some? then AppendNote(old(inv.notes), note.value) else old(inv.notes))
      && inv.paidAmount == old(inv.paidAmount) && inv.totalAmount == old(inv.totalAmount)
      && inv.payments == old(inv.payments) && inv.treatments == old(inv.treatments)
      && inv.remainingAmount == inv.totalAmount - inv.paidAmount
      && inv.paymentDate == (if inv.status == Paid && old(inv.paymentDate).None? then Some(now) else old(inv.paymentDate))
      && inv.subtotal == old(inv.subtotal) && inv.taxAmount == old(inv.taxAmount)
      && inv.dueDate == old(inv.dueDate) && inv.patient == old(inv.patient)
      && inv.createdBy == old(inv.createdBy) && inv.invoiceNumber == old(inv.invoiceNumber)
      && !inv.isNew
  {
    if status.None? || (note.Some? && note.value == "") {
      return Failure(ValidationFailed);
    }
    var s := ParseInvoiceStatus(status.value);
    if s.None? {
      return Failure(ValidationFailed);
    }
    if inv == null {
      return Failure(InvoiceNotFound);
    }
    if !CanTransitionInvoice(inv.status, s.value) {
      return Failure(InvalidTransition(inv.status, s.value));
    }
    MoveStatus(inv, s.value, note, now);
    return Success(());
  }

  /** The steps of `updateInvoiceStatus` after its checks: set the status,
      append the note, and save. */
  method MoveStatus(inv: Invoice, to: InvoiceStatus, note: Option<string>, now: int)
    requires inv.Valid()
    modifies inv
    ensures inv.Valid()
    ensures inv.status == DerivedStatus(to, inv.paidAmount, inv.totalAmount)
    ensures inv.notes == (if note.Some? then AppendNote(old(inv.notes), note.value) else old(inv.notes))
    ensures inv.paidAmount == old(inv.paidAmount) && inv.totalAmount == old(inv.totalAmount)
    ensures inv.payments == old(inv.payments) && inv.treatments == old(inv.treatments)
    ensures inv.remainingAmount == inv.totalAmount - inv.paidAmount
    ensures inv.paymentDate == (if inv.status == Paid && old(inv.paymentDate).None? then Some(now) else old(inv.paymentDate))
    ensures inv.subtotal == old(inv.subtotal) && inv.taxAmount == old(inv.taxAmount)
    ensures inv.dueDate == old(inv.dueDate) && inv.patient == old(inv.patient)
    ensures inv.createdBy == old(inv.createdBy)
    ensures inv.invoiceNumber == (if old(inv.isNew) && old(inv.invoiceNumber) == "" then NextInvoiceNumber(None) else old(inv.invoiceNumber))
    ensures !inv.isNew
  {
    var notes := if note.Some? then AppendNote(inv.notes, note.value) else inv.notes;
    inv.status, inv.notes := to, notes;
    assert inv.paidAmount == SumPayments(inv.payments);
    inv.Save(None, now);
  }

  datatype PaymentRequest = PaymentRequest(
    invoiceId: Option<string>,
    amount: Option<int>,
    paymentMethod: Option<string>,
    paymentDate: Option<int>,
    reference: Option<string>,
    notes: Option<string>)

  /** `createPaymentSchema`: a well-formed invoice id, an amount of at least
      0.01 TL (one kuruş) and a known method are required; the payment date
      defaults to now. The handler's lookup of that id is the `inv`
      parameter of `CreatePayment`. */
  predicate PaymentRequestValid(req: PaymentRequest) {
    && req.invoiceId.Some? && IsObjectId(req.invoiceId.value)
    && req.amount.Some? && req.amount.value >= 1
    && req.paymentMethod.Some? && ParsePaymentMethod(req.paymentMethod.value).Some?
    && (req.reference.Some? ==> req.reference.value != "")
    && (req.notes.Some? ==> req.notes.value != "")
  }

  /** The status `createPayment` sets from the new remainder: `paid` when
      nothing remains, `partial` when some but not all of the total remains,
      else unchanged. */
  function PaymentStatus(s: InvoiceStatus, remaining: int, total: int): (r: InvoiceStatus)
    ensures remaining == 0 ==> r == Paid
    ensures remaining != 0 && remaining < total ==> r == Partial
    ensures remaining != 0 && remaining >= total ==> r == s
    ensures r != s ==> r == Paid || r == Partial
  {
    if remaining == 0 then Paid
    else if remaining < total then Partial
    else s
  }

  /** For a payment the guard accepted, the controller's own status rule and
      the save hook agree, so the hook leaves the controller's status. */
  lemma PaymentStatusAgreesWithHook(s: InvoiceStatus, paid: int, amount: int, total: int)
    requires paid >= 0 && 1 <= amount <= total - paid
    ensures var newPaid := paid + amount;
      var st := PaymentStatus(s, total - newPaid, total);
      && DerivedStatus(st, newPaid, total) == st
      && (st == Paid <==> newPaid == total)
      && (st == Partial <==> newPaid < total)
  {
  }

  /** A payment on a cancelled invoice is not refused: it becomes `partial`
      or `paid` like any other. */
  lemma CancelledInvoiceTakesPayment(total: int)
    requires total > 1
    ensures PaymentStatus(Cancelled, total - 1, total) == Partial
    ensures PaymentStatus(Cancelled, 0, total) == Paid
  {
  }

  /** `createPayment`: a payment above the remainder is refused and nothing
      changes; otherwise exactly one payment is appended, the paid amount
      grows by the payment, the remainder is the total minus the paid
      amount, never negative, and the status follows the remainder. */
  method CreatePayment(inv: Invoice?, req: PaymentRequest, now: int) returns (r: Result<Payment, InvoiceError>)
    requires inv != null ==> inv.Valid() && !inv.isNew && inv.paidAmount >= 0
    modifies inv
    ensures !PaymentRequestValid(req) ==> r == Failure(ValidationFailed)
    ensures PaymentRequestValid(req) && inv == null ==> r == Failure(InvoiceNotFound)
    ensures PaymentRequestValid(req) && inv != null ==>
      (r == Failure(Overpayment) <==> req.amount.value > old(inv.remainingAmount))
    ensures r.Success? <==> PaymentRequestValid(req) && inv != null && req.amount.value <= old(inv.remainingAmount)
    ensures r.Failure? && inv != null ==> unchanged(inv)
    ensures r.Success? ==>
      && inv != null && inv.Valid()
      && r.value == Payment(req.paymentDate.GetOr(now), req.amount.value,
                            ParsePaymentMethod(req.paymentMethod.value).value, req.reference, req.notes)
      && inv.payments == old(inv.payments) + [r.value]
      && inv.paidAmount == old(inv.paidAmount) + r.value.amount
      && inv.remainingAmount == inv.totalAmount - inv.paidAmount && inv.remainingAmount >= 0
      && inv.status == PaymentStatus(old(inv.status), inv.remainingAmount, inv.totalAmount)
      && inv.totalAmount == old(inv.totalAmount) && inv.treatments == old(inv.treatments)
      && inv.paymentDate == (if inv.status == Paid && old(inv.paymentDate).None? then Some(now) else old(inv.paymentDate))
      && inv.subtotal == old(inv.subtotal) && inv.taxAmount == old(inv.taxAmount)
      && inv.dueDate == old(inv.dueDate) && inv.notes == old(inv.notes)
      && inv.patient == old(inv.patient) && inv.createdBy == old(inv.createdBy)
      && inv.invoiceNumber == old(inv.invoiceNumber) && !inv.isNew
  {
    if !PaymentRequestValid(req) {
      return Failure(ValidationFailed);
    }
    if inv == null {
      return Failure(InvoiceNotFound);
    }
    var amount := req.amount.value;
    if amount > inv.remainingAmount {
      return Failure(Overpayment);
    }
    var payment := Payment(req.paymentDate.GetOr(now), amount,
                           ParsePaymentMethod(req.paymentMethod.value).value, req.reference, req.notes);
    PaymentStatusAgreesWithHook(inv.status, inv.paidAmount, amount, inv.totalAmount);
    ApplyPayment(inv, payment);
    inv.Save(None, now);
    return Success(payment);
  }

  /** The steps of `createPayment` before its save: append the payment, add
      it to the paid amount, recompute the remainder and set the status. */
  method ApplyPayment(inv: Invoice, payment: Payment)
    modifies inv
    ensures inv.payments == old(inv.payments) + [payment]
    ensures SumPayments(inv.payments) == SumPayments(old(inv.payments)) + payment.amount
    ensures inv.paidAmount == old(inv.paidAmount) + payment.amount
    ensures inv.remainingAmount == inv.totalAmount - inv.paidAmount
    ensures inv.status == PaymentStatus(old(inv.status), inv.remainingAmount, inv.totalAmount)
    ensures inv.totalAmount == old(inv.totalAmount) && inv.treatments == old(inv.treatments)
    ensures inv.invoiceNumber == old(inv.invoiceNumber) && inv.isNew == old(inv.isNew)
    ensures inv.subtotal == old(inv.subtotal) && inv.taxAmount == old(inv.taxAmount)
    ensures inv.dueDate == old(inv.dueDate) && inv.notes == old(inv.notes)
    ensures inv.patient == old(inv.patient) && inv.createdBy == old(inv.createdBy)
    ensures inv.paymentDate == old(inv.paymentDate)
  {
    SumPaymentsAppend(inv.payments, payment);
    inv.payments := inv.payments + [payment];
    inv.paidAmount := inv.paidAmount + payment.amount;
    inv.remainingAmount := inv.totalAmount - inv.paidAmount;
    if inv.remainingAmount == 0 {
      inv.status := Paid;
    } else if inv.remainingAmount < inv.totalAmount {
      inv.status := Partial;
    }
  }
}
