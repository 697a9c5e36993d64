/** The invoice document (api/models/Invoice.ts): its fields and its two
    pre-save hooks, the one that re-derives `remainingAmount`, `status` and
    `paymentDate` from the amounts, and the one that numbers a new invoice
    `INV-` and a six-digit counter. Money is whole kuruş; dates are whole
    minutes. */
module InvoiceModel {
  import opened Outcomes
  import opened Decimal

  datatype InvoiceStatus = Draft | Sent | Paid | Partial | Overdue | Cancelled

  function InvoiceStatusName(s: InvoiceStatus): string {
    match s
    case Draft => "draft"
    case Sent => "sent"
    case Paid => "paid"
    case Partial => "partial"
    case Overdue => "overdue"
    case Cancelled => "cancelled"
  }

  /** The status a string names, if it is one of the six of the schema's enum. */
  function ParseInvoiceStatus(name: string): (r: Option<InvoiceStatus>)
    ensures r.Some? ==> InvoiceStatusName(r.value) == name
    ensures forall s :: InvoiceStatusName(s) == name ==> r == Some(s)
  {
    if name == "draft" then Some(Draft)
    else if name == "sent" then Some(Sent)
    else if name == "paid" then Some(Paid)
    else if name == "partial" then Some(Partial)
    else if name == "overdue" then Some(Overdue)
    else if name == "cancelled" then Some(Cancelled)
    else None
  }

  datatype PaymentMethod = Cash | CreditCard | BankTransfer | Check | Other

  function ParsePaymentMethod(name: string): (r: Option<PaymentMethod>)
    ensures r.Some? <==> name in ["cash", "credit_card", "bank_transfer", "check", "other"]
  {
    if name == "cash" then Some(Cash)
    else if name == "credit_card" then Some(CreditCard)
    else if name == "bank_transfer" then Some(BankTransfer)
    else if name == "check" then Some(Check)
    else if name == "other" then Some(Other)
    else None
  }

  /** One billed line. `treatment` is the optional reference to a treatment
      record; `totalPrice` is optional in requests. */
  datatype LineItem = LineItem(
    treatment: Option<string>,
    description: string,
    quantity: int,
    unitPrice: int,
    totalPrice: Option<int>)

  datatype Payment = Payment(
    date: int,
    amount: int,
    paymentMethod: PaymentMethod,
    reference: Option<string>,
    notes: Option<string>)

  function SumPayments(ps: seq<Payment>): int {
    if ps == [] then 0 else SumPayments(ps[..|ps| - 1]) + ps[|ps| - 1].amount
  }

  lemma SumPaymentsAppend(ps: seq<Payment>, p: Payment)
    ensures SumPayments(ps + [p]) == SumPayments(ps) + p.amount
  {
    assert (ps + [p])[..|ps|] == ps;
  }

  // ---------------------------------------------------------------------
  // The amount hook

  /** The status the first pre-save hook gives: nothing paid leaves a draft
      a draft and makes anything else `sent`; a part paid makes it
      `partial`; the whole (or more) paid makes it `paid`. */
  function DerivedStatus(s: InvoiceStatus, paid: int, total: int): (r: InvoiceStatus)
    ensures paid == 0 ==> (r == Draft <==> s == Draft) && (r == Draft || r == Sent)
    ensures paid != 0 && paid < total ==> r == Partial
    ensures paid != 0 && paid >= total ==> r == Paid
    ensures r != Overdue && r != Cancelled
  {
    if paid == 0 then (if s == Draft then Draft else Sent)
    else if paid < total then Partial
    else Paid
  }

  /** Deriving again changes nothing: a status the hook wrote survives the
      next save with the same amounts. */
  lemma DerivedStatusIdempotent(s: InvoiceStatus, paid: int, total: int)
    ensures DerivedStatus(DerivedStatus(s, paid, total), paid, total) == DerivedStatus(s, paid, total)
  {
  }

  /** The hook overrides explicit statuses: an unpaid invoice set to
      `cancelled` or `overdue` is saved as `sent`, one set to `paid` with
      nothing paid is saved as `sent`, and a draft that is partly paid is
      `partial`. */
  lemma ExplicitStatusOverridden(total: int)
    ensures DerivedStatus(Cancelled, 0, total) == Sent
    ensures DerivedStatus(Overdue, 0, total) == Sent
    ensures DerivedStatus(Paid, 0, total) == Sent
    ensures total > 1 ==> DerivedStatus(Draft, 1, total) == Partial
  {
  }

  /** The previous status only matters when nothing is paid, and then only
      whether it was a draft. */
  lemma DerivedStatusDependsOnAmounts(s: InvoiceStatus, t: InvoiceStatus, paid: int, total: int)
    requires paid != 0 || (s == Draft <==> t == Draft)
    ensures DerivedStatus(s, paid, total) == DerivedStatus(t, paid, total)
  {
  }

  // ---------------------------------------------------------------------
  // The number hook

  /** `INV-` followed by at least one digit starts at `i`. */
  predicate MarkerAt(s: string, i: nat) {
    i + 5 <= |s| && s[i..i + 4] == "INV-" && IsDigit(s[i + 4])
  }

  /** The leftmost place from `from` on where `/INV-(\d+)/` matches. */
  function FirstMarker(s: string, from: nat): (r: Option<nat>)
    ensures r.Some? ==> from <= r.value && MarkerAt(s, r.value)
    ensures r.Some? ==> forall j: nat :: from <= j < r.value ==> !MarkerAt(s, j)
    ensures r.None? ==> forall j: nat :: from <= j ==> !MarkerAt(s, j)
    decreases |s| - from
  {
    if from + 5 > |s| then None
    else if MarkerAt(s, from) then Some(from)
    else FirstMarker(s, from + 1)
  }

  /** `parseInt` of the digits the leftmost `/INV-(\d+)/` match captures. */
  function ParseCounter(s: string): (r: Option<nat>)
    ensures r.Some? <==> exists i: nat :: MarkerAt(s, i)
  {
    match FirstMarker(s, 0)
    case None => None
    case Some(i) =>
      var digits := s[i + 4..];
      Some(Value(digits[..DigitRun(digits)]))
  }

  /** `INV-` and the counter left-padded with zeros to six digits. */
  function FormatInvoiceNumber(n: nat): (r: string)
    ensures |r| == 4 + if |NatToString(n)| < 6 then 6 else |NatToString(n)|
    ensures r[..4] == "INV-" && AllDigits(r[4..])
    ensures r[|r| - |NatToString(n)|..] == NatToString(n)
  {
    var padded := PadStart(NatToString(n), 6, '0');
    PadStartDigits(NatToString(n), 6);
    var r := "INV-" + padded;
    assert r[4..] == padded;
    r
  }

  /** The counter of the last invoice, 0 when there is none, it has no
      number, or its number does not match. */
  function LastCounter(lastInvoiceNumber: Option<string>): nat {
    match lastInvoiceNumber
    case None => 0
    case Some(s) => if s == "" then 0 else ParseCounter(s).GetOr(0)
  }

  /** The number the second pre-save hook gives a new invoice. */
  function NextInvoiceNumber(lastInvoiceNumber: Option<string>): string {
    FormatInvoiceNumber(LastCounter(lastInvoiceNumber) + 1)
  }

  /** `INV-` and the digits `digits`, then anything that does not start
      with a digit: the counter read is the value of those digits. */
  lemma ReadCounter(digits: string, rest: string)
    requires digits != [] && AllDigits(digits)
    requires rest == [] || !IsDigit(rest[0])
    ensures ParseCounter("INV-" + digits + rest) == Some(Value(digits))
  {
    var s := "INV-" + digits + rest;
    assert s[0..4] == "INV-" && s[4] == digits[0];
    assert MarkerAt(s, 0);
    assert s[4..] == digits + rest;
    DigitRunOfDigitsThen(digits, rest);
    assert (digits + rest)[..|digits|] == digits;
  }

  /** The padding keeps every digit and adds only zeros, so the number is
      read back as the counter it was made from, however large. */
  lemma InvoiceNumberRoundTrip(n: nat)
    ensures ParseCounter(FormatInvoiceNumber(n)) == Some(n)
  {
    var ds := NatToString(n);
    var padded := PadStart(ds, 6, '0');
    var k := |padded| - |ds|;
    assert padded == Repeat('0', k) + ds;
    ValueIgnoresLeadingZeros(k, ds);
    ValueOfNatToString(n);
    assert "INV-" + padded + [] == FormatInvoiceNumber(n);
    ReadCounter(padded, []);
  }

  /** Numbers follow one another: after `INV-` n the next is `INV-` n + 1. */
  lemma InvoiceNumbersContinue(n: nat)
    ensures NextInvoiceNumber(Some(FormatInvoiceNumber(n))) == FormatInvoiceNumber(n + 1)
  {
    var s := FormatInvoiceNumber(n);
    assert s != "" by { assert s[..4] == "INV-"; }
    InvoiceNumberRoundTrip(n);
    assert LastCounter(Some(s)) == n;
  }

  /** With no previous number, or an empty one, the sequence starts at
      `INV-000001`. */
  lemma FirstInvoiceNumber()
    ensures NextInvoiceNumber(None) == "INV-000001"
    ensures NextInvoiceNumber(Some("")) == "INV-000001"
  {
    assert NatToString(1) == "1";
    assert PadStart("1", 6, '0') == Repeat('0', 5) + "1";
    assert Repeat('0', 5) == "00000";
  }

  /** Past 999999 the counter keeps all its digits. */
  lemma SeventhDigitKept()
    ensures FormatInvoiceNumber(1000000) == "INV-1000000"
  {
    assert NatToString(10) == "10";
    assert NatToString(100) == "100";
    assert NatToString(1000) == "1000";
    assert NatToString(10000) == "10000";
    assert NatToString(100000) == "100000";
    assert NatToString(1000000) == "1000000";
  }

  /** A number that does not contain the marker restarts the sequence. */
  lemma UnmarkedNumberRestarts(s: string)
    requires s != "" && forall i :: 0 <= i < |s| ==> s[i] != 'I'
    ensures NextInvoiceNumber(Some(s)) == NextInvoiceNumber(None)
  {
    forall i: nat ensures !MarkerAt(s, i) {
      if i + 5 <= |s| {
        assert s[i..i + 4][0] == s[i] != 'I';
      }
    }
    assert ParseCounter(s).None?;
    assert LastCounter(Some(s)) == 0;
  }

  // ---------------------------------------------------------------------
  // The document

  class Invoice {
    /** "" while the document has no number. */
    var invoiceNumber: string
    var patient: string
    var treatments: seq<LineItem>
    var subtotal: int
    var taxAmount: int
    var totalAmount: int
    var paidAmount: int
    var remainingAmount: int
    var status: InvoiceStatus
    var dueDate: Option<int>
    var paymentDate: Option<int>
    /** "" stands for no notes: the source treats both alike. */
    var notes: string
    var createdBy: string
    var payments: seq<Payment>
    /** Not yet saved. */
    var isNew: bool

    /** What every save leaves true: the remainder is total minus paid, the
        paid amount is the sum of the recorded payments, and the status is
        the one the amounts give. */
    ghost predicate Valid()
      reads this
    {
      && remainingAmount == totalAmount - paidAmount
      && paidAmount == SumPayments(payments)
      && DerivedStatus(status, paidAmount, totalAmount) == status
    }

    constructor (invoiceNumber: string, patient: string, treatments: seq<LineItem>,
                 subtotal: int, taxAmount: int, totalAmount: int, paidAmount: int, remainingAmount: int,
                 status: InvoiceStatus, dueDate: Option<int>, createdBy: string)
      ensures this.invoiceNumber == invoiceNumber && this.patient == patient && this.treatments == treatments
      ensures this.subtotal == subtotal && this.taxAmount == taxAmount && this.totalAmount == totalAmount
      ensures this.paidAmount == paidAmount && this.remainingAmount == remainingAmount
      ensures this.status == status && this.dueDate == dueDate && this.createdBy == createdBy
      ensures paymentDate == None && notes == "" && payments == [] && isNew
    {
      this.invoiceNumber := invoiceNumber;
      this.patient := patient;
      this.treatments := treatments;
      this.subtotal := subtotal;
      this.taxAmount := taxAmount;
      this.totalAmount := totalAmount;
      this.paidAmount := paidAmount;
      this.remainingAmount := remainingAmount;
      this.status := status;
      this.dueDate := dueDate;
      this.paymentDate := None;
      this.notes := "";
      this.createdBy := createdBy;
      this.payments := [];
      this.isNew := true;
    }

    /** The first pre-save hook: recompute the remainder and re-derive the
        status from the amounts, overriding whatever status was set; on the
        way to `paid`, stamp the payment date unless one is set. */
    method AmountHook(now: int)
      modifies this
      ensures remainingAmount == totalAmount - paidAmount
      ensures status == DerivedStatus(old(status), paidAmount, totalAmount)
      ensures paymentDate == if status == Paid && old(paymentDate).None? then Some(now) else old(paymentDate)
      ensures paidAmount == old(paidAmount) && totalAmount == old(totalAmount) && payments == old(payments)
      ensures invoiceNumber == old(invoiceNumber) && isNew == old(isNew)
      ensures patient == old(patient) && treatments == old(treatments) && subtotal == old(subtotal)
      ensures taxAmount == old(taxAmount) && dueDate == old(dueDate) && notes == old(notes)
      ensures createdBy == old(createdBy)
    {
      remainingAmount := totalAmount - paidAmount;
      if paidAmount == 0 {
        status := if status == Draft then Draft else Sent;
      } else if paidAmount < totalAmount {
        status := Partial;
      } else {
        status := Paid;
        if paymentDate.None? {
          paymentDate := Some(now);
        }
      }
    }

    /** The second pre-save hook: a new document with no number gets the
        one after `lastInvoiceNumber`, the number of the most recently
        created invoice. */
    method NumberHook(lastInvoiceNumber: Option<string>)
      modifies this`invoiceNumber
      ensures invoiceNumber ==
        if isNew && old(invoiceNumber) == "" then NextInvoiceNumber(lastInvoiceNumber) else old(invoiceNumber)
    {
      if isNew && invoiceNumber == "" {
        invoiceNumber := NextInvoiceNumber(lastInvoiceNumber);
      }
    }

    /** `save()`: both pre-save hooks, after which the document is no longer
        new. */
    method Save(lastInvoiceNumber: Option<string>, now: int)
      modifies this
      ensures remainingAmount == totalAmount - paidAmount
      ensures status == DerivedStatus(old(status), paidAmount, totalAmount)
      ensures paymentDate == if status == Paid && old(paymentDate).None? then Some(now) else old(paymentDate)
      ensures invoiceNumber ==
        if old(isNew) && old(invoiceNumber) == "" then NextInvoiceNumber(lastInvoiceNumber) else old(invoiceNumber)
      ensures !isNew
      ensures paidAmount == old(paidAmount) && totalAmount == old(totalAmount) && payments == old(payments)
      ensures patient == old(patient) && treatments == old(treatments) && subtotal == old(subtotal)
      ensures taxAmount == old(taxAmount) && dueDate == old(dueDate) && notes == old(notes)
      ensures createdBy == old(createdBy)
      ensures paidAmount == SumPayments(payments) ==> Valid()
    {
      AmountHook(now);
      NumberHook(lastInvoiceNumber);
      isNew := false;
      DerivedStatusIdempotent(old(status), paidAmount, totalAmount);
    }
  }
}
