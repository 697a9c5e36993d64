# Dental clinic back end: scheduling, billing and stock rules

This project models the business rules of a dental clinic's management
back end and proves properties about them. It covers five parts:

- **Booking appointments.** The conflict query that refuses a double
  booking, the two ways of listing free slots (a fixed grid in the
  controller, greedy packing in the model), the status life cycle, the
  delete guard and the request schemas.
- **Invoices.** Line totals, the status transition table, payments, and the
  pre-save hooks. These hooks recompute the remainder, re-derive the status
  from the amounts and number new invoices `INV-000001`, `INV-000002`, and
  so on.
- **Stock items.** Changing the quantity, restocking, the stock value and
  the low-stock flag.
- **Tooth entries.** ISO 3950 (FDI) two-digit tooth numbers, the listed tooth
  conditions and surfaces, and the tooth rules of the treatment schemas.
- **Patients.** The full name and the age in whole years.

## Conventions

- Times are whole minutes on one absolute scale. A day's window is the
  day's first minute plus 480 (08:00) up to plus 1080 (18:00).
- Money is whole kuruş. An appointment duration is a JavaScript number, so
  the request schemas see it as a `real` that must be integral.
- The database is a sequence of documents and `find` is a filter over it.
- Documents the handlers change in place are classes: `AppointmentStore`,
  `Invoice` and `InventoryItem`.
- The clock, the random part of a generated number, and the answers of
  lookups the model does not hold are parameters. Those lookups are whether
  the patient exists, whether the dentist is active, and which treatment
  records exist.

## Behaviour modelled as the code has it

The model follows the code as written. Lemmas exhibit each of these
behaviours.

- **Two start fields.**
  - `createAppointment` passes an `appointmentDate` to the new document, and
    the conflict query and the slot fetch filter on that field, although
    the document schema declares no such path.
  - The schema's start is `dateTime`. `overlapsWith`, the greedy slots, the
    grid's overlap test and `updateAppointment` use `dateTime`.
  - The model keeps both. `createAppointment` writes only `appointmentDate`.
    The model also fills `dateTime` from the same validated start, so that
    the span-based code has a start to read. An update moves only
    `dateTime`.
  - `RescheduleLeavesQueryStale` shows that a rescheduled appointment is
    then invisible to the conflict query at its new time.
- **Trimmed text.** The treatment type and the notes of an appointment
  and the batch number of a stock item are stored trimmed. A treatment
  type of white space only passes the request schemas, which run before
  the trim, and is then refused by the save
  (`BlankTreatmentTypePassesRequest`, `PatchKeepsSchema`).
- **End time.** The required `endTime` is never written. The end is taken
  as start plus duration.
- **Status spelling.** The API spells the status `no-show`; the user
  interface's `no_show` is refused.
- **Updates bypass the transition table.** `updateAppointment` assigns
  `status` directly, so a completed appointment can go back to `scheduled`
  (`UpdateBypassesTransitions`).
- **Reopening.** Reopening a cancelled appointment runs no conflict check
  (`ReopeningCanDoubleBook`).
- **Rescheduling uses the old dentist.** The conflict check of
  `updateAppointment` queries the document's current dentist, even when the
  update moves the appointment to another one.
- **The grid bounds only the start.** The controller's grid bounds only the
  slot start. With 45-minute slots the last slot offered runs 17:45–18:30
  (`FortyFiveMinuteSlotOverrunsClosing`).
- **Early appointments.** Both algorithms fetch only appointments that
  start inside the window. The 08:00 slot is therefore offered even when an
  appointment from 07:30 runs into it (`EarlyAppointmentNotFetched`).
- **The pre-save hook decides the invoice status.**
  - It re-derives every saved status from the amounts, so `cancelled` and
    `overdue` are never stored.
  - Cancelling an unpaid invoice stores `sent` (`TableOverriddenBySave`).
  - A payment on a cancelled invoice is accepted (`CancelledInvoiceTakesPayment`).
- **Created invoices get an `FTR` number.** `createInvoice` gives every
  invoice a generated `FTR…` number, so the `INV-` numbering hook never
  runs for it. When an `FTR` number is the latest one, the next `INV-`
  number restarts at `INV-000001` (`GeneratedNumberRestartsSequence`).
- **`createInvoice` does not copy the due date.** It checks the request's
  due date but does not copy it onto the document.
- **A repeated treatment id is refused.** The treatment check compares the
  number of stored records found with the number of references, so naming
  one stored treatment twice is refused (`RepeatedTreatmentRefused`).
- **The stock check comes after the change.** `updateQuantity` changes the
  quantity before checking it. A refused change stays in the unsaved
  document.

## Model

| member | source | states |
|---|---|---|
| AppointmentModel.ParseStatus | api/models/Appointment.ts:46-50 | a string is accepted exactly when it is the name of one of the five statuses, and the result is that status |
| AppointmentModel.UserInterfaceSpellingRejected | src/pages/Appointments.tsx:26 | the user interface's `no_show` names no status; the API's `no-show` names the no-show status |
| AppointmentModel.SchemaValidHasPositiveLength | api/models/Appointment.ts:40-45 | a document within the 15–480 minute bounds ends strictly after it starts, exactly `duration` minutes later |
| AppointmentModel.OverlapMeansSharedMinute | api/models/Appointment.ts:100-107 | two non-empty half-open spans overlap exactly when some minute lies in both |
| AppointmentModel.OverlapsWith | api/models/Appointment.ts:100-107 | `overlapsWith` holds exactly when each appointment starts before the other ends; for positive durations this is max of starts < min of ends; touching appointments do not overlap |
| AppointmentModel.FormattedDuration | api/models/Appointment.ts:86-97 | under an hour gives `M dakika`, whole hours give `H saat`, otherwise `H saat M dakika`, with H = d div 60 and M = d mod 60 |
| AppointmentModel.ReadLeadingNumber | api/models/Appointment.ts:86-97 | the leading number of a duration text is read back exactly, whatever non-digit text follows |
| AppointmentModel.ReadMinutesText | api/models/Appointment.ts:91 | the minutes text `M dakika` reads back as M |
| AppointmentModel.ReadHoursUnitsThenMinutes | api/models/Appointment.ts:95 | after the hours, the text ` saat M dakika` reads as the whole duration 60·H + M |
| AppointmentModel.ReadHoursAndMinutes | api/models/Appointment.ts:95 | the text `H saat M dakika` reads back as 60·H + M |
| AppointmentModel.FormattedDurationRoundTrip | api/models/Appointment.ts:86-97 | the duration text loses nothing: every non-negative duration is read back from it |
| AppointmentModel.AscendingConcat | api/models/Appointment.ts:138-157 | two ascending slot lists separated by a minute `m` join into one ascending list |
| AppointmentModel.FillUntilShape | api/models/Appointment.ts:138-144 | the inner loop's slots all last `d`, start from the current time, end by the limit and by where the loop stops, and come in strictly ascending disjoint order |
| AppointmentModel.PackShape | api/models/Appointment.ts:133-157 | the packed slots all last `d`, start no earlier than the start, ascend without overlapping each other, end by closing when every appointment starts by then, and overlap no appointment when the appointments are sorted by start |
| AppointmentModel.FillUntilCount | api/models/Appointment.ts:151-157 | with nothing booked, floor((limit − start) / d) back-to-back slots are laid from the start, and one more would not fit |
| AppointmentModel.DayBookings | api/models/Appointment.ts:121-128 | exactly the scheduled or confirmed appointments of the dentist that start within 08:00–18:00, sorted by start |
| AppointmentModel.PackSlots | api/models/Appointment.ts:130-159 | the two loops push exactly the greedy packing of the fetched appointments |
| AppointmentModel.FindAvailableSlots | api/models/Appointment.ts:110-160 | every slot lasts the duration (30 by default) and lies within 08:00–18:00; the slots strictly ascend without mutual overlap; none overlaps a fetched appointment; an empty day gives floor(600 / d) back-to-back slots from 08:00 |
| AppointmentValidator.AppointmentDuration | api/validators/appointment.ts:15-20 | a duration is accepted exactly when it is a whole number from 15 to 480, and it is kept unchanged |
| AppointmentValidator.AppointmentDurationBoundaries | api/validators/appointment.ts:15-20 | 15 and 480 are accepted; 14, 481 and 30.5 are refused |
| AppointmentValidator.StatusField | api/validators/appointment.ts:39 | an absent status passes; a present one passes exactly when it names one of the five statuses, and it yields that status |
| AppointmentValidator.ValidateCreate | api/validators/appointment.ts:3-25 | a create request passes exactly when the patient, dentist and treatment type are present and non-empty, the start is not before now, and the duration is a whole number from 15 to 480; the values kept are the request's own |
| AppointmentValidator.CreateRequestMeetsSchema | api/validators/appointment.ts:15-21 | a document holding an accepted request's duration and its trimmed treatment type (api/models/Appointment.ts:40-55) meets the document schema exactly when the type is not all white space |
| AppointmentValidator.BlankTreatmentTypePassesRequest | api/validators/appointment.ts:21 | a treatment type of one space passes the create schema and trims to the empty text the document's `required` refuses |
| AppointmentValidator.ValidateUpdate | api/validators/appointment.ts:27-44 | an update passes exactly when every field it carries obeys the create rules and a status names one of the five; the patch carries exactly the request's fields |
| AppointmentValidator.UpdateRefusesUserInterfaceSpelling | api/validators/appointment.ts:39-41 | an update with status `no_show` is refused; one with `no-show` passes |
| AppointmentValidator.ValidateSlotQuery | api/validators/appointment.ts:67-80 | a slot query passes exactly when the dentist and date are given and any duration is a whole number from 15 to 120; an absent duration becomes 30 |
| AppointmentValidator.SlotQueryDurationUsable | api/validators/appointment.ts:75 | an accepted slot length is positive, at most 480, and itself a valid appointment duration |
| AppointmentController.ConflictsWith | api/controllers/appointmentController.ts:63-80 | an inactive appointment never conflicts; for positive durations the two-disjunct query equals half-open overlap with the queried span; an appointment ending at the proposed start, or starting at its end, does not conflict |
| AppointmentController.ConflictAgreesWithOverlapsWith | api/controllers/appointmentController.ts:63-80 | when the start fields agree, the conflict query against an active appointment says the same as `overlapsWith` |
| AppointmentController.AcceptedBookingKeepsApart | api/controllers/appointmentController.ts:82-102 | when no booking of the dentist passed the conflict query, adding the new one keeps the active appointments of every dentist pairwise apart |
| AppointmentController.CanTransition | api/controllers/appointmentController.ts:497-505 | the allowed moves, characterised by target: only cancelled or no-show returns to scheduled, only scheduled is confirmed, only confirmed is completed or marked no-show, and only an active status is cancelled |
| AppointmentController.TransitionFacts | api/controllers/appointmentController.ts:497-503 | completed is final, no status moves to itself, and an inactive status can only move to scheduled |
| AppointmentController.ReopeningCanDoubleBook | api/controllers/appointmentController.ts:501-516 | a cancelled appointment reopened to scheduled overlaps a booking made into its place meanwhile, which was accepted without conflict |
| AppointmentController.ApplyPatch | api/controllers/appointmentController.ts:309-313 | every field the update carries replaces the document's, including status, with the treatment type and notes trimmed; `appointmentDate`, id and creator stay; `updatedBy` becomes the caller |
| AppointmentController.PatchKeepsSchema | api/controllers/appointmentController.ts:309-315 | a document within the schema bounds stays within them after an update that passed the update schema exactly when the update brings no treatment type that trims to nothing |
| AppointmentController.UpdateBypassesTransitions | api/controllers/appointmentController.ts:309-313 | an update can turn a completed appointment back to scheduled, a move the transition table refuses |
| AppointmentController.RescheduleLeavesQueryStale | api/controllers/appointmentController.ts:280-298 | after moving `dateTime` the conflict query still reads the old `appointmentDate`, and misses an overlapping booking at the new time |
| AppointmentController.GridStep | api/controllers/appointmentController.ts:429 | a start lies on the grid from `t` exactly when it is `t` or lies on the grid from `t + d` |
| AppointmentController.GridStartsFrom | api/controllers/appointmentController.ts:429 | no grid start lies before the first |
| AppointmentController.GridMembership | api/controllers/appointmentController.ts:429-447 | a slot is offered exactly when its start is on the grid and before closing, it lasts `d`, and it overlaps no fetched appointment |
| AppointmentController.GridAscending | api/controllers/appointmentController.ts:429-447 | the offered slots ascend, each starting no earlier than the previous one ends, from the opening on |
| AppointmentController.GridOnEmptyDay | api/controllers/appointmentController.ts:429-447 | with nothing fetched, the grid holds ceil((close − open) / d) back-to-back slots from the opening |
| AppointmentController.EmptyDayThirtyMinuteSlots | api/controllers/appointmentController.ts:411-447 | 30-minute slots on an empty day give 20 slots, the first 08:00–08:30 and the last 17:30–18:00 |
| AppointmentController.FortyFiveMinuteSlotOverrunsClosing | api/controllers/appointmentController.ts:429-430 | 45-minute slots give 14 slots, the last one 17:45–18:30, past closing |
| AppointmentController.GridBookings | api/controllers/appointmentController.ts:416-423 | exactly the scheduled or confirmed appointments of the dentist whose `appointmentDate` is within 08:00–18:00, sorted by `appointmentDate` |
| AppointmentController.GridSlots | api/controllers/appointmentController.ts:426-447 | the `for` loop pushes exactly the grid of free candidates |
| AppointmentController.FreeOfFetched | api/controllers/appointmentController.ts:415-436 | a slot is free of the fetched appointments exactly when it overlaps none of the dentist's active appointments whose `appointmentDate` lies in the 08:00–18:00 window |
| AppointmentController.SlotsOfDay | api/controllers/appointmentController.ts:414-447 | the grid built from the fetched appointments ascends and holds exactly the grid slots before 18:00 that overlap none of the dentist's active appointments in the window |
| AppointmentController.GetAvailableSlots | api/controllers/appointmentController.ts:391-447 | a bad query is refused, then an inactive dentist; otherwise the slots ascend, and a slot is offered exactly when it is a grid slot starting before 18:00 that overlaps no fetched appointment |
| AppointmentController.EarlyAppointmentNotFetched | api/controllers/appointmentController.ts:416-423 | an appointment from 07:30 to 08:30 is not fetched, and both algorithms offer the 08:00 slot it overlaps |
| AppointmentController.GreedyAndGridDiffer | api/models/Appointment.ts:133-157 | around an appointment from 08:10 to 08:40 the greedy algorithm offers 08:40–09:10, which the half-hour grid never offers |
| AppointmentController.IndexOf | api/controllers/appointmentController.ts:264 | the position of the document with the id, or none when no document has it |
| AppointmentController.RemovalKeepsOthers | api/controllers/appointmentController.ts:364 | removing the document at a position keeps exactly the documents with other ids, and the ids stay unique |
| AppointmentController.AppointmentStore.constructor | api/controllers/appointmentController.ts:63 | an empty store |
| AppointmentController.AppointmentStore.Create | api/controllers/appointmentController.ts:20-102 | refuses a bad request, a missing patient, an inactive dentist and a conflicting time, writing nothing; refuses at the save a treatment type that trims to nothing; otherwise stores one `scheduled` appointment whose `appointmentDate` is the start, whose `dateTime` the model fills with the same start, and whose type and notes are trimmed; and adding it to a store without double bookings leaves it without double bookings |
| AppointmentController.AppointmentStore.Book | api/controllers/appointmentController.ts:60-102 | for a validated request: refuses a conflicting time, then at the save a treatment type that trims to nothing, writing nothing; otherwise appends one schema-valid `scheduled` document with `appointmentDate` set to the start and `dateTime` filled by the model with the same start, a fresh id and trimmed text, keeping the ids unique and a store without double bookings without them |
| AppointmentController.AppointmentStore.Update | api/controllers/appointmentController.ts:246-315 | refuses a bad request or a missing document; with a new start or duration checks the conflict query on the current dentist, excluding the document and using the current value for the one not given; a patched document outside the schema is refused at the save; otherwise applies the patch to that document only |
| AppointmentController.AppointmentStore.UpdateStatus | api/controllers/appointmentController.ts:478-516 | refuses an unknown status name, a missing document and a move the table forbids, changing nothing; otherwise only the status and `updatedBy` change |
| AppointmentController.AppointmentStore.Delete | api/controllers/appointmentController.ts:348-364 | refuses a missing document and one not `scheduled`; otherwise removes exactly that document |
| InvoiceModel.ParseInvoiceStatus | api/models/Invoice.ts:97-102 | a string is accepted exactly when it names one of the six invoice statuses, and the result is that status |
| InvoiceModel.ParsePaymentMethod | api/models/Invoice.ts:128-132 | a method is accepted exactly when it is one of the five listed |
| InvoiceModel.SumPaymentsAppend | api/models/Invoice.ts:118-135 | recording one more payment adds exactly its amount to the total paid |
| InvoiceModel.DerivedStatus | api/models/Invoice.ts:152-159 | nothing paid gives draft if it was draft and sent otherwise; part paid gives partial; all paid gives paid; never overdue or cancelled |
| InvoiceModel.DerivedStatusIdempotent | api/models/Invoice.ts:152-159 | saving twice derives the same status as saving once |
| InvoiceModel.ExplicitStatusOverridden | api/models/Invoice.ts:152-157 | cancelled, overdue or paid with nothing paid is saved as sent; draft with something paid is saved as partial |
| InvoiceModel.DerivedStatusDependsOnAmounts | api/models/Invoice.ts:152-159 | the saved status depends only on the amounts, except for whether an unpaid invoice was a draft |
| InvoiceModel.FirstMarker | api/models/Invoice.ts:174 | the first position from which `INV-` and a digit follow, or none when there is none |
| InvoiceModel.ParseCounter | api/models/Invoice.ts:174-177 | a counter is read exactly when the number contains `INV-` followed by a digit |
| InvoiceModel.FormatInvoiceNumber | api/models/Invoice.ts:180 | `INV-` and then digits: the counter zero-padded to six, or all of its digits when longer |
| InvoiceModel.ReadCounter | api/models/Invoice.ts:174-176 | `INV-` followed by digits and then a non-digit reads back as the value of those digits |
| InvoiceModel.InvoiceNumberRoundTrip | api/models/Invoice.ts:174-180 | reading the counter back from a formatted number gives that counter |
| InvoiceModel.InvoiceNumbersContinue | api/models/Invoice.ts:167-180 | after `INV-` for counter n the next number is the one for n + 1 |
| InvoiceModel.FirstInvoiceNumber | api/models/Invoice.ts:172-180 | with no previous invoice, or one without a number, the number is `INV-000001` |
| InvoiceModel.SeventhDigitKept | api/models/Invoice.ts:180 | padding never truncates: counter 1000000 gives `INV-1000000` |
| InvoiceModel.UnmarkedNumberRestarts | api/models/Invoice.ts:173-178 | a previous number with no `I` in it restarts the sequence at `INV-000001` |
| InvoiceModel.Invoice.constructor | api/controllers/invoiceController.ts:168-180 | a new document with the given fields, no payments, no payment date and no notes |
| InvoiceModel.Invoice.AmountHook | api/models/Invoice.ts:148-162 | the remainder becomes total minus paid and the status the derived one; reaching paid sets the payment date only when none is set; nothing else changes |
| InvoiceModel.Invoice.NumberHook | api/models/Invoice.ts:165-184 | only a new document without a number gets the next `INV-` number |
| InvoiceModel.Invoice.Save | api/models/Invoice.ts:148-184 | both hooks, after which the document is not new, and the invariant holds for a document whose paid amount is its payments' sum |
| InvoiceController.SumLinesConcat | api/controllers/invoiceController.ts:26-31 | the subtotal of two line lists joined is the sum of their subtotals |
| InvoiceController.SumLinesNonNegative | api/controllers/invoiceController.ts:46-52 | lines with non-negative prices and a quantity of at least one have a non-negative subtotal |
| InvoiceController.GivenTotalPriceWins | api/controllers/invoiceController.ts:29 | a line's given total replaces quantity × unit price, and is used even when it disagrees |
| InvoiceController.CalculateTotals | api/controllers/invoiceController.ts:26-39 | the subtotal is the sum of the line totals, the tax is 0 and the total equals the subtotal |
| InvoiceController.CanTransitionInvoice | api/controllers/invoiceController.ts:459-468 | the allowed moves, characterised by target: sent only from draft, partial from sent or overdue, paid from sent, partial or overdue, cancelled from anything but paid and cancelled |
| InvoiceController.InvoiceTransitionFacts | api/controllers/invoiceController.ts:459-466 | paid and cancelled are final, and no status moves to itself |
| InvoiceController.TableOverriddenBySave | api/models/Invoice.ts:152-157 | moves the table allows (draft to cancelled, sent to paid) are undone by the save when nothing is paid |
| InvoiceController.AppendNote | api/controllers/invoiceController.ts:476-478 | a note becomes the notes when there are none; otherwise it follows the old notes after a newline |
| InvoiceController.GeneratedNumber | api/controllers/invoiceController.ts:17-23 | `FTR` followed by digits only |
| InvoiceController.GeneratedNumberRestartsSequence | api/controllers/invoiceController.ts:171 | an `FTR` number as the latest one makes the next `INV-` number `INV-000001` |
| InvoiceController.ReferencedTreatments | api/controllers/invoiceController.ts:150-152 | the treatment ids the lines name, at most one per line |
| InvoiceController.RepeatedTreatmentRefused | api/controllers/invoiceController.ts:153-160 | two lines naming the same stored treatment are refused |
| InvoiceController.CreateInvoice | api/controllers/invoiceController.ts:119-182 | refuses a bad request, a missing patient and missing treatments, and succeeds exactly when none of these applies, with a fresh saved draft with the computed totals, nothing paid, the whole total remaining, an `FTR` number and no due date |
| InvoiceController.UpdateInvoice | api/controllers/invoiceController.ts:358-406 | refuses a bad request, a missing invoice and a paid one, changing nothing, and otherwise succeeds, the document's save validation not being modelled; new lines recompute the totals and the remainder becomes the new total minus paid; the status is re-derived, the payment date is stamped only on a first move to paid, patient, author and number stay, and the saved invoice keeps the invariant |
| InvoiceController.ApplyEdit | api/controllers/invoiceController.ts:391-404 | the edit copies the request's lines, due date and notes, recomputes the totals and the remainder for new lines, and leaves payments, status, number, patient, author and payment date alone |
| InvoiceController.UpdateInvoiceStatus | api/controllers/invoiceController.ts:430-481 | refuses an unknown status, a missing invoice and a move the table forbids, changing nothing, and succeeds exactly when the table allows the move; then the note is appended and the saved status is the one the amounts derive from the requested status; amounts, lines, due date, patient, author and number stay, and the payment date is stamped only on a first move to paid |
| InvoiceController.MoveStatus | api/controllers/invoiceController.ts:475-481 | the saved status is the one the amounts derive from the requested status, the note is appended, the invoice keeps its invariant, and amounts, lines, due date, patient and author stay; the payment date is stamped only on a first move to paid |
| InvoiceController.PaymentStatus | api/controllers/invoiceController.ts:557-561 | the status after a payment is paid when nothing remains, partial when some but not all remains, and otherwise unchanged |
| InvoiceController.PaymentStatusAgreesWithHook | api/controllers/invoiceController.ts:553-565 | for a payment within the remainder, the status the handler sets is the one the save derives |
| InvoiceController.CancelledInvoiceTakesPayment | api/controllers/invoiceController.ts:534-561 | a payment on a cancelled invoice turns it partial or paid |
| InvoiceController.CreatePayment | api/controllers/invoiceController.ts:504-565 | refuses a bad request (a missing or malformed 24-digit hexadecimal invoice id, an amount below one kuruş, an unknown method), a missing invoice and an amount above the remainder, changing nothing, and accepts every valid payment within the remainder; then it appends exactly one payment, adds its amount to paid, sets remaining to total minus paid (never negative) and the status as above; lines, totals, due date, notes, patient, author and number stay, and the payment date is stamped only when the invoice becomes paid without one |
| InvoiceController.ApplyPayment | api/controllers/invoiceController.ts:549-561 | the payment is appended, paid grows by its amount, remaining is total minus paid, and the status is the payment status; every other field stays |
| Inventory.Adjusted | api/models/Inventory.ts:142-146 | `add` raises the quantity by the change and any other operation lowers it by the change |
| Inventory.AddThenSubtractRestores | api/models/Inventory.ts:142-146 | adding then subtracting the same amount, or the reverse, restores the quantity |
| Inventory.StockValue | api/models/Inventory.ts:113-115 | the value is never negative for non-negative quantity and cost, and is zero when either is |
| Inventory.StockValueOfRestock | api/models/Inventory.ts:113-115 | at a fixed cost, the value of a restocked quantity is the old value plus the value of what was added |
| Inventory.LowStockMonotone | api/models/Inventory.ts:118-120 | taking stock away keeps a low item low; stock is low exactly when it is not above the reorder level |
| Inventory.InventoryItem.constructor | api/models/Inventory.ts:26-103 | a new item with the given numbers and with code and name trimmed by their setters, active, never restocked and with no batch number; it is schema-valid exactly when neither code nor name is all white space and the three numbers are at least zero |
| Inventory.InventoryItem.TotalValue | api/models/Inventory.ts:113-115 | quantity × unit cost, never negative for an item the schema accepts |
| Inventory.InventoryItem.IsLowStock | api/models/Inventory.ts:118-120 | quantity at or below the reorder level; an empty valid item is low |
| Inventory.InventoryItem.Save | api/models/Inventory.ts:27-66 | the save succeeds exactly when code and name are not empty and quantity, reorder level and unit cost are all at least zero |
| Inventory.InventoryItem.UpdateQuantity | api/models/Inventory.ts:141-153 | the quantity is changed first; a negative result is refused without saving; on success the quantity is at least zero; a valid item with a non-negative result always saves |
| Inventory.InventoryItem.Restock | api/models/Inventory.ts:156-169 | the quantity grows by exactly the amount, the restock time becomes now, and the unit cost and batch number change only for a non-zero, non-empty argument, the batch number stored trimmed (api/models/Inventory.ts:86-89) |
| TreatmentValidator.PermanentPositionListed | api/validators/treatment.ts:4-9 | position p of quadrant q (1–4, 1–8) sits at index 8(q−1)+(p−1) of the permanent list |
| TreatmentValidator.DeciduousPositionListed | api/validators/treatment.ts:12-17 | position p of quadrant q (5–8, 1–5) sits at index 5(q−5)+(p−1) of the deciduous list |
| TreatmentValidator.PermanentTeethExactly | api/validators/treatment.ts:4-9 | the permanent numbers are exactly 10·q + p for q in 1–4 and p in 1–8 |
| TreatmentValidator.DeciduousTeethExactly | api/validators/treatment.ts:12-17 | the deciduous numbers are exactly 10·q + p for q in 5–8 and p in 1–5 |
| TreatmentValidator.ValidToothNumberCharacterised | api/validators/treatment.ts:19 | a number is accepted exactly when it is a permanent or a deciduous tooth number in that form |
| TreatmentValidator.StepsAscending | api/validators/treatment.ts:19 | a list rising at every step is strictly ascending throughout |
| TreatmentValidator.AllTeethDistinct | api/validators/treatment.ts:4-19 | 32 permanent and 20 deciduous numbers, 52 in all, strictly ascending and so all distinct |
| TreatmentValidator.ToothNumbersRefused | api/validators/treatment.ts:85-87 | 10, 19, 56 and 91 are refused |
| TreatmentValidator.ToothNumberCorners | api/validators/treatment.ts:85-87 | 11, 48, 51 and 85 are accepted |
| TreatmentValidator.ParseCondition | api/validators/treatment.ts:56-71 | a condition is accepted exactly when it is one of the fourteen names, and the result is that condition |
| TreatmentValidator.ParseSurface | api/validators/treatment.ts:44-53 | a surface is accepted exactly when it is one of the eight names |
| TreatmentValidator.ParseSurfaces | api/validators/treatment.ts:89 | a surface list is accepted exactly when every entry is, giving the surfaces in order |
| TreatmentValidator.ValidateToothInfo | api/validators/treatment.ts:84-91 | an entry passes exactly when its number is listed, its condition is listed and any surfaces are listed; the entry keeps the number, the condition named, the notes, and the surfaces named one for one in order |
| TreatmentValidator.ValidateTeeth | api/validators/treatment.ts:99 | a list of entries passes exactly when every entry does, entry by entry |
| TreatmentValidator.ValidateDentalChart | api/validators/treatment.ts:202-204 | a chart passes exactly when it has at least one entry and every entry passes; a non-empty chart is the list of its validated entries, one for one in order, every one with a listed number |
| TreatmentValidator.ParseTreatmentStatus | api/validators/treatment.ts:74-81 | a treatment status is accepted exactly when it is one of the six names |
| TreatmentValidator.ParsePriority | api/validators/treatment.ts:106 | a priority is accepted exactly when it is one of the four names |
| TreatmentValidator.WithDefault | api/validators/treatment.ts:105-107 | an absent field takes the default; a present one must parse |
| TreatmentValidator.ValidateCreateTreatment | api/validators/treatment.ts:94-107 | a treatment passes exactly when ids and texts are non-empty, the type is listed, there is at least one valid tooth entry, costs are positive, coverage is not negative, and priority and status are listed; they default to medium, planned and 0; ids, type, texts, costs and notes are the request's, and the teeth are the validated entries one for one |
| TreatmentValidator.TreatmentNeedsListedTeeth | api/validators/treatment.ts:85-99 | a treatment with no tooth entry is refused, and every tooth of an accepted one has a listed number |
| Patient.FullName | api/models/Patient.ts:182-184 | the first name, one space, then the last name |
| Patient.SplitAtFirstSpace | api/models/Patient.ts:182-184 | splitting at the first space gives a space-free first part, and the parts rejoin to the text |
| Patient.FullNameRoundTrip | api/models/Patient.ts:182-184 | a first name without a space and the last name are recovered from the full name |
| Patient.Age | api/models/Patient.ts:187-197 | the age is the number of birthdays reached: the anniversary for that many years is on or before today and the next one is after it |
| Patient.AgeIsUnique | api/models/Patient.ts:187-197 | that property determines the age |
| Patient.AgeNonNegative | api/models/Patient.ts:187-197 | someone born on or before today has an age of zero or more |
| Patient.AgeAroundBirthday | api/models/Patient.ts:193-195 | on the birthday no year is taken off; on the day before it one is |
| Patient.AgeBeforeBirthday | api/models/Patient.ts:193-195 | while this year's birthday is still ahead, by month or by day, the age is the year difference minus one |
| Query.Filter | api/controllers/appointmentController.ts:416-423 | a record is returned exactly when it is stored and matches; no more records than stored |
| Query.Insert | api/controllers/appointmentController.ts:423 | inserting into a sorted list keeps it sorted and adds exactly that record |
| Query.SortBy | api/controllers/appointmentController.ts:423 | the same records, ascending by the key |
| Decimal.DigitValue | api/models/Invoice.ts:176 | a digit's value is below ten |
| Decimal.DigitChar | api/models/Invoice.ts:180 | the digit character for a value below ten reads back as that value |
| Decimal.NatToString | api/models/Invoice.ts:180 | at least one digit, digits only, no leading zero |
| Decimal.ValueOfNatToString | api/models/Invoice.ts:176-180 | reading a number's decimal text gives the number |
| Decimal.Repeat | api/models/Invoice.ts:180 | k copies of a character |
| Decimal.PadStart | api/models/Invoice.ts:180 | the text padded on the left up to the width, never truncated, with the text itself at the end |
| Decimal.PadStartDigits | api/models/Invoice.ts:180 | zero-padding digits gives digits |
| Decimal.ZerosValue | api/models/Invoice.ts:176-180 | a run of zeros reads as 0 |
| Decimal.ValueIgnoresLeadingZeros | api/models/Invoice.ts:176-180 | leading zeros do not change the value read |
| Decimal.DigitRun | api/models/Invoice.ts:174 | the longest run of leading digits |
| Decimal.DigitRunOfDigitsThen | api/models/Invoice.ts:174 | digits followed by a non-digit give a run exactly as long as the digits |
| Text.TrimStart | api/models/Appointment.ts:51-55 | the leading white space `trim` drops: a suffix of the text, preceded only by white space, that does not start with white space |
| Text.TrimEnd | api/models/Appointment.ts:51-55 | the trailing white space `trim` drops: a prefix of the text, followed only by white space, that does not end with white space |
| Text.Trim | api/models/Appointment.ts:51-55 | the text a `trim: true` path stores neither starts nor ends with white space, and is empty exactly when the original is all white space |
| Text.TrimEndOfSuffix | api/models/Appointment.ts:51-55 | the trailing white space cut from a suffix of a text is trailing white space of the text, and what remains is a slice of it |
| Text.TrimIsMiddle | api/models/Appointment.ts:51-55 | the trimmed text is the contiguous part of the original that starts where the leading white space ends |
| Text.TrimDropsOnlyWhitespace | api/models/Appointment.ts:51-55 | only white space stands before and after the trimmed text |
| Text.TrimKeepsTrimmed | api/models/Appointment.ts:56-59 | text without white space at either end is stored unchanged |
| Text.TrimIdempotent | api/models/Appointment.ts:56-59 | trimming twice is trimming once |
| Text.TrimOption | api/models/Appointment.ts:56-59 | an optional text is stored trimmed when present and stays absent otherwise |

## Left out

- HTTP handling (requests, responses and status codes) and the permission
  checks that open every handler are left out; a handler's answer is a
  `Result`.
- Authentication, password hashing and the dashboard, search, pagination and
  reporting endpoints are not part of this model. This includes
  `getAppointments`, `getTodayAppointments`, `getInvoices`, `getPayments`
  and `getFinancialSummary`.
- Database lookups outside the modelled collections are parameters, and
  population of references is left out. This covers the patient lookup,
  the active-dentist lookup and the treatment records.
- Concurrency is left out: the conflict query and the save run as one step,
  so the race between them is not modelled.
- Dates are whole minutes.
  - Local-time `Date` construction, time zones, ISO strings and display
    strings are left out.
  - The slot query's date is taken as the minute at which its day starts.
  - An invalid date, and Joi's conversion of strings to numbers or dates,
    are left out.
  - The clock is a parameter.
- Money is whole kuruş. `Math.round(x * 100) / 100` is then the identity,
  and floating-point arithmetic is left out.
- Stock quantities are whole units.
- `parseInt` is modelled on unbounded integers. The precision it loses
  above 2^53 is not modelled.
- The random part of a generated `FTR` number is a parameter.
- The model treats `appointmentDate` and `createdBy` as stored fields of
  an appointment. The document schema declares neither path, and Mongoose's
  strict mode, which would drop both at the save and leave the conflict
  query and the slot fetch filtering on a field no document holds, is not
  modelled.
- AppointmentController.AppointmentStore.Create: does not promise the
  refusal the real save would give for the schema's required `dateTime`
  and `endTime`. The handler sets neither. The model fills `dateTime`
  from the validated start and stores no end: the end is start plus
  duration.
- AppointmentController.AppointmentStore.Book: the same. The handler's
  document never gets `dateTime` or `endTime`. The model supplies
  `dateTime` from the validated start, and a real save would refuse the
  document for both missing paths.
- The create request's start field is read under a different name by the
  handler than by the request schema. The model takes the validated start
  as the value both use.
- Mongoose validation on save is modelled for stock items (required code
  and name, the three lower bounds; the required category, unit and
  supplier name are descriptive fields not carried) and for the appointment
  schema's duration bounds and required treatment type.
- The invoice document's save validation is not modelled:
  InvoiceModel.Invoice.Save runs the two pre-save hooks and always writes.
  The schema's required `dueDate` and each line's required `totalPrice`
  are not checked.
- InvoiceController.CreateInvoice: does not promise the refusal the real
  save would give for the schema's required `dueDate`, which the handler
  drops, or for a line without `totalPrice`, which the request schema
  allows. The model stores the due date as absent and saves.
- InvoiceController.UpdateInvoice: does not promise the refusal the real
  save would give for a new line without `totalPrice`, which the update
  schema allows but the document schema requires, or for a document with
  no due date. The model stores such a line, whose total is then quantity
  times unit price, and saves.
- `remindersSent`, `updatedAt` timestamps and the descriptive fields of
  the documents are left out. The amounts and payment method of a create
  invoice request are validated (`CreateInvoiceRequestValid`) but the
  handler never reads them, so the model does not carry them further.
- Treatment schemas: dates and URLs are formats of a library not modelled.
  Materials, medications, images, X-rays, the search schema and progress
  notes are left out. The update schema's fields are the create schema's
  rules made optional, and are not modelled separately.
- TreatmentValidator.ValidateToothInfo: takes whole tooth numbers only; a
  fractional number, which the list lookup also refuses, is not
  represented.
- `daysUntilExpiry`, `isExpired` and the stock statics are left out. They
  read the clock, and the statics are database queries.
- AppointmentModel.FindAvailableSlots: requires a positive slot duration;
  with zero or a negative one the source's loops never end.
- Patient.Age: the calendar triple is taken as given. Whether it is a real
  date, and how the JavaScript `Date` normalises one, are not modelled.
