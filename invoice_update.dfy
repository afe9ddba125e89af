/** `PUT /invoices/:id` of backend/routes/invoices.js: the date checks, the
    paid-invoice guard, repricing when lines are given and the field copy.
    The handler does not touch the client ledger. */
module InvoiceUpdate {
  import opened Common
  import opened InvoiceModel
  import opened Records
  import opened Database
  import opened Pricing


  /** The fields of an update body the schema knows; `userId` and
      `invoiceNumber` are never copied, so they are not listed. The payment
      and send logs and `paidAt` are copied like any other key. */
  datatype InvoicePatch = InvoicePatch(
    clientId: Option<Id>, status: Option<string>, issueDate: DateField, dueDate: DateField,
    items: Option<seq<ItemInput>>, subtotal: Option<real>, taxAmount: Option<real>,
    discountAmount: Option<real>, totalAmount: Option<real>, currency: Option<string>,
    notes: Option<string>, paidAmount: Option<real>, remainingAmount: Option<real>,
    paymentTerms: Option<string>, internalNotes: Option<string>, template: Option<string>,
    paymentHistory: Option<seq<Payment>>, sentHistory: Option<seq<SentRecord>>, paidAt: Option<Time>)

  /** The date checks of the update route: each given date must parse, and
      only when both are given must the due date not precede the issue date. */
  predicate DatesRejected(p: InvoicePatch)
  {
    p.issueDate.Unparsable? || p.dueDate.Unparsable?
    || (p.issueDate.At? && p.dueDate.At? && p.dueDate.time < p.issueDate.time)
  }

  /** The amounts after the update route's copy. With a list of lines, the
      lines are priced and the subtotal, tax, total and remaining balance
      are recomputed with `discountAmount || stored discount`; otherwise the
      given amounts are copied as they are. */
  function PricedPatch(inv: Invoice, p: InvoicePatch): Invoice
  {
    if p.items.Some? then
      var input := p.items.value;
      var total := Subtotal(input) + TaxTotal(input) - NumberOr(p.discountAmount, inv.discountAmount);
      inv.(items := PricedLines(input), subtotal := Subtotal(input), taxAmount := TaxTotal(input),
           totalAmount := total, remainingAmount := total - inv.paidAmount)
    else
      inv.(subtotal := Given(p.subtotal, inv.subtotal), taxAmount := Given(p.taxAmount, inv.taxAmount),
           totalAmount := Given(p.totalAmount, inv.totalAmount),
           remainingAmount := Given(p.remainingAmount, inv.remainingAmount))
  }

  /** The given fields of the invoice itself, a given discount included,
      copied as they are. */
  function FieldPatch(inv: Invoice, p: InvoicePatch, status: InvoiceStatus): Invoice
  {
    inv.(clientId := Given(p.clientId, inv.clientId), status := status,
         issueDate := DateOr(p.issueDate, inv.issueDate), dueDate := DateOr(p.dueDate, inv.dueDate),
         discountAmount := Given(p.discountAmount, inv.discountAmount),
         currency := Given(p.currency, inv.currency), notes := if p.notes.Some? then p.notes else inv.notes,
         paidAmount := Given(p.paidAmount, inv.paidAmount))
  }

  /** The given terms, template, logs and payment date, copied as they are. */
  function RecordPatch(inv: Invoice, p: InvoicePatch): Invoice
  {
    inv.(paymentTerms := Given(p.paymentTerms, inv.paymentTerms),
         internalNotes := if p.internalNotes.Some? then p.internalNotes else inv.internalNotes,
         template := Given(p.template, inv.template),
         paymentHistory := Given(p.paymentHistory, inv.paymentHistory),
         sentHistory := Given(p.sentHistory, inv.sentHistory),
         paidAt := if p.paidAt.Some? then p.paidAt else inv.paidAt)
  }

  /** The document after the update route's copy: amounts first (computed
      from the stored discount and paid amount), then every other given key.
      Only the id, owner, number and creation time are out of the body's
      reach; the payment and send logs are replaced when the body has them. */
  function Patched(inv: Invoice, p: InvoicePatch, status: InvoiceStatus): (r: Invoice)
    ensures r.id == inv.id && r.userId == inv.userId && r.invoiceNumber == inv.invoiceNumber
    ensures r.createdAt == inv.createdAt && r.status == status
    ensures p.paymentHistory.None? ==> r.paymentHistory == inv.paymentHistory
    ensures p.paymentHistory.Some? ==> r.paymentHistory == p.paymentHistory.value
    ensures p.sentHistory.None? ==> r.sentHistory == inv.sentHistory
    ensures p.sentHistory.Some? ==> r.sentHistory == p.sentHistory.value
    ensures p.paidAt.None? ==> r.paidAt == inv.paidAt
    ensures p.paidAt.Some? ==> r.paidAt == p.paidAt
    ensures p.items.None? ==> r.items == inv.items
    ensures p.items.Some? ==> r.items == PricedLines(p.items.value)
    ensures p.clientId.Some? ==> r.clientId == p.clientId.value
    ensures p.clientId.None? ==> r.clientId == inv.clientId
  {
    RecordPatch(FieldPatch(PricedPatch(inv, p), p, status), p)
  }

  /** The status the copy assigns: the stored one, or the given string when
      the enum accepts it; `None` when the enum check fails on save. */
  function PatchStatus(inv: Invoice, p: InvoicePatch): Option<InvoiceStatus>
  {
    if p.status.Some? then ParseStatus(p.status.value) else Some(inv.status)
  }

  /** What the update route writes for a stored invoice, or none when the
      save fails validation. */
  function UpdatedInvoice(inv: Invoice, p: InvoicePatch, now: Time): (r: Option<Invoice>)
    ensures r.Some? ==> Stored(r.value) && r.value.id == inv.id && r.value.userId == inv.userId
                        && r.value.invoiceNumber == inv.invoiceNumber
    ensures r.None? <==> PatchStatus(inv, p).None? || !SchemaValid(Patched(inv, p, PatchStatus(inv, p).value))
  {
    match PatchStatus(inv, p)
    case None => None
    case Some(status) =>
      var x := Patched(inv, p, status);
      if SchemaValid(x) then SaveHookStores(x, now); Some(SaveHook(x, now)) else None
  }

  /** The amounts step of the update route on the loaded document. */
  method CopyAmounts(doc: InvoiceDocument, p: InvoicePatch)
    modifies doc
    ensures doc.Record() == PricedPatch(old(doc.Record()), p) && doc.isNew == old(doc.isNew)
  {
    ghost var before := doc.Record();
    if p.items.Some? {
      var items, subtotal, taxTotal := PriceItems(p.items.value);
      var total := subtotal + taxTotal - NumberOr(p.discountAmount, doc.discountAmount);
      assert PricedPatch(before, p) == before.(items := items, subtotal := subtotal, taxAmount := taxTotal,
                                               totalAmount := total, remainingAmount := total - doc.paidAmount);
      AssignAmounts(doc, items, subtotal, taxTotal, total, total - doc.paidAmount);
    } else {
      AssignAmounts(doc, doc.items, Given(p.subtotal, doc.subtotal), Given(p.taxAmount, doc.taxAmount),
                    Given(p.totalAmount, doc.totalAmount), Given(p.remainingAmount, doc.remainingAmount));
    }
  }

  method AssignAmounts(doc: InvoiceDocument, items: seq<LineItem>, subtotal: real, taxAmount: real,
                       total: real, remaining: real)
    modifies doc
    ensures doc.Record() == old(doc.Record()).(items := items, subtotal := subtotal, taxAmount := taxAmount,
                                               totalAmount := total, remainingAmount := remaining)
    ensures doc.isNew == old(doc.isNew)
  {
    doc.items := items;
    doc.subtotal := subtotal;
    doc.taxAmount := taxAmount;
    doc.totalAmount := total;
    doc.remainingAmount := remaining;
  }

  /** The `Object.keys(req.body).forEach` copy of the other fields. */
  method CopyFields(doc: InvoiceDocument, p: InvoicePatch, status: InvoiceStatus)
    modifies doc
    ensures doc.Record() == RecordPatch(FieldPatch(old(doc.Record()), p, status), p) && doc.isNew == old(doc.isNew)
  {
    AssignFields(doc, Given(p.clientId, doc.clientId), status, DateOr(p.issueDate, doc.issueDate),
                 DateOr(p.dueDate, doc.dueDate), Given(p.discountAmount, doc.discountAmount),
                 Given(p.currency, doc.currency), if p.notes.Some? then p.notes else doc.notes,
                 Given(p.paidAmount, doc.paidAmount));
    AssignRecords(doc, Given(p.paymentTerms, doc.paymentTerms),
                  if p.internalNotes.Some? then p.internalNotes else doc.internalNotes,
                  Given(p.template, doc.template), Given(p.paymentHistory, doc.paymentHistory),
                  Given(p.sentHistory, doc.sentHistory), if p.paidAt.Some? then p.paidAt else doc.paidAt);
  }

  /** The assignments `invoice[key] = req.body[key]` for the copied keys. */
  method AssignFields(doc: InvoiceDocument, clientId: Id, status: InvoiceStatus, issueDate: Time, dueDate: Time,
                      discount: real, currency: string, notes: Option<string>, paid: real)
    modifies doc
    ensures doc.Record() == old(doc.Record()).(clientId := clientId, status := status, issueDate := issueDate,
                                               dueDate := dueDate, discountAmount := discount, currency := currency,
                                               notes := notes, paidAmount := paid)
    ensures doc.isNew == old(doc.isNew)
  {
    doc.clientId := clientId;
    doc.status := status;
    doc.issueDate := issueDate;
    doc.dueDate := dueDate;
    doc.discountAmount := discount;
    doc.currency := currency;
    doc.notes := notes;
    doc.paidAmount := paid;
  }

  /** The assignments for the terms, template, logs and payment date. */
  method AssignRecords(doc: InvoiceDocument, terms: string, internalNotes: Option<string>, template: string,
                       payments: seq<Payment>, sent: seq<SentRecord>, paidAt: Option<Time>)
    modifies doc
    ensures doc.Record() == old(doc.Record()).(paymentTerms := terms, internalNotes := internalNotes,
                                               template := template, paymentHistory := payments,
                                               sentHistory := sent, paidAt := paidAt)
    ensures doc.isNew == old(doc.isNew)
  {
    doc.paymentTerms := terms;
    doc.internalNotes := internalNotes;
    doc.template := template;
    doc.paymentHistory := payments;
    doc.sentHistory := sent;
    doc.paidAt := paidAt;
  }

  /** The field copy and save of the update route. */
  method SaveUpdate(inv: Invoice, p: InvoicePatch, now: Time) returns (saved: Option<Invoice>)
    requires PatchStatus(inv, p).Some?
    ensures saved == UpdatedInvoice(inv, p, now)
  {
    var doc := new InvoiceDocument(inv, false);
    CopyAmounts(doc, p);
    CopyFields(doc, p, PatchStatus(inv, p).value);
    ghost var before := doc.Record();
    assert Numbered(before, false, None, 0) == before;
    var valid := doc.Save(now, None, 0);
    saved := if valid then Some(doc.Record()) else None;
  }

  /** `PUT /invoices/:id`. The client ledger is not touched: an update that
      changes an amount or the client leaves it out of step (see
      `UpdateBreaksLedger`). */
  method UpdateInvoice(db: Db, uid: Id, id: Id, p: InvoicePatch, now: Time) returns (r: Response<Id>)
    requires db.Valid()
    modifies db
    ensures db.Valid()
    ensures r.Fail? ==> unchanged(db)
    ensures r.Fail? && r.code == 400 <==>
              DatesRejected(p)
              || (FindOwned(old(db.invoices), id, uid).Some? && old(db.invoices)[FindOwned(old(db.invoices), id, uid).value].status == Paid)
    ensures r.Fail? && r.code == 404 <==> !DatesRejected(p) && FindOwned(old(db.invoices), id, uid).None?
    ensures r.Fail? && r.code == 500 <==>
              !DatesRejected(p) && FindOwned(old(db.invoices), id, uid).Some?
              && old(db.invoices)[FindOwned(old(db.invoices), id, uid).value].status != Paid
              && UpdatedInvoice(old(db.invoices)[FindOwned(old(db.invoices), id, uid).value], p, now).None?
    ensures r.Fail? ==> r.code in {400, 404, 500}
    ensures r.Ok? ==>
      var k := FindOwned(old(db.invoices), id, uid).value;
      r.code == 200 && r.value == id && old(db.invoices)[k].status != Paid
      && UpdatedInvoice(old(db.invoices)[k], p, now).Some?
      && db.invoices == old(db.invoices)[k := UpdatedInvoice(old(db.invoices)[k], p, now).value]
      && db.clients == old(db.clients) && db.users == old(db.users) && db.nextId == old(db.nextId)
      && db.paymentRequests == old(db.paymentRequests) && db.profileRequests == old(db.profileRequests)
      && db.signupRequests == old(db.signupRequests)
  {
    if DatesRejected(p) {
      return Fail(400, "Invalid dates");
    }
    var found := FindOwned(db.invoices, id, uid);
    if found.None? {
      return Fail(404, "Invoice not found");
    }
    var k := found.value;
    var inv := db.invoices[k];
    if inv.status == Paid {
      return Fail(400, "Cannot update a paid invoice");
    }
    if PatchStatus(inv, p).None? {
      return Fail(500, "Server error");
    }
    var saved := SaveUpdate(inv, p, now);
    if saved.None? {
      return Fail(500, "Server error");
    }
    ReplaceKeepsInvoicesOk(db.invoices, db.nextId, k, saved.value);
    db.Commit(db.invoices[k := saved.value], db.clients, db.users, db.paymentRequests, db.profileRequests,
              db.signupRequests, db.nextId);
    r := Ok(200, id);
  }

  /** An update that keeps the client and both amounts keeps the ledger. */
  lemma UpdateKeepsLedger(s: seq<Invoice>, clients: map<Id, Client>, k: nat, p: InvoicePatch, now: Time)
    requires Ledger(s, clients) && k < |s| && UpdatedInvoice(s[k], p, now).Some?
    requires var x := UpdatedInvoice(s[k], p, now).value;
      x.clientId == s[k].clientId && x.totalAmount == s[k].totalAmount && x.remainingAmount == s[k].remainingAmount
    ensures Ledger(s[k := UpdatedInvoice(s[k], p, now).value], clients)
  {
    var x := UpdatedInvoice(s[k], p, now).value;
    ReplaceKeepsLedger(s, clients, k, x, clients[x.clientId]);
    assert clients[x.clientId := clients[x.clientId]] == clients;
  }

  /** An update that changes the total of an invoice and keeps its client
      leaves that client's `totalInvoiced` off by the difference. */
  lemma UpdateBreaksLedger(s: seq<Invoice>, clients: map<Id, Client>, k: nat, p: InvoicePatch, now: Time)
    requires Ledger(s, clients) && k < |s| && UpdatedInvoice(s[k], p, now).Some?
    requires var x := UpdatedInvoice(s[k], p, now).value;
      x.clientId == s[k].clientId && x.totalAmount != s[k].totalAmount
    ensures !Ledger(s[k := UpdatedInvoice(s[k], p, now).value], clients)
  {
    var x := UpdatedInvoice(s[k], p, now).value;
    SumForUpdate(s, k, x, x.clientId, Total);
    assert clients[x.clientId].totalInvoiced != SumFor(s[k := x], x.clientId, Total);
  }

  /** With new lines and an explicit discount of 0, the total is computed
      with the stored discount (`0 || stored`) while the copy stores the 0:
      the saved invoice no longer satisfies total = subtotal + tax - discount. */
  lemma ZeroDiscountUpdateDrifts(inv: Invoice, p: InvoicePatch, now: Time)
    requires p.items.Some? && p.discountAmount == Some(0.0) && inv.discountAmount > 0.0
    requires UpdatedInvoice(inv, p, now).Some?
    ensures var x := UpdatedInvoice(inv, p, now).value;
      x.discountAmount == 0.0 && x.totalAmount == x.subtotal + x.taxAmount - inv.discountAmount
      && x.totalAmount != x.subtotal + x.taxAmount - x.discountAmount
  {
  }

  /** Only a pair of dates is compared: a due date alone may be moved before
      the stored issue date. */
  lemma DueDateAloneUnchecked(p: InvoicePatch, due: Time)
    requires p.issueDate.Absent? && p.dueDate == At(due)
    ensures !DatesRejected(p)
  {
  }
}
