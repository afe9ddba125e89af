/** The invoice routes after creation in backend/routes/invoices.js: delete
    (refunding the client ledger), send (status and sending log), record
    payment (payment log, paid amount and client ledger) and the statistics
    overview. The payment step is shared with the approval of a client's
    payment request. */
module InvoiceLifecycle {
  import opened Common
  import opened InvoiceModel
  import opened Records
  import opened Database

  // ---------------------------------------------------------------------------
  // Delete

  /** `client.totalInvoiced -= totalAmount; client.totalOutstanding -= remainingAmount`. */
  function Refund(c: Client, inv: Invoice): Client
  {
    Adjust(c, -inv.totalAmount, -inv.remainingAmount)
  }

  /** The client collection after a delete: the invoice's client, when it
      still exists, loses the invoice's amounts. */
  function RefundClient(clients: map<Id, Client>, inv: Invoice): map<Id, Client>
  {
    if inv.clientId in clients then clients[inv.clientId := Refund(clients[inv.clientId], inv)] else clients
  }

  /** `DELETE /invoices/:id`: 404 for an invoice the caller does not own, 400
      for a paid one; otherwise the client is refunded and the invoice
      removed. */
  method DeleteInvoice(db: Db, uid: Id, id: Id) returns (r: Response<Id>)
    requires db.Valid()
    modifies db
    ensures db.Valid()
    ensures old(db.Reconciled()) ==> db.Reconciled()
    ensures r.Fail? ==> unchanged(db)
    ensures r.Fail? && r.code == 404 <==> FindOwned(old(db.invoices), id, uid).None?
    ensures r.Fail? && r.code == 400 <==>
              FindOwned(old(db.invoices), id, uid).Some?
              && old(db.invoices)[FindOwned(old(db.invoices), id, uid).value].status == Paid
    ensures r.Fail? ==> r.code in {400, 404}
    ensures r.Ok? ==>
      var k := FindOwned(old(db.invoices), id, uid).value;
      r.code == 200 && r.value == id && old(db.invoices)[k].status != Paid
      && db.invoices == old(db.invoices)[..k] + old(db.invoices)[k + 1..]
      && db.clients == RefundClient(old(db.clients), old(db.invoices)[k])
      && db.users == old(db.users) && db.nextId == old(db.nextId)
      && db.paymentRequests == old(db.paymentRequests) && db.profileRequests == old(db.profileRequests)
      && db.signupRequests == old(db.signupRequests)
  {
    var found := FindOwned(db.invoices, id, uid);
    if found.None? {
      return Fail(404, "Invoice not found");
    }
    var k := found.value;
    var inv := db.invoices[k];
    if inv.status == Paid {
      return Fail(400, "Cannot delete a paid invoice");
    }
    var clients := RefundClient(db.clients, inv);
    DeleteKeepsStore(db.invoices, db.clients, db.nextId, k);
    if db.Reconciled() {
      DeleteKeepsLedger(db.invoices, db.clients, db.paymentRequests, k);
    }
    db.Commit(db.invoices[..k] + db.invoices[k + 1..], clients, db.users, db.paymentRequests,
              db.profileRequests, db.signupRequests, db.nextId);
    r := Ok(200, id);
  }

  /** Removing an invoice and refunding its client keeps the invariants of
      both collections. */
  lemma DeleteKeepsStore(s: seq<Invoice>, clients: map<Id, Client>, top: nat, k: nat)
    requires InvoicesOk(s, top) && ClientsOk(clients, top) && k < |s|
    ensures InvoicesOk(s[..k] + s[k + 1..], top) && ClientsOk(RefundClient(clients, s[k]), top)
  {
    RemoveKeepsInvoicesOk(s, top, k);
    var cid := s[k].clientId;
    if cid in clients {
      ClientWriteKeepsClientsOk(clients, top, Refund(clients[cid], s[k]));
    }
  }

  /** Removing an invoice and refunding its client keeps the ledger and the
      payment requests coherent. */
  lemma DeleteKeepsLedger(s: seq<Invoice>, clients: map<Id, Client>, requests: map<Id, PaymentRequest>, k: nat)
    requires Ledger(s, clients) && RequestsCoherent(s, requests) && k < |s|
    ensures Ledger(s[..k] + s[k + 1..], RefundClient(clients, s[k]))
    ensures RequestsCoherent(s[..k] + s[k + 1..], requests)
  {
    RemoveKeepsLedger(s, clients, k);
    RemoveKeepsCoherence(s, requests, k);
  }

  // ---------------------------------------------------------------------------
  // Send

  /** `invoice.status = 'sent'` and one entry on the sending log, its method
      `req.body.method || 'email'`. */
  function MarkedSent(inv: Invoice, sentTo: Option<string>, via: Option<string>, now: Time): Invoice
  {
    inv.(status := Sent, sentHistory := inv.sentHistory + [SentRecord(now, sentTo, TextOr(via, "email"))])
  }

  /** What the send route saves, or none when the method is outside the
      sending enum and validation fails. */
  function SentInvoice(inv: Invoice, sentTo: Option<string>, via: Option<string>, now: Time): (r: Option<Invoice>)
    ensures r.Some? ==> Stored(r.value)
  {
    var x := MarkedSent(inv, sentTo, via, now);
    if SchemaValid(x) then SaveHookStores(x, now); Some(SaveHook(x, now)) else None
  }

  /** A stored invoice can be sent exactly when the method is one of the
      sending methods; with none given the method is "email". */
  lemma SendAccepted(inv: Invoice, sentTo: Option<string>, via: Option<string>, now: Time)
    requires Stored(inv)
    ensures SentInvoice(inv, sentTo, via, now).Some? <==> TextOr(via, "email") in SendMethods
    ensures via.None? ==> SentInvoice(inv, sentTo, via, now).Some?
  {
    var x := MarkedSent(inv, sentTo, via, now);
    assert x.sentHistory[|inv.sentHistory|].sendMethod == TextOr(via, "email");
    if TextOr(via, "email") in SendMethods {
      forall k | 0 <= k < |x.sentHistory| ensures x.sentHistory[k].sendMethod in SendMethods {
        if k < |inv.sentHistory| {
          assert x.sentHistory[k] == inv.sentHistory[k];
        }
      }
    }
  }

  /** There is no status guard: after a send the invoice is `sent`, unless
      it is fully paid (then the hook makes it `paid` again with a fresh
      `paidAt`, even when it was paid before) or already past due (then
      `overdue`). The amounts and the payment log do not change. */
  lemma SendOutcome(inv: Invoice, sentTo: Option<string>, via: Option<string>, now: Time)
    requires SentInvoice(inv, sentTo, via, now).Some?
    ensures var x := SentInvoice(inv, sentTo, via, now).value;
      x.sentHistory == inv.sentHistory + [SentRecord(now, sentTo, TextOr(via, "email"))]
      && x.paymentHistory == inv.paymentHistory && x.paidAmount == inv.paidAmount
      && x.totalAmount == inv.totalAmount && x.clientId == inv.clientId
      && x.id == inv.id && x.userId == inv.userId && x.invoiceNumber == inv.invoiceNumber
      && x.status == (if inv.paidAmount >= inv.totalAmount then Paid
                      else if inv.dueDate < now then Overdue
                      else Sent)
      && x.paidAt == (if inv.paidAmount >= inv.totalAmount then Some(now) else inv.paidAt)
  {
    var y := MarkedSent(inv, sentTo, via, now);
    assert SentInvoice(inv, sentTo, via, now).value == SaveHook(y, now);
  }

  /** The two assignments of the send route on the loaded document. */
  method MarkSent(doc: InvoiceDocument, sentTo: Option<string>, via: Option<string>, now: Time)
    modifies doc
    ensures doc.Record() == MarkedSent(old(doc.Record()), sentTo, via, now) && doc.isNew == old(doc.isNew)
  {
    doc.status := Sent;
    doc.sentHistory := doc.sentHistory + [SentRecord(now, sentTo, TextOr(via, "email"))];
  }

  method SaveSent(inv: Invoice, sentTo: Option<string>, via: Option<string>, now: Time)
    returns (saved: Option<Invoice>)
    ensures saved == SentInvoice(inv, sentTo, via, now)
  {
    var doc := new InvoiceDocument(inv, false);
    MarkSent(doc, sentTo, via, now);
    ghost var before := doc.Record();
    assert Numbered(before, false, None, 0) == before;
    var valid := doc.Save(now, None, 0);
    saved := if valid then Some(doc.Record()) else None;
  }

  /** `POST /invoices/:id/send`: 404 for an invoice the caller does not own,
      500 when the method fails validation; otherwise the sent invoice is
      written back and no client changes. */
  method SendInvoice(db: Db, uid: Id, id: Id, sentTo: Option<string>, via: Option<string>, now: Time)
    returns (r: Response<Id>)
    requires db.Valid()
    modifies db
    ensures db.Valid()
    ensures old(db.Reconciled()) ==> db.Reconciled()
    ensures r.Fail? ==> unchanged(db)
    ensures r.Fail? && r.code == 404 <==> FindOwned(old(db.invoices), id, uid).None?
    ensures r.Fail? && r.code == 500 <==> FindOwned(old(db.invoices), id, uid).Some? && TextOr(via, "email") !in SendMethods
    ensures r.Fail? ==> r.code in {404, 500}
    ensures r.Ok? ==>
      var k := FindOwned(old(db.invoices), id, uid).value;
      r.code == 200 && r.value == id && SentInvoice(old(db.invoices)[k], sentTo, via, now).Some?
      && db.invoices == old(db.invoices)[k := SentInvoice(old(db.invoices)[k], sentTo, via, now).value]
      && db.clients == old(db.clients) && db.users == old(db.users) && db.nextId == old(db.nextId)
      && db.paymentRequests == old(db.paymentRequests) && db.profileRequests == old(db.profileRequests)
      && db.signupRequests == old(db.signupRequests)
  {
    var found := FindOwned(db.invoices, id, uid);
    if found.None? {
      return Fail(404, "Invoice not found");
    }
    var k := found.value;
    var inv := db.invoices[k];
    SendAccepted(inv, sentTo, via, now);
    var saved := SaveSent(inv, sentTo, via, now);
    if saved.None? {
      return Fail(500, "Server error");
    }
    var x := saved.value;
    SendKeepsStore(db.invoices, db.clients, db.paymentRequests, db.nextId, k, sentTo, via, now);
    db.Commit(db.invoices[k := x], db.clients, db.users, db.paymentRequests,
              db.profileRequests, db.signupRequests, db.nextId);
    r := Ok(200, id);
  }

  /** Writing back a sent invoice keeps the invoice collection's invariant,
      and the ledger when it held before: the amounts do not move. */
  lemma SendKeepsStore(s: seq<Invoice>, clients: map<Id, Client>, requests: map<Id, PaymentRequest>,
                       top: nat, k: nat, sentTo: Option<string>, via: Option<string>, now: Time)
    requires InvoicesOk(s, top) && k < |s| && SentInvoice(s[k], sentTo, via, now).Some?
    ensures InvoicesOk(s[k := SentInvoice(s[k], sentTo, via, now).value], top)
    ensures Ledger(s, clients) && RequestsCoherent(s, requests) ==>
              Ledger(s[k := SentInvoice(s[k], sentTo, via, now).value], clients)
              && RequestsCoherent(s[k := SentInvoice(s[k], sentTo, via, now).value], requests)
  {
    var x := SentInvoice(s[k], sentTo, via, now).value;
    SendOutcome(s[k], sentTo, via, now);
    ReplaceKeepsInvoicesOk(s, top, k, x);
    if Ledger(s, clients) && RequestsCoherent(s, requests) {
      ReplaceKeepsLedger(s, clients, k, x, clients[x.clientId]);
      assert clients[x.clientId := clients[x.clientId]] == clients;
      ReplaceKeepsCoherence(s, requests, k, x);
    }
  }

  // ---------------------------------------------------------------------------
  // Payments

  /** The body of `POST /invoices/:id/payment`. */
  datatype PaymentInput = PaymentInput(amount: real, paymentDate: Option<Time>, paymentMethod: Option<string>,
                                       transactionId: Option<string>, notes: Option<string>)

  /** The route's method normalisation: an allowed method is kept, any other
      non-empty string becomes "other", and a missing one "cash". */
  function NormalizeMethod(given: Option<string>): (m: PaymentMethod)
    ensures given.Some? && ParseMethod(given.value).Some? ==> MethodName(m) == given.value
    ensures m == Cash <==> given.None? || given.value == "" || given.value == "cash"
    ensures m == Other <==> given.Some? && given.value != "" && (given.value == "other" || ParseMethod(given.value).None?)
  {
    if given.Some? && ParseMethod(given.value).Some? then ParseMethod(given.value).value
    else if given.Some? && given.value != "" then Other
    else Cash
  }

  /** The entry the payment route appends, dated `paymentDate || now`. */
  function PaymentEntry(p: PaymentInput, now: Time): Payment
  {
    Payment(p.amount, Given(p.paymentDate, now), NormalizeMethod(p.paymentMethod), p.transactionId, p.notes)
  }

  /** `paymentHistory.push(entry)` and `paidAmount += amount`. */
  function WithPayment(inv: Invoice, pay: Payment): Invoice
  {
    inv.(paymentHistory := inv.paymentHistory + [pay], paidAmount := inv.paidAmount + pay.amount)
  }

  /** The invoice saved after a payment: validation never rejects it, the
      log grows by the one entry and the balance falls by its amount. */
  function PaymentApplied(inv: Invoice, pay: Payment, now: Time): (r: Invoice)
    ensures SchemaValid(inv) ==> Stored(r)
    ensures r.paymentHistory == inv.paymentHistory + [pay] && r.paidAmount == inv.paidAmount + pay.amount
    ensures r.remainingAmount == inv.totalAmount - inv.paidAmount - pay.amount
    ensures r.id == inv.id && r.userId == inv.userId && r.clientId == inv.clientId
    ensures r.invoiceNumber == inv.invoiceNumber && r.totalAmount == inv.totalAmount && r.items == inv.items
  {
    var x := WithPayment(inv, pay);
    if SchemaValid(x) then SaveHookStores(x, now); SaveHook(x, now) else SaveHook(x, now)
  }

  /** A payment no larger than the balance of a stored invoice leaves a
      balance of at least 0; an invoice that was not paid becomes paid
      exactly when the payment settles the balance, and then `paidAt` is
      the time of the save. */
  lemma PaymentSettles(inv: Invoice, pay: Payment, now: Time)
    requires Stored(inv) && pay.amount <= inv.remainingAmount
    ensures var r := PaymentApplied(inv, pay, now);
      r.remainingAmount == inv.remainingAmount - pay.amount >= 0.0
      && (inv.status != Paid ==> (r.status == Paid <==> pay.amount == inv.remainingAmount))
      && (inv.status != Paid && r.status == Paid ==> r.paidAt == Some(now))
      && (inv.status == Paid ==> r.status == Paid)
  {
    var x := WithPayment(inv, pay);
    assert PaymentApplied(inv, pay, now) == SaveHook(x, now);
  }

  /** Payments have no status guard: a cancelled invoice takes a partial
      payment and stays cancelled. */
  lemma CancelledInvoiceTakesPayment(inv: Invoice, pay: Payment, now: Time)
    requires Stored(inv) && inv.status == Cancelled && 0.01 <= pay.amount < inv.remainingAmount
    ensures var r := PaymentApplied(inv, pay, now);
      r.status == Cancelled && r.paidAmount == inv.paidAmount + pay.amount && |r.paymentHistory| == |inv.paymentHistory| + 1
  {
    var x := WithPayment(inv, pay);
    assert PaymentApplied(inv, pay, now) == SaveHook(x, now);
  }

  /** `client.totalPaid += amount; client.totalOutstanding -= amount`. */
  function Credit(c: Client, amount: real): Client
  {
    c.(totalPaid := c.totalPaid + amount, totalOutstanding := c.totalOutstanding - amount)
  }

  /** The client collection after a payment on `inv`: its client, when it
      exists, is credited. */
  function CreditClient(clients: map<Id, Client>, cid: Id, amount: real): map<Id, Client>
  {
    if cid in clients then clients[cid := Credit(clients[cid], amount)] else clients
  }

  /** Applying a payment to a stored invoice and crediting its client by the
      same amount keeps the ledger; the client's `totalPaid` grows by the
      amount. */
  lemma PaymentKeepsLedger(s: seq<Invoice>, clients: map<Id, Client>, k: nat, pay: Payment, now: Time)
    requires Ledger(s, clients) && k < |s| && Stored(s[k])
    ensures var cid := s[k].clientId;
      Ledger(s[k := PaymentApplied(s[k], pay, now)], CreditClient(clients, cid, pay.amount))
      && CreditClient(clients, cid, pay.amount)[cid].totalPaid == clients[cid].totalPaid + pay.amount
  {
    var x := PaymentApplied(s[k], pay, now);
    var c := Credit(clients[x.clientId], pay.amount);
    ReplaceKeepsLedger(s, clients, k, x, c);
  }

  /** Applying a payment and crediting the client keeps the invariants of
      both collections, and the ledger when it held before. */
  lemma PaymentKeepsStore(s: seq<Invoice>, clients: map<Id, Client>, requests: map<Id, PaymentRequest>,
                          top: nat, k: nat, pay: Payment, now: Time)
    requires InvoicesOk(s, top) && ClientsOk(clients, top) && k < |s|
    ensures InvoicesOk(s[k := PaymentApplied(s[k], pay, now)], top)
    ensures ClientsOk(CreditClient(clients, s[k].clientId, pay.amount), top)
    ensures Ledger(s, clients) && RequestsCoherent(s, requests) ==>
              Ledger(s[k := PaymentApplied(s[k], pay, now)], CreditClient(clients, s[k].clientId, pay.amount))
              && RequestsCoherent(s[k := PaymentApplied(s[k], pay, now)], requests)
  {
    var cid := s[k].clientId;
    var x := PaymentApplied(s[k], pay, now);
    if cid in clients {
      ClientWriteKeepsClientsOk(clients, top, Credit(clients[cid], pay.amount));
    }
    ReplaceKeepsInvoicesOk(s, top, k, x);
    if Ledger(s, clients) && RequestsCoherent(s, requests) {
      PaymentKeepsLedger(s, clients, k, pay, now);
      ReplaceKeepsCoherence(s, requests, k, x);
    }
  }

  /** The two assignments of the payment route on the loaded invoice. */
  method PushPayment(doc: InvoiceDocument, pay: Payment)
    modifies doc
    ensures doc.Record() == WithPayment(old(doc.Record()), pay) && doc.isNew == old(doc.isNew)
  {
    doc.paymentHistory := doc.paymentHistory + [pay];
    doc.paidAmount := doc.paidAmount + pay.amount;
  }

  /** Appends the payment to a stored invoice and saves it. */
  method SavePayment(inv: Invoice, pay: Payment, now: Time) returns (saved: Invoice)
    requires SchemaValid(inv)
    ensures saved == PaymentApplied(inv, pay, now)
  {
    var doc := new InvoiceDocument(inv, false);
    PushPayment(doc, pay);
    ghost var before := doc.Record();
    assert Numbered(before, false, None, 0) == before;
    var valid := doc.Save(now, None, 0);
    assert valid;
    saved := doc.Record();
  }

  /** `POST /invoices/:id/payment`: 400 for an amount under 0.01 or above the
      balance, 404 for an invoice the caller does not own; otherwise the
      client is credited (written first) and the payment applied. */
  method RecordPayment(db: Db, uid: Id, id: Id, p: PaymentInput, now: Time) returns (r: Response<Id>)
    requires db.Valid()
    modifies db
    ensures db.Valid()
    ensures old(db.Reconciled()) ==> db.Reconciled()
    ensures r.Fail? ==> unchanged(db)
    ensures r.Fail? && r.code == 404 <==> p.amount >= 0.01 && FindOwned(old(db.invoices), id, uid).None?
    ensures r.Fail? && r.code == 400 <==>
              p.amount < 0.01
              || (FindOwned(old(db.invoices), id, uid).Some?
                  && p.amount > old(db.invoices)[FindOwned(old(db.invoices), id, uid).value].remainingAmount)
    ensures r.Fail? ==> r.code in {400, 404}
    ensures r.Ok? ==>
      var k := FindOwned(old(db.invoices), id, uid).value;
      var inv := old(db.invoices)[k];
      r.code == 200 && r.value == id && 0.01 <= p.amount <= inv.remainingAmount
      && db.invoices == old(db.invoices)[k := PaymentApplied(inv, PaymentEntry(p, now), now)]
      && db.clients == CreditClient(old(db.clients), inv.clientId, p.amount)
      && db.users == old(db.users) && db.nextId == old(db.nextId)
      && db.paymentRequests == old(db.paymentRequests) && db.profileRequests == old(db.profileRequests)
      && db.signupRequests == old(db.signupRequests)
  {
    if p.amount < 0.01 {
      return Fail(400, "Payment amount must be greater than 0");
    }
    var found := FindOwned(db.invoices, id, uid);
    if found.None? {
      return Fail(404, "Invoice not found");
    }
    var k := found.value;
    var inv := db.invoices[k];
    if p.amount > inv.remainingAmount {
      return Fail(400, "Payment amount exceeds remaining balance");
    }
    var pay := PaymentEntry(p, now);
    var clients := CreditClient(db.clients, inv.clientId, p.amount);
    var x := SavePayment(inv, pay, now);
    PaymentKeepsStore(db.invoices, db.clients, db.paymentRequests, db.nextId, k, pay, now);
    db.Commit(db.invoices[k := x], clients, db.users, db.paymentRequests,
              db.profileRequests, db.signupRequests, db.nextId);
    r := Ok(200, id);
  }

  // ---------------------------------------------------------------------------
  // Statistics

  datatype InvoiceStats = InvoiceStats(total: nat, draft: nat, sent: nat, paid: nat, overdue: nat,
                                       totalAmount: real, paidAmount: real, outstandingAmount: real,
                                       overdueAmount: real)

  function HasStatus(st: InvoiceStatus): Invoice -> bool
  {
    (inv: Invoice) => inv.status == st
  }

  /** The invoices of business `uid`, in collection order. */
  function OwnedBy(s: seq<Invoice>, uid: Id): seq<Invoice>
  {
    Filter(s, (inv: Invoice) => inv.userId == uid)
  }

  /** The counts per status and the sums of the total, paid, remaining and
      overdue remaining amounts over a list of invoices. */
  function Tally(invs: seq<Invoice>): InvoiceStats
  {
    InvoiceStats(|invs|, CountOf(invs, HasStatus(Draft)), CountOf(invs, HasStatus(Sent)),
                 CountOf(invs, HasStatus(Paid)), CountOf(invs, HasStatus(Overdue)),
                 SumOf(invs, Total), SumOf(invs, PaidOf), SumOf(invs, Remaining),
                 SumOf(Filter(invs, HasStatus(Overdue)), Remaining))
  }

  /** `GET /invoices/stats/overview`: the tally of the caller's invoices. */
  function Overview(s: seq<Invoice>, uid: Id): InvoiceStats
  {
    Tally(OwnedBy(s, uid))
  }

  /** An invoice has one status, so the four counts never exceed the total. */
  lemma {:induction false} StatusCountsBound(s: seq<Invoice>)
    ensures CountOf(s, HasStatus(Draft)) + CountOf(s, HasStatus(Sent)) + CountOf(s, HasStatus(Paid))
            + CountOf(s, HasStatus(Overdue)) <= |s|
  {
    if s != [] {
      StatusCountsBound(s[..|s| - 1]);
    }
  }

  /** Over stored invoices the total amount splits into what was paid and
      what is outstanding, and the four status counts stay within the total. */
  lemma TallyBalances(invs: seq<Invoice>)
    requires forall i :: 0 <= i < |invs| ==> Stored(invs[i])
    ensures var st := Tally(invs);
      st.totalAmount == st.paidAmount + st.outstandingAmount
      && st.draft + st.sent + st.paid + st.overdue <= st.total
  {
    forall i | 0 <= i < |invs| ensures Total(invs[i]) == PaidOf(invs[i]) + Remaining(invs[i]) {
    }
    SumOfSplit(invs, Total, PaidOf, Remaining);
    StatusCountsBound(invs);
  }

  /** The overview balances, and it counts every invoice of the business. */
  lemma OverviewBalances(s: seq<Invoice>, uid: Id)
    requires forall i :: 0 <= i < |s| ==> Stored(s[i])
    ensures var st := Overview(s, uid);
      st.totalAmount == st.paidAmount + st.outstandingAmount
      && st.draft + st.sent + st.paid + st.overdue <= st.total
      && st.total == CountOf(s, (inv: Invoice) => inv.userId == uid)
  {
    var mine := OwnedBy(s, uid);
    forall i | 0 <= i < |mine| ensures Stored(mine[i]) {
      assert mine[i] in s;
    }
    TallyBalances(mine);
  }
}
