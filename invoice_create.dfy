/** `POST /invoices` of backend/routes/invoices.js: body validation, the
    owner check on the client, pricing, count-based numbering with one
    timestamp retry on the unique index, and the ledger charge. */
module InvoiceCreate {
  import opened Common
  import opened InvoiceModel
  import opened Records
  import opened Database
  import opened Pricing


  datatype CreateInvoiceRequest = CreateInvoiceRequest(
    clientId: Id, issueDate: Option<Time>, dueDate: Option<Time>, items: seq<ItemInput>,
    discountAmount: Option<real>, currency: Option<string>, notes: Option<string>,
    paymentTerms: Option<string>, internalNotes: Option<string>, template: Option<string>)

  /** The express-validator chain of the create route: both dates present
      and in order, at least one line, and every line with a non-blank
      description, quantity at least 0.01 and a non-negative rate. */
  predicate CreateBodyValid(req: CreateInvoiceRequest)
  {
    req.issueDate.Some? && req.dueDate.Some? && req.dueDate.value >= req.issueDate.value
    && |req.items| >= 1
    && forall k :: 0 <= k < |req.items| ==>
         Trim(req.items[k].description) != "" && req.items[k].quantity >= 0.01 && req.items[k].rate >= 0.0
  }

  /** `userPrefix || process.env.INVOICE_PREFIX || 'INV'`. */
  function InvoicePrefix(user: Option<User>, env: Env): string
  {
    if user.Some? && user.value.invoicePrefix.Some? && user.value.invoicePrefix.value != "" then
      user.value.invoicePrefix.value
    else PrefixOr(env.invoicePrefix)
  }

  /** `Invoice.countDocuments({ userId })`. */
  function InvoiceCount(s: seq<Invoice>, uid: Id): nat
  {
    if s == [] then 0 else InvoiceCount(s[..|s| - 1], uid) + (if s[|s| - 1].userId == uid then 1 else 0)
  }

  /** The number the create route stores: `prefix-(count + 1)` unless the
      unique index already holds it, then `prefix-<timestamp>`; none when
      that collides as well. */
  function ChooseNumber(s: seq<Invoice>, uid: Id, prefix: string, count: nat, now: Time): (r: Option<string>)
    ensures r.Some? ==> !NumberTaken(s, uid, r.value) && r.value != ""
    ensures r.Some? ==> r.value == FormatInvoiceNumber(prefix, count + 1) || r.value == prefix + "-" + NatToString(now)
    ensures !NumberTaken(s, uid, FormatInvoiceNumber(prefix, count + 1)) ==> r == Some(FormatInvoiceNumber(prefix, count + 1))
    ensures r.None? <==> NumberTaken(s, uid, FormatInvoiceNumber(prefix, count + 1))
                         && NumberTaken(s, uid, prefix + "-" + NatToString(now))
  {
    var first := FormatInvoiceNumber(prefix, count + 1);
    var fallback := prefix + "-" + NatToString(now);
    if !NumberTaken(s, uid, first) then Some(first)
    else if !NumberTaken(s, uid, fallback) then Some(fallback)
    else None
  }

  /** The document `new Invoice({...})` builds before its first save, from
      the priced lines and their sums. */
  function InvoiceFrom(req: CreateInvoiceRequest, items: seq<LineItem>, subtotal: real, tax: real,
                       uid: Id, id: Id, number: string, now: Time): (inv: Invoice)
    requires req.issueDate.Some? && req.dueDate.Some?
    ensures inv.status == Draft && inv.paidAmount == 0.0 && inv.remainingAmount == inv.totalAmount
    ensures inv.totalAmount == subtotal + tax - NumberOr(req.discountAmount, 0.0)
    ensures inv.items == items && inv.paymentHistory == [] && inv.sentHistory == []
    ensures inv.id == id && inv.userId == uid && inv.clientId == req.clientId && inv.invoiceNumber == number
    ensures inv.issueDate == req.issueDate.value && inv.dueDate == req.dueDate.value && inv.createdAt == now
    ensures inv.currency == TextOr(req.currency, "INR") && inv.paymentTerms == TextOr(req.paymentTerms, "Net 30")
    ensures inv.template == TextOr(req.template, "standard")
    ensures inv.notes == req.notes && inv.internalNotes == req.internalNotes && inv.paidAt == None
  {
    var discount := NumberOr(req.discountAmount, 0.0);
    Invoice(id, uid, req.clientId, number, Draft, req.issueDate.value, req.dueDate.value,
            items, subtotal, tax, discount, subtotal + tax - discount,
            TextOr(req.currency, "INR"), req.notes, [], [], 0.0, subtotal + tax - discount, None, now,
            TextOr(req.paymentTerms, "Net 30"), req.internalNotes, TextOr(req.template, "standard"))
  }

  /** The prefix of the create route for a business user. */
  function CreatePrefix(users: map<Id, User>, uid: Id, env: Env): string
  {
    InvoicePrefix(if uid in users then Some(users[uid]) else None, env)
  }

  /** The unsaved document of the create route, numbered by the count. */
  function CreateDraft(invoices: seq<Invoice>, users: map<Id, User>, req: CreateInvoiceRequest,
                       uid: Id, id: Id, env: Env, now: Time): Invoice
    requires req.issueDate.Some? && req.dueDate.Some?
  {
    InvoiceFrom(req, PricedLines(req.items), Subtotal(req.items), TaxTotal(req.items), uid, id,
                FormatInvoiceNumber(CreatePrefix(users, uid, env), InvoiceCount(invoices, uid) + 1), now)
  }

  /** The invoice the create route stores for a valid body, or none when the
      save fails (a schema bound such as a negative total, or both numbers
      already taken). */
  function CreatedInvoice(invoices: seq<Invoice>, users: map<Id, User>, req: CreateInvoiceRequest,
                          uid: Id, id: Id, env: Env, now: Time): (r: Option<Invoice>)
    requires req.issueDate.Some? && req.dueDate.Some?
    ensures r.Some? ==>
      Stored(r.value) && r.value.id == id && r.value.userId == uid && r.value.clientId == req.clientId
      && r.value.remainingAmount == r.value.totalAmount && !NumberTaken(invoices, uid, r.value.invoiceNumber)
  {
    var draft := CreateDraft(invoices, users, req, uid, id, env, now);
    var number := ChooseNumber(invoices, uid, CreatePrefix(users, uid, env), InvoiceCount(invoices, uid), now);
    if SchemaValid(draft) && number.Some? then
      var x := draft.(invoiceNumber := number.value);
      SaveHookStores(x, now);
      Some(SaveHook(x, now))
    else None
  }

  /** What a successful create stores: the priced lines, the total the
      route computed and nothing paid. An invoice whose total comes to 0 is
      already `paid` when it is created, because the save hook sees
      `paidAmount >= totalAmount`. */
  lemma CreatedInvoiceShape(invoices: seq<Invoice>, users: map<Id, User>, req: CreateInvoiceRequest,
                            uid: Id, id: Id, env: Env, now: Time)
    requires req.issueDate.Some? && req.dueDate.Some?
    requires CreatedInvoice(invoices, users, req, uid, id, env, now).Some?
    ensures var x := CreatedInvoice(invoices, users, req, uid, id, env, now).value;
      x.totalAmount == Subtotal(req.items) + TaxTotal(req.items) - NumberOr(req.discountAmount, 0.0)
      && x.items == PricedLines(req.items) && x.paidAmount == 0.0 && x.paymentHistory == []
      && x.status == (if x.totalAmount == 0.0 then Paid else Draft)
      && x.paidAt == (if x.totalAmount == 0.0 then Some(now) else None)
  {
    var draft := CreateDraft(invoices, users, req, uid, id, env, now);
    var number := ChooseNumber(invoices, uid, CreatePrefix(users, uid, env), InvoiceCount(invoices, uid), now).value;
    var y := draft.(invoiceNumber := number);
    assert CreatedInvoice(invoices, users, req, uid, id, env, now).value == SaveHook(y, now);
    assert y.status == Draft && y.paidAmount == 0.0 && y.paidAt == None && y.totalAmount >= 0.0;
  }

  /** The stored number is the counted one, or the timestamp fallback when
      the index already holds the counted one. */
  lemma CreatedInvoiceNumber(invoices: seq<Invoice>, users: map<Id, User>, req: CreateInvoiceRequest,
                             uid: Id, id: Id, env: Env, now: Time)
    requires req.issueDate.Some? && req.dueDate.Some?
    requires CreatedInvoice(invoices, users, req, uid, id, env, now).Some?
    ensures var x := CreatedInvoice(invoices, users, req, uid, id, env, now).value;
      var prefix := CreatePrefix(users, uid, env);
      var count := InvoiceCount(invoices, uid);
      x.invoiceNumber == (if NumberTaken(invoices, uid, FormatInvoiceNumber(prefix, count + 1))
                          then prefix + "-" + NatToString(now) else FormatInvoiceNumber(prefix, count + 1))
  {
    var draft := CreateDraft(invoices, users, req, uid, id, env, now);
    var prefix, count := CreatePrefix(users, uid, env), InvoiceCount(invoices, uid);
    var number := ChooseNumber(invoices, uid, prefix, count, now).value;
    var x := SaveHook(draft.(invoiceNumber := number), now);
    assert CreatedInvoice(invoices, users, req, uid, id, env, now).value == x;
    assert x.invoiceNumber == number;
  }

  /** A discount larger than the priced lines makes the total negative, the
      schema rejects it and the route answers 500 rather than 400. */
  lemma OverDiscountFailsCreate(invoices: seq<Invoice>, users: map<Id, User>, req: CreateInvoiceRequest,
                                uid: Id, id: Id, env: Env, now: Time)
    requires req.issueDate.Some? && req.dueDate.Some?
    requires NumberOr(req.discountAmount, 0.0) > Subtotal(req.items) + TaxTotal(req.items)
    ensures CreatedInvoice(invoices, users, req, uid, id, env, now).None?
  {
    var draft := CreateDraft(invoices, users, req, uid, id, env, now);
    assert draft.totalAmount < 0.0;
  }

  /** Adds an amount to a client's `totalInvoiced` and `totalOutstanding`. */
  function Charge(c: Client, amount: real): Client
  {
    c.(totalInvoiced := c.totalInvoiced + amount, totalOutstanding := c.totalOutstanding + amount)
  }

  /** Appending a saved invoice numbered outside the index, with the next
      id, and charging its client keeps every invariant of the store. */
  lemma CreateKeepsStore(invoices: seq<Invoice>, clients: map<Id, Client>, prs: map<Id, PaymentRequest>,
                         nextId: nat, x: Invoice)
    requires InvoicesOk(invoices, nextId) && ClientsOk(clients, nextId) && PaymentRequestsOk(prs, nextId)
    requires Stored(x) && x.id == nextId && !NumberTaken(invoices, x.userId, x.invoiceNumber)
    requires x.clientId in clients && clients[x.clientId].userId == x.userId
    requires x.remainingAmount == x.totalAmount
    ensures var after := clients[x.clientId := Charge(clients[x.clientId], x.totalAmount)];
      InvoicesOk(invoices + [x], nextId + 1) && ClientsOk(after, nextId + 1)
      && (Ledger(invoices, clients) ==> Ledger(invoices + [x], after))
      && (RequestsCoherent(invoices, prs) ==> RequestsCoherent(invoices + [x], prs))
  {
    AppendKeepsInvoicesOk(invoices, nextId, x);
    if Ledger(invoices, clients) {
      ChargeKeepsLedger(invoices, clients, x);
    }
    if RequestsCoherent(invoices, prs) {
      AppendKeepsCoherence(invoices, prs, x);
    }
  }

  lemma ChargeKeepsLedger(invoices: seq<Invoice>, clients: map<Id, Client>, x: Invoice)
    requires Ledger(invoices, clients)
    requires x.clientId in clients && clients[x.clientId].userId == x.userId
    requires x.remainingAmount == x.totalAmount
    ensures Ledger(invoices + [x], clients[x.clientId := Charge(clients[x.clientId], x.totalAmount)])
  {
    var after := clients[x.clientId := Charge(clients[x.clientId], x.totalAmount)];
    var t := invoices + [x];
    forall i | 0 <= i < |t| ensures t[i].clientId in after && after[t[i].clientId].userId == t[i].userId {
      if i < |invoices| {
        assert t[i] == invoices[i];
      }
    }
    forall cid | cid in after
      ensures after[cid].totalInvoiced == SumFor(t, cid, Total)
      ensures after[cid].totalOutstanding == SumFor(t, cid, Remaining)
    {
      SumForAppend(invoices, x, cid, Total);
      SumForAppend(invoices, x, cid, Remaining);
    }
  }

  /** The `invoice.save()` of the create route with its catch block: a
      duplicate-key error on the counted number is retried once with
      `prefix-<timestamp>`; a validation error or a second duplicate fails. */
  method SaveWithRetry(invoices: seq<Invoice>, draft: Invoice, prefix: string, count: nat,
                       envPrefix: Option<string>, now: Time) returns (saved: Option<Invoice>)
    requires draft.invoiceNumber == FormatInvoiceNumber(prefix, count + 1)
    ensures saved.Some? <==> SchemaValid(draft) && ChooseNumber(invoices, draft.userId, prefix, count, now).Some?
    ensures saved.Some? ==>
              saved.value == SaveHook(draft.(invoiceNumber := ChooseNumber(invoices, draft.userId, prefix, count, now).value), now)
              && Stored(saved.value)
  {
    var doc := new InvoiceDocument(draft, true);
    var valid := doc.Save(now, envPrefix, count);
    if !valid {
      return None;
    }
    if NumberTaken(invoices, draft.userId, doc.invoiceNumber) {
      var fallback := prefix + "-" + NatToString(now);
      if NumberTaken(invoices, draft.userId, fallback) {
        return None;
      }
      doc.invoiceNumber := fallback;
      valid := doc.Save(now, envPrefix, count);
      SaveHookIdempotent(draft, now);
    }
    SaveHookKeepsNumber(draft, doc.invoiceNumber, now);
    saved := Some(doc.Record());
  }

  /** The document the create route builds before its first save. */
  method BuildDraft(invoices: seq<Invoice>, users: map<Id, User>, req: CreateInvoiceRequest,
                    uid: Id, id: Id, env: Env, now: Time) returns (draft: Invoice, prefix: string, count: nat)
    requires req.issueDate.Some? && req.dueDate.Some?
    ensures draft == CreateDraft(invoices, users, req, uid, id, env, now)
    ensures prefix == CreatePrefix(users, uid, env) && count == InvoiceCount(invoices, uid)
    ensures draft.userId == uid && draft.invoiceNumber == FormatInvoiceNumber(prefix, count + 1)
  {
    var items, subtotal, taxTotal := PriceItems(req.items);
    prefix := CreatePrefix(users, uid, env);
    count := InvoiceCount(invoices, uid);
    draft := InvoiceFrom(req, items, subtotal, taxTotal, uid, id, FormatInvoiceNumber(prefix, count + 1), now);
  }

  method SaveNewInvoice(invoices: seq<Invoice>, users: map<Id, User>, req: CreateInvoiceRequest,
                        uid: Id, id: Id, env: Env, now: Time) returns (saved: Option<Invoice>)
    requires req.issueDate.Some? && req.dueDate.Some?
    ensures saved == CreatedInvoice(invoices, users, req, uid, id, env, now)
  {
    var draft, prefix, count := BuildDraft(invoices, users, req, uid, id, env, now);
    ghost var number := ChooseNumber(invoices, uid, prefix, count, now);
    saved := SaveWithRetry(invoices, draft, prefix, count, env.invoicePrefix, now);
    assert saved == if SchemaValid(draft) && number.Some? then Some(SaveHook(draft.(invoiceNumber := number.value), now)) else None;
  }

  /** `POST /invoices`. */
  method CreateInvoice(db: Db, uid: Id, req: CreateInvoiceRequest, env: Env, now: Time) returns (r: Response<Id>)
    requires db.Valid()
    modifies db
    ensures db.Valid()
    ensures old(db.Reconciled()) ==> db.Reconciled()
    ensures r.Fail? ==> unchanged(db)
    ensures r.Fail? && r.code == 400 <==>
              !CreateBodyValid(req) || req.clientId !in old(db.clients) || old(db.clients)[req.clientId].userId != uid
    ensures r.Fail? && r.code == 500 <==>
              CreateBodyValid(req) && req.clientId in old(db.clients) && old(db.clients)[req.clientId].userId == uid
              && CreatedInvoice(old(db.invoices), old(db.users), req, uid, old(db.nextId), env, now).None?
    ensures r.Fail? ==> r.code in {400, 500}
    ensures r.Ok? ==> r.code == 201 && r.value == old(db.nextId)
    ensures r.Ok? ==>
      var x := CreatedInvoice(old(db.invoices), old(db.users), req, uid, r.value, env, now).value;
      db.invoices == old(db.invoices) + [x]
      && db.clients == old(db.clients)[req.clientId := Charge(old(db.clients)[req.clientId], x.totalAmount)]
      && db.nextId == old(db.nextId) + 1 && db.users == old(db.users)
      && db.paymentRequests == old(db.paymentRequests) && db.profileRequests == old(db.profileRequests)
      && db.signupRequests == old(db.signupRequests)
  {
    if !CreateBodyValid(req) {
      return Fail(400, "Validation failed");
    }
    if req.clientId !in db.clients || db.clients[req.clientId].userId != uid {
      return Fail(400, "Client not found");
    }
    var client := db.clients[req.clientId];
    var id := db.nextId;
    var saved := SaveNewInvoice(db.invoices, db.users, req, uid, id, env, now);
    if saved.None? {
      return Fail(500, "Server error");
    }
    var x := saved.value;
    CreateKeepsStore(db.invoices, db.clients, db.paymentRequests, db.nextId, x);
    AllocatorGrows(db.invoices, db.clients, db.users, db.paymentRequests, db.profileRequests, db.signupRequests,
                   db.nextId, db.nextId + 1);
    var after := db.clients[req.clientId := Charge(client, x.totalAmount)];
    db.Commit(db.invoices + [x], after, db.users, db.paymentRequests, db.profileRequests, db.signupRequests,
              db.nextId + 1);
    r := Ok(201, id);
  }
}
