/** The client portal of backend/routes/clientPortal.js: inviting a client
    and activating the account with the approval token, the login scan over
    client records, the portal's invoice list, and the payment-request
    workflow (a client submits a pending claim; the business approves it,
    which applies the payment to the invoice and the ledger, or rejects it). */
module ClientPortal {
  import opened Common
  import opened InvoiceModel
  import opened Records
  import opened Database
  import opened InvoiceLifecycle

  // ---------------------------------------------------------------------------
  // Invitation and activation

  /** `POST /invite`: the client gets the signed token as its approval
      token. The route has no authentication and no ownership check. */
  method InviteClient(db: Db, cid: Id, token: string) returns (r: Response<Id>)
    requires db.Valid()
    modifies db
    ensures db.Valid()
    ensures old(db.Reconciled()) ==> db.Reconciled()
    ensures r.Fail? <==> cid !in old(db.clients)
    ensures r.Fail? ==> r.code == 404 && unchanged(db)
    ensures r.Ok? ==>
      r.code == 200 && r.value == cid
      && db.clients == old(db.clients)[cid := old(db.clients)[cid].(approvalToken := Some(token))]
      && db.invoices == old(db.invoices) && db.users == old(db.users) && db.nextId == old(db.nextId)
      && db.paymentRequests == old(db.paymentRequests) && db.profileRequests == old(db.profileRequests)
      && db.signupRequests == old(db.signupRequests)
  {
    if cid !in db.clients {
      return Fail(404, "Client not found");
    }
    var c := db.clients[cid].(approvalToken := Some(token));
    ClientWriteKeepsClientsOk(db.clients, db.nextId, c);
    ClientFieldsKeepLedger(db.invoices, db.clients, c);
    db.Commit(db.invoices, db.clients[cid := c], db.users, db.paymentRequests, db.profileRequests,
              db.signupRequests, db.nextId);
    r := Ok(200, cid);
  }

  /** The token check of `POST /approve`: the token decodes to a client whose
      stored approval token is exactly this token. */
  predicate TokenAccepted(clients: map<Id, Client>, token: string, decoded: Option<Id>)
  {
    decoded.Some? && decoded.value in clients && clients[decoded.value].approvalToken == Some(token)
  }

  /** The activated account: the new password (hashed by the save hook), the
      account approved and the token cleared. */
  function Activated(c: Client, password: string, hash: string -> string): (r: Client)
    requires password != ""
    ensures r.isApproved && r.approvalToken.None? && r.password == Some(hash(password))
    ensures r == c.(isApproved := true, approvalToken := None, password := r.password)
  {
    PasswordHook(c.(password := Some(password), isApproved := true, approvalToken := None), true, hash)
  }

  /** An approval token works once: after activation the same token is
      refused. */
  lemma ActivationIsSingleUse(clients: map<Id, Client>, token: string, decoded: Option<Id>, password: string,
                              hash: string -> string)
    requires TokenAccepted(clients, token, decoded) && password != ""
    ensures !TokenAccepted(clients[decoded.value := Activated(clients[decoded.value], password, hash)], token, decoded)
  {
  }

  /** `POST /approve`: 400 for a password under 6 characters, a token that
      does not decode, or one that is not the client's stored token;
      otherwise the account is activated. `decoded` is what verifying the
      token's signature yields. */
  method ActivateAccount(db: Db, token: string, decoded: Option<Id>, password: string, hash: string -> string)
    returns (r: Response<Id>)
    requires db.Valid()
    modifies db
    ensures db.Valid()
    ensures old(db.Reconciled()) ==> db.Reconciled()
    ensures r.Fail? <==> |password| < 6 || !TokenAccepted(old(db.clients), token, decoded)
    ensures r.Fail? ==> r.code == 400 && unchanged(db)
    ensures r.Ok? ==>
      r.code == 200 && r.value == decoded.value
      && db.clients == old(db.clients)[r.value := Activated(old(db.clients)[r.value], password, hash)]
      && db.invoices == old(db.invoices) && db.users == old(db.users) && db.nextId == old(db.nextId)
      && db.paymentRequests == old(db.paymentRequests) && db.profileRequests == old(db.profileRequests)
      && db.signupRequests == old(db.signupRequests)
  {
    if |password| < 6 {
      return Fail(400, "Password must be at least 6 characters");
    }
    if decoded.None? {
      return Fail(400, "Invalid or expired token");
    }
    var cid := decoded.value;
    if cid !in db.clients || db.clients[cid].approvalToken != Some(token) {
      return Fail(400, "Invalid approval token");
    }
    var c := Activated(db.clients[cid], password, hash);
    ClientWriteKeepsClientsOk(db.clients, db.nextId, c);
    ClientFieldsKeepLedger(db.invoices, db.clients, c);
    db.Commit(db.invoices, db.clients[cid := c], db.users, db.paymentRequests, db.profileRequests,
              db.signupRequests, db.nextId);
    r := Ok(200, cid);
  }

  // ---------------------------------------------------------------------------
  // Login

  /** Candidate `c` holds this e-mail, approved, and its password matches. */
  predicate ApprovedMatch(c: Client, email: string, password: string, verify: (string, string) -> bool)
  {
    c.email == email && c.isApproved && ComparePassword(c, password, verify)
  }

  predicate UnapprovedMatch(c: Client, email: string, password: string, verify: (string, string) -> bool)
  {
    c.email == email && !c.isApproved && ComparePassword(c, password, verify)
  }

  /** The first approved match in the scan order, if any. */
  function FirstApprovedMatch(records: seq<Client>, email: string, password: string,
                              verify: (string, string) -> bool): Option<nat>
  {
    IndexWhere(records, (c: Client) => ApprovedMatch(c, email, password, verify))
  }

  /** `POST /login`: the clients with the lowercased e-mail are scanned newest
      first (`records` is the collection in that order); the first approved
      record whose password matches logs in. Without one, the answer is 403
      when some unapproved record matched and 400 otherwise. An e-mail that
      `isEmail` (the validator's check) refuses is a 400 before any scan. */
  method Login(records: seq<Client>, email: string, password: string, verify: (string, string) -> bool,
               isEmail: string -> bool)
    returns (r: Response<Id>)
    ensures !isEmail(email) ==> r.Fail? && r.code == 400
    ensures r.Ok? <==> isEmail(email) && FirstApprovedMatch(records, ToLower(email), password, verify).Some?
    ensures r.Ok? ==> r.code == 200 && r.value == records[FirstApprovedMatch(records, ToLower(email), password, verify).value].id
    ensures r.Fail? && r.code == 403 <==>
              r.Fail? && isEmail(email)
              && exists i :: 0 <= i < |records| && UnapprovedMatch(records[i], ToLower(email), password, verify)
    ensures r.Fail? ==> r.code in {400, 403}
  {
    if !isEmail(email) {
      return Fail(400, "Valid email is required");
    }
    var lower := ToLower(email);
    var found: Option<nat> := None;
    var matchedButUnapproved := false;
    var k := 0;
    while k < |records| && found.None?
      invariant 0 <= k <= |records|
      invariant found.None? ==> forall j :: 0 <= j < k ==> !ApprovedMatch(records[j], lower, password, verify)
      invariant found.Some? ==> found == FirstApprovedMatch(records, lower, password, verify)
      invariant found.None? ==>
        (matchedButUnapproved <==> exists j :: 0 <= j < k && UnapprovedMatch(records[j], lower, password, verify))
    {
      var c := records[k];
      if c.email == lower {
        var ok := ComparePassword(c, password, verify);
        if ok && c.isApproved {
          found := Some(k);
          FirstMatchIs(records, lower, password, verify, k);
        } else if ok && !c.isApproved {
          matchedButUnapproved := true;
        }
      }
      k := k + 1;
    }
    if found.Some? {
      return Ok(200, records[found.value].id);
    }
    if matchedButUnapproved {
      return Fail(403, "Your account is not activated yet. Please contact the business.");
    }
    r := Fail(400, "Invalid credentials");
  }

  lemma FirstMatchIs(records: seq<Client>, email: string, password: string, verify: (string, string) -> bool, k: nat)
    requires k < |records| && ApprovedMatch(records[k], email, password, verify)
    requires forall j :: 0 <= j < k ==> !ApprovedMatch(records[j], email, password, verify)
    ensures FirstApprovedMatch(records, email, password, verify) == Some(k)
  {
    var r := FirstApprovedMatch(records, email, password, verify);
    assert r.Some?;
  }

  // ---------------------------------------------------------------------------
  // Portal session and invoice list

  /** The `clientAuth` middleware: the session's client must exist and be
      approved. */
  predicate SessionOk(clients: map<Id, Client>, cid: Id)
  {
    cid in clients && clients[cid].isApproved
  }

  /** The ids of the client records of the same business with the same
      lowercased e-mail. */
  function PeerIds(clients: map<Id, Client>, c: Client): set<Id>
  {
    set id | id in clients && clients[id].userId == c.userId && clients[id].email == ToLower(c.email)
  }

  /** The peers, or the client's own id when there are none. */
  function VisibleClients(clients: map<Id, Client>, c: Client): set<Id>
  {
    var peers := PeerIds(clients, c);
    if peers == {} then {c.id} else peers
  }

  /** `GET /invoices` of the portal: the business's invoices for any of the
      visible client records, every status but `cancelled`. */
  function PortalInvoices(s: seq<Invoice>, clients: map<Id, Client>, c: Client): (r: seq<Invoice>)
    ensures forall x :: x in r ==>
      x in s && x.userId == c.userId && x.clientId in VisibleClients(clients, c) && x.status != Cancelled
    ensures forall i ::
      0 <= i < |s| && s[i].userId == c.userId && s[i].clientId in VisibleClients(clients, c) && s[i].status != Cancelled
      ==> s[i] in r
  {
    var visible := VisibleClients(clients, c);
    Filter(s, (x: Invoice) => x.userId == c.userId && x.clientId in visible && x.status != Cancelled)
  }

  /** A stored client always sees its own invoices that are not cancelled
      (its e-mail is stored lowercased, so it is one of its own peers). */
  lemma OwnInvoicesVisible(s: seq<Invoice>, clients: map<Id, Client>, c: Client, i: nat)
    requires c.id in clients && clients[c.id] == c && IsLower(c.email)
    requires i < |s| && s[i].clientId == c.id && s[i].userId == c.userId && s[i].status != Cancelled
    ensures s[i] in PortalInvoices(s, clients, c)
  {
    LowerIsFixed(c.email);
    assert c.id in PeerIds(clients, c);
  }

  // ---------------------------------------------------------------------------
  // Payment requests

  /** The body of a payment-request submission. */
  datatype RequestBody = RequestBody(amount: real, date: DateField, via: Option<string>,
                                     transactionId: Option<string>, notes: Option<string>)

  /** The validators: an amount of at least 0.01, a date that parses when
      given, and a method from the enum when given. */
  predicate RequestBodyValid(b: RequestBody)
  {
    b.amount >= 0.01 && !b.date.Unparsable? && (b.via.Some? ==> ParseMethod(b.via.value).Some?)
  }

  /** `req.body.method || 'cash'`. */
  function RequestMethod(via: Option<string>): (m: PaymentMethod)
    ensures via.Some? && ParseMethod(via.value).Some? ==> MethodName(m) == via.value
    ensures via.None? ==> m == Cash
  {
    if via.Some? && ParseMethod(via.value).Some? then ParseMethod(via.value).value else Cash
  }

  /** `Invoice.findOne({ _id, clientId })`: not scoped to a business. */
  function FindForClient(s: seq<Invoice>, id: Id, cid: Id): (r: Option<nat>)
    ensures r.Some? ==> r.value < |s| && s[r.value].id == id && s[r.value].clientId == cid
    ensures r.None? ==> forall i :: 0 <= i < |s| ==> s[i].id != id || s[i].clientId != cid
  {
    IndexWhere(s, (inv: Invoice) => inv.id == id && inv.clientId == cid)
  }

  /** The request a submission creates. */
  function SubmittedRequest(id: Id, inv: Invoice, cid: Id, b: RequestBody, now: Time): PaymentRequest
  {
    NewPaymentRequest(id, inv.id, inv.userId, cid, b.amount, DateOr(b.date, now), RequestMethod(b.via),
                      b.transactionId, b.notes)
  }

  /** Adding a pending request for a stored invoice, under a fresh id and
      for the invoice's own client, keeps the request collection's
      invariant and the coherence of requests and invoices. */
  lemma SubmitKeepsStore(s: seq<Invoice>, requests: map<Id, PaymentRequest>, top: nat, k: nat, pr: PaymentRequest)
    requires InvoicesOk(s, top) && PaymentRequestsOk(requests, top) && k < |s|
    requires pr.id == top && pr.invoiceId == s[k].id && pr.clientId == s[k].clientId && PaymentRequestValid(pr)
    ensures PaymentRequestsOk(requests[top := pr], top + 1)
    ensures RequestsCoherent(s, requests) ==> RequestsCoherent(s, requests[top := pr])
  {
    if RequestsCoherent(s, requests) {
      var m := requests[top := pr];
      forall p, i | p in m && 0 <= i < |s| && s[i].id == m[p].invoiceId
        ensures s[i].clientId == m[p].clientId
      {
        if p == top {
          assert i == k;
        }
      }
    }
  }

  /** `POST /invoices/:id/payment-request`: 401 without an approved session,
      400 for a body the validators refuse or an amount above the balance,
      404 for an invoice not carrying the client's id; otherwise one pending
      request is created and the invoice and ledger are left alone. */
  method SubmitPaymentRequest(db: Db, cid: Id, invoiceId: Id, b: RequestBody, now: Time) returns (r: Response<Id>)
    requires db.Valid()
    modifies db
    ensures db.Valid()
    ensures old(db.Reconciled()) ==> db.Reconciled()
    ensures r.Fail? ==> unchanged(db) && r.code in {400, 401, 404}
    ensures r.Fail? && r.code == 401 <==> !SessionOk(old(db.clients), cid)
    ensures r.Fail? && r.code == 404 <==>
              SessionOk(old(db.clients), cid) && RequestBodyValid(b) && FindForClient(old(db.invoices), invoiceId, cid).None?
    ensures r.Fail? && r.code == 400 <==>
              SessionOk(old(db.clients), cid)
              && (!RequestBodyValid(b)
                  || (FindForClient(old(db.invoices), invoiceId, cid).Some?
                      && b.amount > old(db.invoices)[FindForClient(old(db.invoices), invoiceId, cid).value].remainingAmount))
    ensures r.Ok? ==>
      FindForClient(old(db.invoices), invoiceId, cid).Some? &&
      var k := FindForClient(old(db.invoices), invoiceId, cid).value;
      r.code == 201 && r.value == old(db.nextId) && SessionOk(old(db.clients), cid) && RequestBodyValid(b)
      && b.amount <= old(db.invoices)[k].remainingAmount
      && db.paymentRequests == old(db.paymentRequests)[r.value := SubmittedRequest(r.value, old(db.invoices)[k], cid, b, now)]
      && db.invoices == old(db.invoices) && db.clients == old(db.clients) && db.nextId == old(db.nextId) + 1
      && db.users == old(db.users) && db.profileRequests == old(db.profileRequests)
      && db.signupRequests == old(db.signupRequests)
  {
    if !SessionOk(db.clients, cid) {
      return Fail(401, "Invalid client session");
    }
    if !RequestBodyValid(b) {
      return Fail(400, "Validation failed");
    }
    var found := FindForClient(db.invoices, invoiceId, cid);
    if found.None? {
      return Fail(404, "Invoice not found");
    }
    var k := found.value;
    var inv := db.invoices[k];
    if b.amount > inv.remainingAmount {
      return Fail(400, "Amount exceeds remaining balance");
    }
    var id := db.nextId;
    var pr := SubmittedRequest(id, inv, cid, b, now);
    SubmitKeepsStore(db.invoices, db.paymentRequests, id, k, pr);
    AllocatorGrows(db.invoices, db.clients, db.users, db.paymentRequests, db.profileRequests, db.signupRequests,
                   id, id + 1);
    db.Commit(db.invoices, db.clients, db.users, db.paymentRequests[id := pr], db.profileRequests,
              db.signupRequests, id + 1);
    r := Ok(201, id);
  }

  /** A request left `pending` with its review data. */
  function Reviewed(pr: PaymentRequest, status: RequestStatus, now: Time, uid: Id): (r: PaymentRequest)
    requires status != Pending
    ensures r.status == status && r.reviewedAt == Some(now) && r.reviewedBy == Some(uid)
    ensures r == pr.(status := r.status, reviewedAt := r.reviewedAt, reviewedBy := r.reviewedBy)
    ensures pr.amount >= 0.01 ==> PaymentRequestValid(r)
  {
    pr.(status := status, reviewedAt := Some(now), reviewedBy := Some(uid))
  }

  /** Reviewing a request keeps the request collection's invariant and its
      coherence with the invoices. */
  lemma ReviewKeepsStore(s: seq<Invoice>, requests: map<Id, PaymentRequest>, top: nat, pid: Id,
                         status: RequestStatus, now: Time, uid: Id)
    requires PaymentRequestsOk(requests, top) && pid in requests && status != Pending
    ensures PaymentRequestsOk(requests[pid := Reviewed(requests[pid], status, now, uid)], top)
    ensures RequestsCoherent(s, requests) ==> RequestsCoherent(s, requests[pid := Reviewed(requests[pid], status, now, uid)])
  {
  }

  /** The note on the applied payment. */
  function ApprovalNote(notes: Option<string>): (r: string)
    ensures notes.Some? && notes.value != "" ==> r == "Client submitted: " + notes.value
    ensures notes.None? || notes.value == "" ==> r == "Client-submitted payment approved"
  {
    if notes.Some? && notes.value != "" then "Client submitted: " + notes.value else "Client-submitted payment approved"
  }

  /** The payment an approval appends. The request's method always passes
      the enum check (the schema holds it to the enum), so it is kept, and
      its date is always set (the schema defaults it). */
  function ApprovalEntry(pr: PaymentRequest): Payment
  {
    Payment(pr.amount, pr.date, pr.paymentMethod, pr.transactionId, Some(ApprovalNote(pr.notes)))
  }

  /** Approving a request applies the same payment as recording it directly
      with the request's amount, date, method, transaction id and note. */
  lemma ApprovalIsDirectPayment(inv: Invoice, pr: PaymentRequest, now: Time)
    ensures var p := PaymentInput(pr.amount, Some(pr.date), Some(MethodName(pr.paymentMethod)),
                                  pr.transactionId, Some(ApprovalNote(pr.notes)));
      PaymentApplied(inv, ApprovalEntry(pr), now) == PaymentApplied(inv, PaymentEntry(p, now), now)
  {
    ParseMethodName(pr.paymentMethod);
  }

  /** The stored request of the caller's business under `pid`, if any. */
  predicate OwnRequest(requests: map<Id, PaymentRequest>, pid: Id, uid: Id)
  {
    pid in requests && requests[pid].businessUserId == uid
  }

  /** Approval keeps every invariant: the invoice takes the payment, the
      request's client (the invoice's client, by coherence) is credited, and
      the request is marked approved. */
  lemma ApproveKeepsStore(s: seq<Invoice>, clients: map<Id, Client>, requests: map<Id, PaymentRequest>,
                          top: nat, k: nat, pid: Id, now: Time, uid: Id)
    requires InvoicesOk(s, top) && ClientsOk(clients, top) && PaymentRequestsOk(requests, top)
    requires pid in requests && requests[pid].status == Pending && k < |s| && s[k].id == requests[pid].invoiceId
    ensures var pr := requests[pid];
      InvoicesOk(s[k := PaymentApplied(s[k], ApprovalEntry(pr), now)], top)
      && ClientsOk(CreditClient(clients, pr.clientId, pr.amount), top)
      && PaymentRequestsOk(requests[pid := Reviewed(pr, Approved, now, uid)], top)
    ensures var pr := requests[pid];
      Ledger(s, clients) && RequestsCoherent(s, requests) ==>
        Ledger(s[k := PaymentApplied(s[k], ApprovalEntry(pr), now)], CreditClient(clients, pr.clientId, pr.amount))
        && RequestsCoherent(s[k := PaymentApplied(s[k], ApprovalEntry(pr), now)],
                            requests[pid := Reviewed(pr, Approved, now, uid)])
  {
    var pr := requests[pid];
    var x := PaymentApplied(s[k], ApprovalEntry(pr), now);
    PaymentKeepsStore(s, clients, requests, top, k, ApprovalEntry(pr), now);
    if pr.clientId in clients {
      ClientWriteKeepsClientsOk(clients, top, Credit(clients[pr.clientId], pr.amount));
    }
    ReviewKeepsStore(s[k := x], requests, top, pid, Approved, now, uid);
    if Ledger(s, clients) && RequestsCoherent(s, requests) {
      assert pr.clientId == s[k].clientId;
    }
  }

  /** `POST /admin/payment-requests/:id/approve`: 404 for a request of
      another business or a missing invoice, 400 for a request no longer
      pending or an amount above the invoice's current balance; otherwise
      the payment is applied to the invoice and the ledger and the request
      is approved. */
  method ApprovePaymentRequest(db: Db, uid: Id, pid: Id, now: Time) returns (r: Response<Id>)
    requires db.Valid()
    modifies db
    ensures db.Valid()
    ensures old(db.Reconciled()) ==> db.Reconciled()
    ensures r.Fail? ==> unchanged(db) && r.code in {400, 404}
    ensures r.Fail? && r.code == 404 <==>
              !OwnRequest(old(db.paymentRequests), pid, uid)
              || (old(db.paymentRequests)[pid].status == Pending
                  && FindById(old(db.invoices), old(db.paymentRequests)[pid].invoiceId).None?)
    ensures r.Fail? && r.code == 400 <==>
              OwnRequest(old(db.paymentRequests), pid, uid)
              && (old(db.paymentRequests)[pid].status != Pending
                  || (FindById(old(db.invoices), old(db.paymentRequests)[pid].invoiceId).Some?
                      && old(db.paymentRequests)[pid].amount
                         > old(db.invoices)[FindById(old(db.invoices), old(db.paymentRequests)[pid].invoiceId).value].remainingAmount))
    ensures r.Ok? ==>
      OwnRequest(old(db.paymentRequests), pid, uid) &&
      var pr := old(db.paymentRequests)[pid];
      FindById(old(db.invoices), pr.invoiceId).Some? &&
      var k := FindById(old(db.invoices), pr.invoiceId).value;
      r.code == 200 && r.value == pid && OwnRequest(old(db.paymentRequests), pid, uid) && pr.status == Pending
      && pr.amount <= old(db.invoices)[k].remainingAmount
      && db.invoices == old(db.invoices)[k := PaymentApplied(old(db.invoices)[k], ApprovalEntry(pr), now)]
      && db.clients == CreditClient(old(db.clients), pr.clientId, pr.amount)
      && db.paymentRequests == old(db.paymentRequests)[pid := Reviewed(pr, Approved, now, uid)]
      && db.users == old(db.users) && db.nextId == old(db.nextId)
      && db.profileRequests == old(db.profileRequests) && db.signupRequests == old(db.signupRequests)
  {
    if !OwnRequest(db.paymentRequests, pid, uid) {
      return Fail(404, "Payment request not found");
    }
    var pr := db.paymentRequests[pid];
    if pr.status != Pending {
      return Fail(400, "Request is not pending");
    }
    var found := FindById(db.invoices, pr.invoiceId);
    if found.None? {
      return Fail(404, "Invoice not found");
    }
    var k := found.value;
    var inv := db.invoices[k];
    if pr.amount > inv.remainingAmount {
      return Fail(400, "Amount exceeds remaining balance");
    }
    var x := SavePayment(inv, ApprovalEntry(pr), now);
    var clients := CreditClient(db.clients, pr.clientId, pr.amount);
    var requests := db.paymentRequests[pid := Reviewed(pr, Approved, now, uid)];
    ApproveKeepsStore(db.invoices, db.clients, db.paymentRequests, db.nextId, k, pid, now, uid);
    db.Commit(db.invoices[k := x], clients, db.users, requests, db.profileRequests, db.signupRequests, db.nextId);
    r := Ok(200, pid);
  }

  /** `POST /admin/payment-requests/:id/reject`: 404 for a request of another
      business, 400 for one no longer pending; otherwise only the request
      changes, to `rejected` with its review data. */
  method RejectPaymentRequest(db: Db, uid: Id, pid: Id, now: Time) returns (r: Response<Id>)
    requires db.Valid()
    modifies db
    ensures db.Valid()
    ensures old(db.Reconciled()) ==> db.Reconciled()
    ensures r.Fail? ==> unchanged(db)
    ensures r.Fail? && r.code == 404 <==> !OwnRequest(old(db.paymentRequests), pid, uid)
    ensures r.Fail? && r.code == 400 <==>
              OwnRequest(old(db.paymentRequests), pid, uid) && old(db.paymentRequests)[pid].status != Pending
    ensures r.Fail? ==> r.code in {400, 404}
    ensures r.Ok? ==>
      r.code == 200 && r.value == pid
      && db.paymentRequests == old(db.paymentRequests)[pid := Reviewed(old(db.paymentRequests)[pid], Rejected, now, uid)]
      && db.invoices == old(db.invoices) && db.clients == old(db.clients)
      && db.users == old(db.users) && db.nextId == old(db.nextId)
      && db.profileRequests == old(db.profileRequests) && db.signupRequests == old(db.signupRequests)
  {
    if !OwnRequest(db.paymentRequests, pid, uid) {
      return Fail(404, "Payment request not found");
    }
    var pr := db.paymentRequests[pid];
    if pr.status != Pending {
      return Fail(400, "Request is not pending");
    }
    ReviewKeepsStore(db.invoices, db.paymentRequests, db.nextId, pid, Rejected, now, uid);
    db.Commit(db.invoices, db.clients, db.users, db.paymentRequests[pid := Reviewed(pr, Rejected, now, uid)],
              db.profileRequests, db.signupRequests, db.nextId);
    r := Ok(200, pid);
  }
}
