/** The business's client routes (backend/routes/clients.js): the lookup
    across signups and clients, create (or revive), update, archive,
    statistics and the removal of portal credentials. */
module ClientRoutes {
  import opened Common
  import opened InvoiceModel
  import opened Records
  import opened Database
  import opened InvoiceLifecycle

  // ---------------------------------------------------------------------------
  // Tax identifiers

  predicate TaxChar(c: char)
  {
    '0' <= c <= '9' || 'A' <= c <= 'Z'
  }

  /** `/^[0-9A-Z]{15}$/`. */
  predicate IsGstin(t: string)
  {
    |t| == 15 && forall i :: 0 <= i < |t| ==> TaxChar(t[i])
  }

  predicate NoLowerLetter(s: string)
  {
    forall i :: 0 <= i < |s| ==> !('a' <= s[i] <= 'z')
  }

  /** `normalizeTax`: white space removed, ASCII letters upper-cased. */
  function NormalizeTax(s: string): string
  {
    ToUpper(RemoveSpaces(s))
  }

  /** Under the ASCII case map: the normal form has no white space and no
      lowercase letter, is never longer than the input, and normalising it
      again changes nothing. */
  lemma NormalizeTaxIsNormal(s: string)
    ensures var t := NormalizeTax(s);
      NoSpace(t) && NoLowerLetter(t) && |t| <= |s| && NormalizeTax(t) == t
  {
    var r := RemoveSpaces(s);
    var t := ToUpper(r);
    forall i | 0 <= i < |t| ensures !IsSpace(t[i]) && !('a' <= t[i] <= 'z') {
      assert t[i] == UpperChar(r[i]);
    }
    RemoveSpacesKeepsSpaceless(t);
  }

  /** Under the ASCII case map, spaces and letter case do not matter: a tax
      id typed with spaces or in lowercase normalises to the same value as
      its compact uppercase form. */
  lemma NormalizeTaxIgnoresCase(s: string)
    ensures NormalizeTax(ToLower(s)) == NormalizeTax(ToUpper(s)) == NormalizeTax(s)
  {
    UpperLowerSpaces(s);
  }

  lemma {:induction false} UpperLowerSpaces(s: string)
    ensures ToUpper(RemoveSpaces(ToLower(s))) == ToUpper(RemoveSpaces(s))
    ensures ToUpper(RemoveSpaces(ToUpper(s))) == ToUpper(RemoveSpaces(s))
  {
    if s != [] {
      var n := |s| - 1;
      UpperLowerSpaces(s[..n]);
      assert ToLower(s)[..n] == ToLower(s[..n]);
      assert ToUpper(s)[..n] == ToUpper(s[..n]);
      var c := s[n];
      assert IsSpace(LowerChar(c)) <==> IsSpace(c);
      assert IsSpace(UpperChar(c)) <==> IsSpace(c);
      ToUpperAppend(RemoveSpaces(s[..n]), c);
      ToUpperAppend(RemoveSpaces(ToLower(s[..n])), LowerChar(c));
      ToUpperAppend(RemoveSpaces(ToUpper(s[..n])), UpperChar(c));
    }
  }

  lemma ToUpperAppend(s: string, c: char)
    ensures ToUpper(s + [c]) == ToUpper(s) + [UpperChar(c)]
  {
  }

  /** A tax id is in use when a business user or any client, of any
      business, carries it. */
  predicate TaxInUse(users: map<Id, User>, clients: map<Id, Client>, t: string)
  {
    (exists u :: u in users && users[u].taxId == Some(t))
    || (exists c :: c in clients && clients[c].taxId == Some(t))
  }

  datatype TaxCheck = NoTaxId | TaxId(value: string) | TaxRejected(message: string)

  /** The create route's tax step: nothing to do for a missing or empty tax
      id; otherwise its normal form, which must be a GSTIN nobody uses. */
  function CheckTax(given: Option<string>, users: map<Id, User>, clients: map<Id, Client>): (r: TaxCheck)
    ensures r.NoTaxId? <==> given.None? || given.value == ""
    ensures r.TaxId? ==> given.Some? && r.value == NormalizeTax(given.value)
                         && IsGstin(r.value) && !TaxInUse(users, clients, r.value)
    ensures r.TaxRejected? <==>
      given.Some? && given.value != ""
      && (!IsGstin(NormalizeTax(given.value)) || TaxInUse(users, clients, NormalizeTax(given.value)))
  {
    if given.None? || given.value == "" then NoTaxId
    else
      var t := NormalizeTax(given.value);
      if !IsGstin(t) then TaxRejected("GST / Tax ID must be 15 alphanumeric characters")
      else if TaxInUse(users, clients, t) then TaxRejected("GST / Tax ID already in use by another account")
      else TaxId(t)
  }

  /** The tax id a client created by the route carries, if any. */
  function TaxOf(t: TaxCheck): Option<string>
  {
    if t.TaxId? then Some(t.value) else None
  }

  // ---------------------------------------------------------------------------
  // Request bodies and their effect on a client

  /** The fields of a create or update body (`status`, `notes` and
      `preferredPaymentMethod` are read by the update route only). */
  datatype ClientBody = ClientBody(
    name: Option<string>, email: Option<string>, phone: Option<string>, company: Option<string>,
    address: Option<Address>, paymentTerms: Option<string>, status: Option<string>,
    notes: Option<string>, preferredPaymentMethod: Option<string>, taxId: Option<string>,
    createCredentials: bool, clientPassword: Option<string>)

  /** The create route's validators: a name that is not blank once trimmed
      and an address that `isEmail` (express-validator) accepts. */
  predicate CreateBodyOk(b: ClientBody, isEmail: string -> bool)
  {
    b.name.Some? && Trim(b.name.value) != "" && b.email.Some? && isEmail(b.email.value)
  }

  /** The update route's validators, on the fields that are present. */
  predicate UpdateBodyOk(b: ClientBody, isEmail: string -> bool)
  {
    (b.name.Some? ==> Trim(b.name.value) != "") && (b.email.Some? ==> isEmail(b.email.value))
  }

  /** `name`, `phone` and `company` from the body when given, trimmed. */
  function Contact(c: Client, b: ClientBody): Client
  {
    WithContact(c, b.name, b.phone, b.company)
  }

  /** `address` and `paymentTerms` from the body when given. */
  function Terms(c: Client, b: ClientBody): Client
  {
    WithTerms(c, b.address, b.paymentTerms)
  }

  /** `createCredentials`: the owner's password, or the generated one
      (`Math.random().toString(36).slice(-8)`, a parameter here), and
      approval. */
  function Granted(c: Client, b: ClientBody, generated: string): Client
  {
    if b.createCredentials then WithAccess(c, TextOr(b.clientPassword, generated)) else c
  }

  function Owned(clients: map<Id, Client>, cid: Id, uid: Id): bool
  {
    cid in clients && clients[cid].userId == uid
  }

  /** The stored client of business `uid` with address `email`, lowest id
      first (`findOne`). */
  function SameEmail(clients: map<Id, Client>, uid: Id, email: string, top: nat): (r: Option<Id>)
    ensures r.Some? ==> r.value in clients && clients[r.value].userId == uid && clients[r.value].email == email
    ensures r.None? ==> forall id :: id in clients && id < top ==> !(clients[id].userId == uid && clients[id].email == email)
  {
    FindOne(clients, (c: Client) => c.userId == uid && c.email == email, 0, top)
  }

  // ---------------------------------------------------------------------------
  // POST / — create, or revive a client with the same address

  /** An existing client revived by the create route: the given contact
      details and terms replace the stored ones, it is active again and, on
      request, gets portal access; its identity, address, tax id and ledger
      stay as they were. */
  function Revived(c: Client, b: ClientBody, generated: string): (r: Client)
    ensures r.id == c.id && r.userId == c.userId && r.email == c.email && r.taxId == c.taxId
    ensures r.status == Active && r.approvalToken == c.approvalToken
    ensures r.totalInvoiced == c.totalInvoiced && r.totalPaid == c.totalPaid
    ensures r.totalOutstanding == c.totalOutstanding
    ensures b.createCredentials ==> r.isApproved && r.password == Some(TextOr(b.clientPassword, generated))
    ensures !b.createCredentials ==> r.isApproved == c.isApproved && r.password == c.password
  {
    Granted(Terms(Contact(c, b), b).(status := Active), b, generated)
  }

  /** A client created by the route: the body's fields through the schema
      setters and defaults, the checked tax id, and portal access on request. */
  function Fresh(id: Id, uid: Id, b: ClientBody, tax: Option<string>, generated: string): (r: Client)
    requires b.name.Some? && b.email.Some?
    ensures r.id == id && r.userId == uid && r.email == ToLower(b.email.value) && r.taxId == tax
    ensures r.name == Trim(b.name.value) && r.status == Active && r.approvalToken.None?
    ensures r.isApproved == b.createCredentials && (r.password.Some? <==> b.createCredentials)
    ensures r.totalInvoiced == 0.0 && r.totalPaid == 0.0 && r.totalOutstanding == 0.0
  {
    ToLowerIsLower(b.email.value);
    Granted(NewClient(id, uid, b.name.value, ToLower(b.email.value), b.phone, b.company, b.address)
              .(paymentTerms := Given(b.paymentTerms, "Net 30"), taxId := tax), b, generated)
  }

  /** Reviving keeps every client of the store valid and the ledger whole. */
  lemma ReviveKeepsStore(clients: map<Id, Client>, s: seq<Invoice>, top: nat, cid: Id, x: Client)
    requires ClientsOk(clients, top) && cid in clients && ClientSchemaValid(x)
    requires x.id == cid && x.userId == clients[cid].userId
    requires x.totalInvoiced == clients[cid].totalInvoiced && x.totalOutstanding == clients[cid].totalOutstanding
    ensures ClientsOk(clients[cid := x], top)
    ensures Ledger(s, clients) ==> Ledger(s, clients[cid := x])
  {
    ClientWriteKeepsClientsOk(clients, top, x);
    ClientFieldsKeepLedger(s, clients, x);
  }

  /** Loads the client, applies the revival and saves it. */
  method SaveRevival(c: Client, b: ClientBody, hash: string -> string, generated: string)
    returns (saved: Option<Client>)
    ensures saved == Persisted(Revived(c, b, generated), b.createCredentials, hash)
  {
    var doc := new ClientDocument(c, false);
    doc.ApplyContact(b.name, b.phone, b.company);
    doc.ApplyTerms(b.address, b.paymentTerms);
    doc.SetStatus(Active);
    if b.createCredentials {
      doc.Grant(TextOr(b.clientPassword, generated));
    }
    assert doc.Record() == Revived(c, b, generated);
    var valid := doc.Save(hash);
    saved := if valid then Some(doc.Record()) else None;
  }

  /** The revival branch of `POST /`: lines 144-155. */
  method ReviveClient(db: Db, cid: Id, b: ClientBody, hash: string -> string, generated: string)
    returns (r: Response<Id>)
    requires db.Valid() && cid in db.clients
    modifies db
    ensures db.Valid()
    ensures old(db.Reconciled()) ==> db.Reconciled()
    ensures var saved := Persisted(Revived(old(db.clients)[cid], b, generated), b.createCredentials, hash);
      (saved.None? ==> r.Fail? && r.code == 500 && unchanged(db))
      && (saved.Some? ==> r == Ok(200, cid) && db.clients == old(db.clients)[cid := saved.value])
    ensures db.nextId == old(db.nextId)
    ensures db.invoices == old(db.invoices) && db.users == old(db.users)
    ensures db.paymentRequests == old(db.paymentRequests) && db.profileRequests == old(db.profileRequests)
    ensures db.signupRequests == old(db.signupRequests)
  {
    var saved := SaveRevival(db.clients[cid], b, hash, generated);
    if saved.None? {
      return Fail(500, "Server error");
    }
    WriteClient(db, saved.value);
    r := Ok(200, cid);
  }

  /** A new client keeps every collection valid under the raised allocator,
      and with an empty ledger it keeps the ledger whole. */
  lemma InsertKeepsStore(db: Db, x: Client)
    requires db.Valid() && x.id == db.nextId && ClientSchemaValid(x)
    requires x.totalInvoiced == 0.0 && x.totalOutstanding == 0.0
    ensures ClientsOk(db.clients[x.id := x], db.nextId + 1)
    ensures InvoicesOk(db.invoices, db.nextId + 1) && UsersOk(db.users, db.nextId + 1)
    ensures PaymentRequestsOk(db.paymentRequests, db.nextId + 1)
    ensures ProfileRequestsOk(db.profileRequests, db.nextId + 1)
    ensures SignupRequestsOk(db.signupRequests, db.nextId + 1)
    ensures db.Reconciled() ==> Ledger(db.invoices, db.clients[x.id := x])
  {
    AllocatorGrows(db.invoices, db.clients, db.users, db.paymentRequests, db.profileRequests,
                   db.signupRequests, db.nextId, db.nextId + 1);
    if db.Reconciled() {
      NewClientKeepsLedger(db.invoices, db.clients, x);
    }
  }

  /** The new-client branch of `POST /` after the tax check: lines 158-194. */
  method InsertClient(db: Db, uid: Id, b: ClientBody, tax: Option<string>, hash: string -> string,
                      generated: string) returns (r: Response<Id>)
    requires db.Valid() && b.name.Some? && b.email.Some?
    modifies db
    ensures db.Valid()
    ensures old(db.Reconciled()) ==> db.Reconciled()
    ensures var saved := Persisted(Fresh(old(db.nextId), uid, b, tax, generated), true, hash);
      (saved.None? ==> r.Fail? && r.code == 500 && unchanged(db))
      && (saved.Some? ==> r == Ok(201, old(db.nextId)) && db.nextId == old(db.nextId) + 1
                          && db.clients == old(db.clients)[old(db.nextId) := saved.value])
    ensures db.invoices == old(db.invoices) && db.users == old(db.users)
    ensures db.paymentRequests == old(db.paymentRequests) && db.profileRequests == old(db.profileRequests)
    ensures db.signupRequests == old(db.signupRequests)
  {
    var id := db.nextId;
    var doc := new ClientDocument(Fresh(id, uid, b.(createCredentials := false), tax, generated), true);
    if b.createCredentials {
      doc.Grant(TextOr(b.clientPassword, generated));
    }
    ghost var before := doc.Record();
    assert before == Fresh(id, uid, b, tax, generated);
    var valid := doc.Save(hash);
    if !valid {
      return Fail(500, "Server error");
    }
    var x := doc.Record();
    InsertKeepsStore(db, x);
    db.Commit(db.invoices, db.clients[id := x], db.users, db.paymentRequests,
              db.profileRequests, db.signupRequests, id + 1);
    r := Ok(201, id);
  }

  /** `POST /`: 400 on the validators; a client of the business with the
      same lowercased address is revived (200); otherwise the tax id is
      checked (400) and a new client is created (201). A save the client
      schema refuses is a 500. The duplicate-key branch (11000) cannot
      fire: the client collection has no unique index. */
  method CreateClient(db: Db, uid: Id, b: ClientBody, isEmail: string -> bool, hash: string -> string,
                      generated: string) returns (r: Response<Id>)
    requires db.Valid()
    modifies db
    ensures db.Valid()
    ensures old(db.Reconciled()) ==> db.Reconciled()
    ensures r.Fail? ==> unchanged(db) && r.code in {400, 500}
    ensures !CreateBodyOk(b, isEmail) ==> r.Fail? && r.code == 400
    ensures r.Ok? && r.code == 200 ==>
      CreateBodyOk(b, isEmail) && SameEmail(old(db.clients), uid, ToLower(b.email.value), old(db.nextId)) == Some(r.value)
      && Persisted(Revived(old(db.clients)[r.value], b, generated), b.createCredentials, hash).Some?
      && db.clients == old(db.clients)[r.value :=
           Persisted(Revived(old(db.clients)[r.value], b, generated), b.createCredentials, hash).value]
      && db.nextId == old(db.nextId)
    ensures r.Ok? && r.code != 200 ==>
      r.code == 201 && CreateBodyOk(b, isEmail)
      && SameEmail(old(db.clients), uid, ToLower(b.email.value), old(db.nextId)).None?
      && !CheckTax(b.taxId, old(db.users), old(db.clients)).TaxRejected?
      && r.value == old(db.nextId) && db.nextId == old(db.nextId) + 1
      && var tax := TaxOf(CheckTax(b.taxId, old(db.users), old(db.clients)));
      Persisted(Fresh(r.value, uid, b, tax, generated), true, hash).Some?
      && db.clients == old(db.clients)[r.value := Persisted(Fresh(r.value, uid, b, tax, generated), true, hash).value]
    ensures r.Fail? && r.code == 400 <==>
      !CreateBodyOk(b, isEmail)
      || (SameEmail(old(db.clients), uid, ToLower(b.email.value), old(db.nextId)).None?
          && CheckTax(b.taxId, old(db.users), old(db.clients)).TaxRejected?)
    ensures r.Fail? && r.code == 500 <==>
      CreateBodyOk(b, isEmail) &&
      var same := SameEmail(old(db.clients), uid, ToLower(b.email.value), old(db.nextId));
      (same.Some? && Persisted(Revived(old(db.clients)[same.value], b, generated), b.createCredentials, hash).None?)
      || (same.None? && !CheckTax(b.taxId, old(db.users), old(db.clients)).TaxRejected?
          && Persisted(Fresh(old(db.nextId), uid, b, TaxOf(CheckTax(b.taxId, old(db.users), old(db.clients))),
                             generated), true, hash).None?)
    ensures db.invoices == old(db.invoices) && db.users == old(db.users)
    ensures db.paymentRequests == old(db.paymentRequests) && db.profileRequests == old(db.profileRequests)
    ensures db.signupRequests == old(db.signupRequests)
  {
    if !CreateBodyOk(b, isEmail) {
      return Fail(400, "Client name is required / Please enter a valid email");
    }
    var existing := SameEmail(db.clients, uid, ToLower(b.email.value), db.nextId);
    if existing.Some? {
      r := ReviveClient(db, existing.value, b, hash, generated);
      return;
    }
    var tax := CheckTax(b.taxId, db.users, db.clients);
    if tax.TaxRejected? {
      return Fail(400, tax.message);
    }
    r := InsertClient(db, uid, b, TaxOf(tax), hash, generated);
  }

  /** Archiving a client and adding it again finds the archived record:
      the route revives it instead of creating a second one. */
  lemma ArchivedIsRevived(clients: map<Id, Client>, top: nat, cid: Id, b: ClientBody, generated: string)
    requires cid in clients && cid < top && clients[cid].status == Inactive
    ensures var found := SameEmail(clients, clients[cid].userId, clients[cid].email, top);
      found.Some? && Revived(clients[found.value], b, generated).status == Active
  {
  }

  // ---------------------------------------------------------------------------
  // PUT /:id

  function ParseClientStatus(s: string): (r: Option<ClientStatus>)
    ensures r.Some? <==> s == "active" || s == "inactive"
    ensures r == Some(Active) <==> s == "active"
  {
    if s == "active" then Some(Active) else if s == "inactive" then Some(Inactive) else None
  }

  /** The enum fields the body gives hold values of their enums (otherwise
      the save fails validation). */
  predicate EnumsOk(b: ClientBody)
  {
    (b.status.Some? ==> ParseClientStatus(b.status.value).Some?)
    && (b.preferredPaymentMethod.Some? ==> ParseMethod(b.preferredPaymentMethod.value).Some?)
  }

  function GivenStatus(b: ClientBody): Option<ClientStatus>
  {
    if b.status.Some? then ParseClientStatus(b.status.value) else None
  }

  function GivenMethod(b: ClientBody): Option<PaymentMethod>
  {
    if b.preferredPaymentMethod.Some? then ParseMethod(b.preferredPaymentMethod.value) else None
  }

  /** The allow-listed fields copied from the body (lines 232-235). */
  function Edited(c: Client, b: ClientBody): Client
  {
    var x := WithEmail(Contact(c, b), b.email);
    WithPreferences(Terms(x, b).(status := Given(GivenStatus(b), c.status)), b.notes, GivenMethod(b), b.taxId)
  }

  /** The client the update route saves: the copied fields and, on request,
      portal access with the client active again; nothing when an enum field
      holds a value outside its enum. The tax id is stored as given: the
      route copies it before its normalise-and-check step, which therefore
      never sees a changed value. */
  function Patched(c: Client, b: ClientBody, generated: string): (r: Option<Client>)
    ensures r.Some? <==> EnumsOk(b)
    ensures r.Some? ==>
      r.value.id == c.id && r.value.userId == c.userId && r.value.approvalToken == c.approvalToken
      && r.value.totalInvoiced == c.totalInvoiced && r.value.totalPaid == c.totalPaid
      && r.value.totalOutstanding == c.totalOutstanding
      && r.value.taxId == (if b.taxId.Some? then b.taxId else c.taxId)
      && (b.email.Some? ==> r.value.email == ToLower(b.email.value))
      && (b.createCredentials ==> r.value.status == Active && r.value.isApproved)
      && (!b.createCredentials ==> r.value.isApproved == c.isApproved && r.value.password == c.password)
  {
    if !EnumsOk(b) then None
    else if b.createCredentials then Some(Granted(Edited(c, b), b, generated).(status := Active))
    else Some(Edited(c, b))
  }

  /** What the update route writes: nothing when an enum field or the
      schema refuses the patched client. */
  function UpdateSaved(c: Client, b: ClientBody, generated: string, hash: string -> string): (r: Option<Client>)
    ensures r.Some? <==> EnumsOk(b) && ClientSchemaValid(Patched(c, b, generated).value)
  {
    if EnumsOk(b) then Persisted(Patched(c, b, generated).value, b.createCredentials, hash) else None
  }

  /** The update route skips the tax-id format check: a tax id that is no
      GSTIN is stored as it was sent. */
  lemma UpdateSkipsTaxCheck(c: Client, generated: string)
    ensures var b := ClientBody(None, None, None, None, None, None, None, None, None, Some("gst 1"), false, None);
      Patched(c, b, generated) == Some(c.(taxId := Some("gst 1"))) && !IsGstin("gst 1")
  {
    var b := ClientBody(None, None, None, None, None, None, None, None, None, Some("gst 1"), false, None);
    assert Edited(c, b) == c.(taxId := Some("gst 1"));
  }

  /** Sending the same update twice leaves the client as the first one did. */
  lemma PatchIdempotent(c: Client, b: ClientBody, generated: string)
    requires EnumsOk(b)
    ensures Patched(Patched(c, b, generated).value, b, generated) == Patched(c, b, generated)
  {
    var e := Edited(c, b);
    if b.createCredentials {
      var x := WithAccess(e, TextOr(b.clientPassword, generated)).(status := Active);
      assert Edited(x, b) == WithAccess(e, TextOr(b.clientPassword, generated)).(status := Given(GivenStatus(b), Active));
    } else {
      assert Edited(e, b) == e;
    }
  }

  /** Another client of the business already has the new address. */
  predicate EmailClash(clients: map<Id, Client>, uid: Id, cid: Id, b: ClientBody, top: nat)
  {
    cid in clients && b.email.Some? && ToLower(b.email.value) != clients[cid].email
    && FindOne(clients, (x: Client) => x.userId == uid && x.email == ToLower(b.email.value) && x.id != cid,
                   0, top).Some?
  }

  /** `PUT /:id`: 400 on the validators, 404 for a client of another
      business, 400 when the new address belongs to another client of the
      business, 500 when the save fails validation; otherwise the patched
      client is written. */
  method UpdateClient(db: Db, uid: Id, cid: Id, b: ClientBody, isEmail: string -> bool,
                      hash: string -> string, generated: string) returns (r: Response<Id>)
    requires db.Valid()
    modifies db
    ensures db.Valid()
    ensures old(db.Reconciled()) ==> db.Reconciled()
    ensures r.Fail? ==> unchanged(db) && r.code in {400, 404, 500}
    ensures !UpdateBodyOk(b, isEmail) ==> r.Fail? && r.code == 400
    ensures UpdateBodyOk(b, isEmail) && !Owned(old(db.clients), cid, uid) ==> r.Fail? && r.code == 404
    ensures UpdateBodyOk(b, isEmail) && Owned(old(db.clients), cid, uid)
            && EmailClash(old(db.clients), uid, cid, b, old(db.nextId)) ==>
      r.Fail? && r.code == 400
    ensures UpdateBodyOk(b, isEmail) && Owned(old(db.clients), cid, uid)
            && !EmailClash(old(db.clients), uid, cid, b, old(db.nextId)) ==>
      var saved := UpdateSaved(old(db.clients)[cid], b, generated, hash);
      (saved.None? ==> r.Fail? && r.code == 500)
      && (saved.Some? ==> r == Ok(200, cid) && db.clients == old(db.clients)[cid := saved.value])
    ensures db.nextId == old(db.nextId)
    ensures db.invoices == old(db.invoices) && db.users == old(db.users)
    ensures db.paymentRequests == old(db.paymentRequests) && db.profileRequests == old(db.profileRequests)
    ensures db.signupRequests == old(db.signupRequests)
  {
    if !UpdateBodyOk(b, isEmail) {
      return Fail(400, "Client name cannot be empty / Please enter a valid email");
    }
    if !Owned(db.clients, cid, uid) {
      return Fail(404, "Client not found");
    }
    if EmailClash(db.clients, uid, cid, b, db.nextId) {
      return Fail(400, "Client with this email already exists");
    }
    if !EnumsOk(b) {
      return Fail(500, "Server error");
    }
    var saved := SavePatch(db.clients[cid], b, hash, generated);
    if saved.None? {
      return Fail(500, "Server error");
    }
    WriteClient(db, saved.value);
    r := Ok(200, cid);
  }

  /** Loads the client, copies the body into it and saves it. */
  method SavePatch(c: Client, b: ClientBody, hash: string -> string, generated: string)
    returns (saved: Option<Client>)
    requires EnumsOk(b)
    ensures saved == UpdateSaved(c, b, generated, hash)
  {
    var doc := new ClientDocument(c, false);
    doc.ApplyContact(b.name, b.phone, b.company);
    doc.ApplyEmail(b.email);
    doc.ApplyTerms(b.address, b.paymentTerms);
    doc.SetStatus(Given(GivenStatus(b), c.status));
    doc.ApplyPreferences(b.notes, GivenMethod(b), b.taxId);
    assert doc.Record() == Edited(c, b);
    if b.createCredentials {
      doc.Grant(TextOr(b.clientPassword, generated));
      doc.SetStatus(Active);
    }
    assert doc.Record() == Patched(c, b, generated).value;
    var valid := doc.Save(hash);
    saved := if valid then Some(doc.Record()) else None;
  }

  /** Writes back a client that keeps its id, business and ledger totals. */
  method WriteClient(db: Db, x: Client)
    requires db.Valid() && x.id in db.clients && ClientSchemaValid(x)
    requires x.userId == db.clients[x.id].userId
    requires x.totalInvoiced == db.clients[x.id].totalInvoiced
    requires x.totalOutstanding == db.clients[x.id].totalOutstanding
    modifies db
    ensures db.Valid()
    ensures old(db.Reconciled()) ==> db.Reconciled()
    ensures db.clients == old(db.clients)[x.id := x] && db.nextId == old(db.nextId)
    ensures db.invoices == old(db.invoices) && db.users == old(db.users)
    ensures db.paymentRequests == old(db.paymentRequests) && db.profileRequests == old(db.profileRequests)
    ensures db.signupRequests == old(db.signupRequests)
  {
    ReviveKeepsStore(db.clients, db.invoices, db.nextId, x.id, x);
    db.Commit(db.invoices, db.clients[x.id := x], db.users, db.paymentRequests,
              db.profileRequests, db.signupRequests, db.nextId);
  }

  // ---------------------------------------------------------------------------
  // DELETE /:id and DELETE /:id/credentials

  /** The soft delete: inactive and without portal access, everything else
      (address, ledger) kept so that the client can be added again. */
  function Archived(c: Client): (r: Client)
    ensures r.status == Inactive && r.password.None? && !r.isApproved && r.approvalToken.None?
    ensures r == Revoked(c).(status := Inactive)
  {
    Revoked(c.(status := Inactive))
  }

  /** Neither edit can fail the schema, and the password hook leaves both
      alone. */
  lemma RevokedStaysValid(c: Client, hash: string -> string)
    requires ClientSchemaValid(c)
    ensures Persisted(Revoked(c), true, hash) == Some(Revoked(c))
    ensures Persisted(Archived(c), true, hash) == Some(Archived(c))
  {
  }

  /** An archived or revoked client cannot sign in to the portal any more. */
  lemma RevokedCannotSignIn(c: Client, candidate: string, verify: (string, string) -> bool)
    ensures !ComparePassword(Revoked(c), candidate, verify)
    ensures !ComparePassword(Archived(c), candidate, verify)
  {
  }

  /** Loads the client, takes its access away (and archives it) and saves
      it: the save cannot fail. */
  method SaveRevocation(c: Client, archive: bool, hash: string -> string) returns (x: Client)
    requires ClientSchemaValid(c)
    ensures x == if archive then Archived(c) else Revoked(c)
  {
    var doc := new ClientDocument(c, false);
    if archive {
      doc.SetStatus(Inactive);
    }
    doc.Revoke();
    RevokedStaysValid(c, hash);
    var valid := doc.Save(hash);
    assert valid;
    x := doc.Record();
  }

  /** `DELETE /:id`: 404 for a client of another business; otherwise the
      client is archived. */
  method ArchiveClient(db: Db, uid: Id, cid: Id, hash: string -> string) returns (r: Response<Id>)
    requires db.Valid()
    modifies db
    ensures db.Valid()
    ensures old(db.Reconciled()) ==> db.Reconciled()
    ensures r.Fail? <==> !Owned(old(db.clients), cid, uid)
    ensures r.Fail? ==> r.code == 404 && unchanged(db)
    ensures r.Ok? ==> r == Ok(200, cid) && db.clients == old(db.clients)[cid := Archived(old(db.clients)[cid])]
    ensures db.invoices == old(db.invoices) && db.users == old(db.users) && db.nextId == old(db.nextId)
    ensures db.paymentRequests == old(db.paymentRequests) && db.profileRequests == old(db.profileRequests)
    ensures db.signupRequests == old(db.signupRequests)
  {
    if !Owned(db.clients, cid, uid) {
      return Fail(404, "Client not found");
    }
    var x := SaveRevocation(db.clients[cid], true, hash);
    WriteClient(db, x);
    r := Ok(200, cid);
  }

  /** `DELETE /:id/credentials`: 404 for a client of another business;
      otherwise the portal access is removed and the status kept. */
  method RemoveCredentials(db: Db, uid: Id, cid: Id, hash: string -> string) returns (r: Response<Id>)
    requires db.Valid()
    modifies db
    ensures db.Valid()
    ensures old(db.Reconciled()) ==> db.Reconciled()
    ensures r.Fail? <==> !Owned(old(db.clients), cid, uid)
    ensures r.Fail? ==> r.code == 404 && unchanged(db)
    ensures r.Ok? ==> r == Ok(200, cid) && db.clients == old(db.clients)[cid := Revoked(old(db.clients)[cid])]
    ensures db.invoices == old(db.invoices) && db.users == old(db.users) && db.nextId == old(db.nextId)
    ensures db.paymentRequests == old(db.paymentRequests) && db.profileRequests == old(db.profileRequests)
    ensures db.signupRequests == old(db.signupRequests)
  {
    if !Owned(db.clients, cid, uid) {
      return Fail(404, "Client not found");
    }
    var x := SaveRevocation(db.clients[cid], false, hash);
    WriteClient(db, x);
    r := Ok(200, cid);
  }

  // ---------------------------------------------------------------------------
  // GET /:id/stats

  function OfClient(cid: Id, uid: Id): Invoice -> bool
  {
    (inv: Invoice) => inv.clientId == cid && inv.userId == uid
  }

  /** Summing over the invoices of one client that all belong to business
      `uid` is the client's ledger sum. */
  lemma {:induction false} ClientSumIsLedgerSum(s: seq<Invoice>, cid: Id, uid: Id, f: Invoice -> real)
    requires forall i :: 0 <= i < |s| && s[i].clientId == cid ==> s[i].userId == uid
    ensures SumOf(Filter(s, OfClient(cid, uid)), f) == SumFor(s, cid, f)
  {
    if s != [] {
      var n := |s| - 1;
      ClientSumIsLedgerSum(s[..n], cid, uid, f);
      if OfClient(cid, uid)(s[n]) {
        SumOfAppend(Filter(s[..n], OfClient(cid, uid)), s[n], f);
      }
    }
  }

  /** `GET /:id/stats`: 404 for a client of another business; otherwise the
      tally of the client's invoices. On a reconciled store the totals agree
      with the client's ledger fields, and the total splits into paid and
      outstanding. */
  method ClientStats(db: Db, uid: Id, cid: Id) returns (r: Response<InvoiceStats>)
    requires db.Valid()
    ensures r.Fail? <==> !Owned(db.clients, cid, uid)
    ensures r.Fail? ==> r.code == 404
    ensures r.Ok? ==>
      r.code == 200 && r.value == Tally(Filter(db.invoices, OfClient(cid, uid)))
      && r.value.totalAmount == r.value.paidAmount + r.value.outstandingAmount
      && (db.Reconciled() ==> r.value.totalAmount == db.clients[cid].totalInvoiced
                              && r.value.outstandingAmount == db.clients[cid].totalOutstanding)
  {
    if !Owned(db.clients, cid, uid) {
      return Fail(404, "Client not found");
    }
    var mine := Filter(db.invoices, OfClient(cid, uid));
    forall i | 0 <= i < |mine| ensures Stored(mine[i]) {
      assert mine[i] in db.invoices;
    }
    TallyBalances(mine);
    if db.Reconciled() {
      ClientSumIsLedgerSum(db.invoices, cid, uid, Total);
      ClientSumIsLedgerSum(db.invoices, cid, uid, Remaining);
    }
    r := Ok(200, Tally(mine));
  }

  // ---------------------------------------------------------------------------
  // GET /lookup

  datatype Source = FromClient | FromSignup

  datatype LookupEntry = LookupEntry(name: string, email: string, company: Option<string>,
                                     phone: Option<string>, source: Source)

  function ClientEntry(c: Client): LookupEntry
  {
    LookupEntry(c.name, c.email, c.company, c.phone, FromClient)
  }

  function SignupEntry(r: SignupRequest): LookupEntry
  {
    LookupEntry(r.name, r.email, r.company, r.phone, FromSignup)
  }

  /** The clients keyed by lowercased address, a later one replacing an
      earlier one; an empty address is skipped. */
  function ClientEntries(cs: seq<Client>): map<string, LookupEntry>
  {
    if cs == [] then map[]
    else
      var m := ClientEntries(cs[..|cs| - 1]);
      var key := ToLower(cs[|cs| - 1].email);
      if key == "" then m else m[key := ClientEntry(cs[|cs| - 1])]
  }

  /** The signup requests added to `m` under addresses not yet present, the
      first one for an address winning. */
  function SignupEntries(m: map<string, LookupEntry>, rs: seq<SignupRequest>): map<string, LookupEntry>
  {
    if rs == [] then m
    else
      var m0 := SignupEntries(m, rs[..|rs| - 1]);
      var key := ToLower(rs[|rs| - 1].email);
      if key == "" || key in m0 then m0 else m0[key := SignupEntry(rs[|rs| - 1])]
  }

  function Merged(cs: seq<Client>, rs: seq<SignupRequest>): map<string, LookupEntry>
  {
    SignupEntries(ClientEntries(cs), rs)
  }

  /** `order` with `key` at its end, unless the key is empty or already
      there: a `Map` keeps a key where it was first set, and setting it again
      does not move it. */
  function Appended(order: seq<string>, key: string): seq<string>
  {
    if key == "" || key in order then order else order + [key]
  }

  predicate Distinct(order: seq<string>)
  {
    forall i, j :: 0 <= i < j < |order| ==> order[i] != order[j]
  }

  /** The order in which the client loop first sets each address: every key
      of the client entries, once. */
  function ClientOrder(cs: seq<Client>): (r: seq<string>)
    ensures Distinct(r)
    ensures forall key :: key in r <==> key in ClientEntries(cs)
  {
    if cs == [] then []
    else Appended(ClientOrder(cs[..|cs| - 1]), ToLower(cs[|cs| - 1].email))
  }

  /** The order after the signup loop: each address it adds goes at the end. */
  function SignupOrder(order: seq<string>, rs: seq<SignupRequest>): seq<string>
  {
    if rs == [] then order
    else Appended(SignupOrder(order, rs[..|rs| - 1]), ToLower(rs[|rs| - 1].email))
  }

  /** When `order` lists the keys of `m` once each, the signup loop keeps it
      a listing of the keys, once each, and only adds at the end. */
  lemma {:induction false} SignupOrderKeys(m: map<string, LookupEntry>, order: seq<string>, rs: seq<SignupRequest>)
    requires Distinct(order) && forall key :: key in order <==> key in m
    ensures var r := SignupOrder(order, rs);
      Distinct(r) && (forall key :: key in r <==> key in SignupEntries(m, rs))
      && |order| <= |r| && r[..|order|] == order
  {
    if rs != [] {
      SignupOrderKeys(m, order, rs[..|rs| - 1]);
    }
  }

  /** The insertion order of the merged lookup: the client addresses first,
      in the order the query returned them, then the new signup addresses. */
  function MergedOrder(cs: seq<Client>, rs: seq<SignupRequest>): (r: seq<string>)
    ensures Distinct(r) && forall key :: key in r <==> key in Merged(cs, rs)
    ensures |ClientOrder(cs)| <= |r| && r[..|ClientOrder(cs)|] == ClientOrder(cs)
  {
    SignupOrderKeys(ClientEntries(cs), ClientOrder(cs), rs);
    SignupOrder(ClientOrder(cs), rs)
  }

  /** `Array.from(map.values())`: the entries in the map's insertion order. */
  function Values(m: map<string, LookupEntry>, order: seq<string>): (r: seq<LookupEntry>)
    requires forall key :: key in order ==> key in m
    ensures |r| == |order| && forall i :: 0 <= i < |order| ==> r[i] == m[order[i]]
  {
    seq(|order|, i requires 0 <= i < |order| => m[order[i]])
  }

  /** `GET /lookup`: an empty search (after trimming) finds nothing;
      otherwise the matching clients and signup requests (the database
      query's results, given here) merged by lowercased address, as the
      `Map`'s values in insertion order. */
  method Lookup(search: Option<string>, cs: seq<Client>, rs: seq<SignupRequest>)
    returns (results: seq<LookupEntry>)
    ensures Trim(TextOr(search, "")) == "" ==> results == []
    ensures Trim(TextOr(search, "")) != "" ==> results == Values(Merged(cs, rs), MergedOrder(cs, rs))
  {
    if Trim(TextOr(search, "")) == "" {
      return [];
    }
    var merged: map<string, LookupEntry> := map[];
    var order: seq<string> := [];
    var i := 0;
    while i < |cs|
      invariant 0 <= i <= |cs|
      invariant merged == ClientEntries(cs[..i]) && order == ClientOrder(cs[..i])
    {
      assert cs[..i + 1][..i] == cs[..i];
      var key := ToLower(cs[i].email);
      if key != "" {
        if key !in merged {
          order := order + [key];
        }
        merged := merged[key := ClientEntry(cs[i])];
      }
      i := i + 1;
    }
    assert cs[..i] == cs;
    ghost var fromClients := merged;
    ghost var clientOrder := order;
    var j := 0;
    while j < |rs|
      invariant 0 <= j <= |rs|
      invariant merged == SignupEntries(fromClients, rs[..j]) && order == SignupOrder(clientOrder, rs[..j])
    {
      assert rs[..j + 1][..j] == rs[..j];
      SignupOrderKeys(fromClients, clientOrder, rs[..j]);
      var key := ToLower(rs[j].email);
      if key != "" && key !in merged {
        merged := merged[key := SignupEntry(rs[j])];
        order := order + [key];
      }
      j := j + 1;
    }
    assert rs[..j] == rs;
    SignupOrderKeys(fromClients, clientOrder, rs);
    results := Values(merged, order);
  }

  /** The keys of the client entries are the non-empty lowercased client
      addresses. */
  lemma {:induction false} ClientEntriesKeys(cs: seq<Client>, key: string)
    ensures key in ClientEntries(cs) <==> key != "" && exists i :: 0 <= i < |cs| && ToLower(cs[i].email) == key
  {
    if cs != [] {
      var n := |cs| - 1;
      var init := cs[..n];
      ClientEntriesKeys(init, key);
      if key in ClientEntries(init) {
        var i :| 0 <= i < |init| && ToLower(init[i].email) == key;
        assert cs[i] == init[i];
      }
      if key != "" && ToLower(cs[n].email) != key && exists i :: 0 <= i < |cs| && ToLower(cs[i].email) == key {
        var i :| 0 <= i < |cs| && ToLower(cs[i].email) == key;
        assert init[i] == cs[i];
      }
    }
  }

  /** Each key holds the last client with that address. */
  lemma {:induction false} ClientEntriesLast(cs: seq<Client>, i: nat)
    requires i < |cs| && ToLower(cs[i].email) != ""
    requires forall j :: i < j < |cs| ==> ToLower(cs[j].email) != ToLower(cs[i].email)
    ensures ToLower(cs[i].email) in ClientEntries(cs)
    ensures ClientEntries(cs)[ToLower(cs[i].email)] == ClientEntry(cs[i])
  {
    var n := |cs| - 1;
    if i < n {
      var init := cs[..n];
      assert init[i] == cs[i];
      forall j | i < j < |init| ensures ToLower(init[j].email) != ToLower(init[i].email) {
        assert init[j] == cs[j];
      }
      ClientEntriesLast(init, i);
    }
  }

  /** Signup entries never replace a key that is already present. */
  lemma {:induction false} SignupEntriesKeep(m: map<string, LookupEntry>, rs: seq<SignupRequest>, key: string)
    requires key in m
    ensures key in SignupEntries(m, rs) && SignupEntries(m, rs)[key] == m[key]
  {
    if rs != [] {
      SignupEntriesKeep(m, rs[..|rs| - 1], key);
    }
  }

  /** The keys after the signup requests: those already present and the
      non-empty lowercased signup addresses. */
  lemma {:induction false} SignupEntriesKeys(m: map<string, LookupEntry>, rs: seq<SignupRequest>, key: string)
    ensures key in SignupEntries(m, rs) <==>
      key in m || (key != "" && exists j :: 0 <= j < |rs| && ToLower(rs[j].email) == key)
  {
    if rs != [] {
      var n := |rs| - 1;
      var init := rs[..n];
      SignupEntriesKeys(m, init, key);
      if key in SignupEntries(m, init) && key !in m {
        var j :| 0 <= j < |init| && ToLower(init[j].email) == key;
        assert rs[j] == init[j];
      }
      if key != "" && ToLower(rs[n].email) != key && exists j :: 0 <= j < |rs| && ToLower(rs[j].email) == key {
        var j :| 0 <= j < |rs| && ToLower(rs[j].email) == key;
        assert init[j] == rs[j];
      }
    }
  }

  /** A key that was absent holds the first signup request with that
      address. */
  lemma {:induction false} SignupEntriesFirst(m: map<string, LookupEntry>, rs: seq<SignupRequest>, j: nat)
    requires j < |rs| && ToLower(rs[j].email) != "" && ToLower(rs[j].email) !in m
    requires forall k :: 0 <= k < j ==> ToLower(rs[k].email) != ToLower(rs[j].email)
    ensures ToLower(rs[j].email) in SignupEntries(m, rs)
    ensures SignupEntries(m, rs)[ToLower(rs[j].email)] == SignupEntry(rs[j])
  {
    var n := |rs| - 1;
    var init := rs[..n];
    var key := ToLower(rs[j].email);
    if j < n {
      assert init[j] == rs[j];
      forall k | 0 <= k < j ensures ToLower(init[k].email) != key {
        assert init[k] == rs[k];
      }
      SignupEntriesFirst(m, init, j);
    } else {
      SignupEntriesKeys(m, init, key);
      forall k | 0 <= k < |init| ensures ToLower(init[k].email) != key {
        assert init[k] == rs[k];
      }
    }
  }

  /** In the merged lookup a client's entry wins over any signup request's:
      an address some client has holds the last such client. */
  lemma ClientsTakePrecedence(cs: seq<Client>, rs: seq<SignupRequest>, i: nat)
    requires i < |cs| && ToLower(cs[i].email) != ""
    requires forall j :: i < j < |cs| ==> ToLower(cs[j].email) != ToLower(cs[i].email)
    ensures ToLower(cs[i].email) in Merged(cs, rs)
    ensures Merged(cs, rs)[ToLower(cs[i].email)] == ClientEntry(cs[i])
  {
    ClientEntriesLast(cs, i);
    SignupEntriesKeep(ClientEntries(cs), rs, ToLower(cs[i].email));
  }

  /** An address no client has holds the first signup request with it. */
  lemma SignupFillsGaps(cs: seq<Client>, rs: seq<SignupRequest>, j: nat)
    requires j < |rs| && ToLower(rs[j].email) != ""
    requires forall i :: 0 <= i < |cs| ==> ToLower(cs[i].email) != ToLower(rs[j].email)
    requires forall k :: 0 <= k < j ==> ToLower(rs[k].email) != ToLower(rs[j].email)
    ensures ToLower(rs[j].email) in Merged(cs, rs)
    ensures Merged(cs, rs)[ToLower(rs[j].email)] == SignupEntry(rs[j])
  {
    ClientEntriesKeys(cs, ToLower(rs[j].email));
    SignupEntriesFirst(ClientEntries(cs), rs, j);
  }

  /** A key is in the merged lookup exactly when a client or a signup
      request has that (non-empty, lowercased) address. */
  lemma LookupKeys(cs: seq<Client>, rs: seq<SignupRequest>, key: string)
    ensures key in Merged(cs, rs) <==>
      key != "" && ((exists i :: 0 <= i < |cs| && ToLower(cs[i].email) == key)
                    || (exists j :: 0 <= j < |rs| && ToLower(rs[j].email) == key))
  {
    ClientEntriesKeys(cs, key);
    SignupEntriesKeys(ClientEntries(cs), rs, key);
  }
}
