/** The other documents of the backend: clients with their portal access and
    ledger (backend/models/Client.js), business users as far as the routes
    read them, payment requests (PaymentRequest.js), profile requests
    (ProfileRequest.js) and signup requests (SignupRequest.js), each with the
    defaults, setters (trim, lowercase) and bounds of its schema. */
module Records {
  import opened Common
  import Helpers

  // ---------------------------------------------------------------------------
  // Client

  datatype ClientStatus = Active | Inactive

  datatype Address = Address(street: string, city: string, state: string, zipCode: string, country: string)

  datatype Client = Client(
    id: Id, userId: Id, name: string, email: string,
    phone: Option<string>, company: Option<string>, address: Option<Address>,
    taxId: Option<string>, paymentTerms: string, preferredPaymentMethod: PaymentMethod,
    notes: Option<string>, status: ClientStatus,
    isApproved: bool, approvalToken: Option<string>, password: Option<string>,
    totalInvoiced: real, totalPaid: real, totalOutstanding: real)

  function TrimOpt(s: Option<string>): Option<string>
  {
    if s.Some? then Some(Trim(s.value)) else None
  }

  /** The schema setters applied on assignment: `name`, `phone` and `company`
      are trimmed and `email` is lowercased. */
  function ClientSetters(c: Client): (r: Client)
    ensures IsLower(r.email) && r.name == Trim(c.name)
    ensures r == c.(name := r.name, email := r.email, phone := r.phone, company := r.company)
  {
    ToLowerIsLower(c.email);
    c.(name := Trim(c.name), email := ToLower(c.email), phone := TrimOpt(c.phone), company := TrimOpt(c.company))
  }

  // ---------------------------------------------------------------------------
  // The client e-mail pattern: /^\w+([.-]?\w+)*@\w+([.-]?\w+)*(\.\w{2,3})+$/

  predicate WordChar(c: char)
  {
    'a' <= c <= 'z' || 'A' <= c <= 'Z' || '0' <= c <= '9' || c == '_'
  }

  /** `\w+([.-]?\w+)*`: word characters, with single '.' or '-' separators
      between them. */
  predicate WordsOk(s: string)
  {
    |s| >= 1 && WordChar(s[0]) && WordChar(s[|s| - 1])
    && forall k :: 0 <= k < |s| ==> WordStep(s, k)
  }

  /** Position `k` holds a word character, or a separator right after one. */
  predicate WordStep(s: string, k: int)
    requires 0 <= k < |s|
  {
    WordChar(s[k]) || ((s[k] == '.' || s[k] == '-') && k > 0 && WordChar(s[k - 1]))
  }

  /** `(\.\w{2,3})+`: one or more groups of '.' and two or three word
      characters. */
  predicate TldsOk(s: string)
    decreases |s|
  {
    (|s| >= 3 && s[0] == '.' && WordChar(s[1]) && WordChar(s[2]) && (|s| == 3 || TldsOk(s[3..])))
    || (|s| >= 4 && s[0] == '.' && WordChar(s[1]) && WordChar(s[2]) && WordChar(s[3])
        && (|s| == 4 || TldsOk(s[4..])))
  }

  /** The domain: a `WordsOk` part followed by a `TldsOk` part. */
  predicate DomainOk(d: string)
  {
    exists k :: 0 < k < |d| && WordsOk(d[..k]) && TldsOk(d[k..])
  }

  predicate ClientEmailOk(e: string)
  {
    exists i :: 0 < i < |e| && e[i] == '@' && WordsOk(e[..i]) && DomainOk(e[i + 1..])
  }

  lemma {:induction false} TldsChars(s: string)
    requires TldsOk(s)
    ensures forall k :: 0 <= k < |s| ==> s[k] == '.' || WordChar(s[k])
    decreases |s|
  {
    if |s| >= 3 && s[0] == '.' && WordChar(s[1]) && WordChar(s[2]) && (|s| == 3 || TldsOk(s[3..])) {
      if |s| > 3 {
        TldsChars(s[3..]);
        assert forall k :: 3 <= k < |s| ==> s[k] == s[3..][k - 3];
      }
    } else {
      if |s| > 4 {
        TldsChars(s[4..]);
        assert forall k :: 4 <= k < |s| ==> s[k] == s[4..][k - 4];
      }
    }
  }

  /** Characters of the pattern are never blanks or '@'. */
  predicate PatternChar(c: char)
  {
    WordChar(c) || c == '.' || c == '-'
  }

  lemma PatternCharsArePart(e: string, lo: int, hi: int)
    requires 0 <= lo < hi <= |e|
    requires forall m :: lo <= m < hi ==> PatternChar(e[m])
    ensures Helpers.PartAt(e, lo, hi)
  {
  }

  lemma WordsChars(s: string)
    requires WordsOk(s)
    ensures forall k :: 0 <= k < |s| ==> PatternChar(s[k])
  {
    forall k | 0 <= k < |s| ensures PatternChar(s[k]) {
      assert WordStep(s, k);
    }
  }

  /** Every address the client schema accepts also passes the browser's
      `validateEmail` check. */
  lemma ClientEmailPassesBrowserCheck(e: string)
    requires ClientEmailOk(e)
    ensures Helpers.ValidateEmail(e)
  {
    var i :| 0 < i < |e| && e[i] == '@' && WordsOk(e[..i]) && DomainOk(e[i + 1..]);
    var d := e[i + 1..];
    var k :| 0 < k < |d| && WordsOk(d[..k]) && TldsOk(d[k..]);
    var j := i + 1 + k;
    SplitAddressParts(e, i, k);
    PatternCharsArePart(e, 0, i);
    PatternCharsArePart(e, i + 1, j);
    PatternCharsArePart(e, j + 1, |e|);
    Helpers.PatternIsValidEmail(e, i, j);
  }

  lemma SplitAddressParts(e: string, i: int, k: int)
    requires 0 < i < |e| && 0 < k < |e| - i - 1
    requires WordsOk(e[..i]) && WordsOk(e[i + 1..][..k]) && TldsOk(e[i + 1..][k..])
    ensures e[i + 1 + k] == '.' && i + 1 + k < |e| - 1
    ensures forall m :: 0 <= m < i ==> PatternChar(e[m])
    ensures forall m :: i + 1 <= m < i + 1 + k ==> PatternChar(e[m])
    ensures forall m :: i + 2 + k <= m < |e| ==> PatternChar(e[m])
  {
    var t := e[i + 1..][k..];
    TldsChars(t);
    WordsChars(e[..i]);
    WordsChars(e[i + 1..][..k]);
    assert forall m :: 0 <= m < i ==> e[m] == e[..i][m];
    assert forall m :: i + 1 <= m < i + 1 + k ==> e[m] == e[i + 1..][..k][m - i - 1];
    assert forall m :: i + 1 + k <= m < |e| ==> e[m] == t[m - i - 1 - k];
  }

  /** The bounds checked on save: a name of 1 to 100 characters, an e-mail
      matching the pattern, notes of at most 500 characters, and a preferred
      method other than "upi" (the client enum has six of the seven payment
      methods). */
  predicate ClientSchemaValid(c: Client)
  {
    c.name != "" && |c.name| <= 100 && ClientEmailOk(c.email)
    && (c.notes.Some? ==> |c.notes.value| <= 500)
    && c.preferredPaymentMethod != Upi
  }

  /** A client built from the given fields, every other field at its schema
      default: terms "Net 30", bank transfer, active, not approved, no
      credentials and an empty ledger. */
  function NewClient(id: Id, userId: Id, name: string, email: string,
                     phone: Option<string>, company: Option<string>, address: Option<Address>): (c: Client)
    ensures c.id == id && c.userId == userId
    ensures c.status == Active && !c.isApproved && c.password.None? && c.approvalToken.None?
    ensures c.totalInvoiced == 0.0 && c.totalPaid == 0.0 && c.totalOutstanding == 0.0
    ensures c.preferredPaymentMethod == BankTransfer && c.preferredPaymentMethod != Upi
    ensures IsLower(c.email) && c.name == Trim(name)
  {
    ClientSetters(Client(id, userId, name, email, phone, company, address, None, "Net 30",
                         BankTransfer, None, Active, false, None, None, 0.0, 0.0, 0.0))
  }

  /** `comparePassword`: false whenever no password is stored; otherwise the
      hash comparison, which the model leaves opaque as `verify`. */
  function ComparePassword(c: Client, candidate: string, verify: (string, string) -> bool): (ok: bool)
    ensures ok ==> c.password.Some? && c.password.value != ""
    ensures c.password.Some? && c.password.value != "" ==> ok == verify(candidate, c.password.value)
  {
    if c.password.None? || c.password.value == "" then false
    else verify(candidate, c.password.value)
  }

  /** The `pre('save')` hook: a modified, non-empty password is replaced by
      its hash (`hash` stands for bcrypt); anything else is left alone. */
  function PasswordHook(c: Client, modified: bool, hash: string -> string): (r: Client)
    ensures r == c.(password := r.password)
    ensures modified && c.password.Some? && c.password.value != "" ==> r.password == Some(hash(c.password.value))
    ensures !modified || c.password.None? || c.password.value == "" ==> r == c
  {
    if modified && c.password.Some? && c.password.value != "" then c.(password := Some(hash(c.password.value)))
    else c
  }

  // Field edits a route makes on a loaded client, each only for the values
  // the request gives, through the schema's setters.

  function WithContact(c: Client, n: Option<string>, ph: Option<string>, co: Option<string>): Client
  {
    c.(name := if n.Some? then Trim(n.value) else c.name,
       phone := if ph.Some? then TrimOpt(ph) else c.phone,
       company := if co.Some? then TrimOpt(co) else c.company)
  }

  function WithEmail(c: Client, e: Option<string>): Client
  {
    c.(email := if e.Some? then ToLower(e.value) else c.email)
  }

  function WithTerms(c: Client, addr: Option<Address>, terms: Option<string>): Client
  {
    c.(address := if addr.Some? then addr else c.address, paymentTerms := Given(terms, c.paymentTerms))
  }

  function WithPreferences(c: Client, ns: Option<string>, via: Option<PaymentMethod>, tax: Option<string>): Client
  {
    c.(notes := if ns.Some? then ns else c.notes,
       preferredPaymentMethod := Given(via, c.preferredPaymentMethod),
       taxId := if tax.Some? then tax else c.taxId)
  }

  function WithAccess(c: Client, p: string): Client
  {
    c.(password := Some(p), isApproved := true)
  }

  /** Portal access taken away: no password, not approved, no token. */
  function Revoked(c: Client): (r: Client)
    ensures r.password.None? && !r.isApproved && r.approvalToken.None?
    ensures r.(password := c.password, isApproved := c.isApproved, approvalToken := c.approvalToken) == c
  {
    c.(password := None, isApproved := false, approvalToken := None)
  }

  /** What a `save()` of `c` writes: nothing when the schema refuses it,
      otherwise the record after the password hook. */
  function Persisted(c: Client, modified: bool, hash: string -> string): (r: Option<Client>)
    ensures r.Some? <==> ClientSchemaValid(c)
    ensures r.Some? ==> ClientSchemaValid(r.value) && r.value == PasswordHook(c, modified, hash)
  {
    if ClientSchemaValid(c) then Some(PasswordHook(c, modified, hash)) else None
  }

  /** The Mongoose client document a route loads or builds, changes field by
      field and saves. `passwordModified` is Mongoose's
      `isModified('password')`. */
  class ClientDocument {
    var id: Id
    var userId: Id
    var name: string
    var email: string
    var phone: Option<string>
    var company: Option<string>
    var address: Option<Address>
    var taxId: Option<string>
    var paymentTerms: string
    var preferredPaymentMethod: PaymentMethod
    var notes: Option<string>
    var status: ClientStatus
    var isApproved: bool
    var approvalToken: Option<string>
    var password: Option<string>
    var totalInvoiced: real
    var totalPaid: real
    var totalOutstanding: real
    var passwordModified: bool

    function Record(): Client
      reads this
    {
      Client(id, userId, name, email, phone, company, address, taxId, paymentTerms, preferredPaymentMethod,
             notes, status, isApproved, approvalToken, password, totalInvoiced, totalPaid, totalOutstanding)
    }

    /** `new Client({...})` or a document read back by a query; a new
        document counts its password as modified. */
    constructor (c: Client, created: bool)
      ensures Record() == c && passwordModified == created
    {
      id, userId, name, email := c.id, c.userId, c.name, c.email;
      phone, company, address, taxId := c.phone, c.company, c.address, c.taxId;
      paymentTerms, preferredPaymentMethod, notes, status := c.paymentTerms, c.preferredPaymentMethod, c.notes, c.status;
      isApproved, approvalToken, password := c.isApproved, c.approvalToken, c.password;
      totalInvoiced, totalPaid, totalOutstanding := c.totalInvoiced, c.totalPaid, c.totalOutstanding;
      passwordModified := created;
    }

    /** `client.password = p`. */
    method SetPassword(p: Option<string>)
      modifies this
      ensures Record() == old(Record()).(password := p) && passwordModified
    {
      password := p;
      passwordModified := true;
    }

    /** `name`, `phone` and `company`, each only when given (`x ?? current`),
        through the schema's trimming setters. */
    method ApplyContact(n: Option<string>, ph: Option<string>, co: Option<string>)
      modifies this
      ensures Record() == WithContact(old(Record()), n, ph, co) && passwordModified == old(passwordModified)
    {
      if n.Some? { name := Trim(n.value); }
      if ph.Some? { phone := TrimOpt(ph); }
      if co.Some? { company := TrimOpt(co); }
    }

    /** `email`, when given, through the lowercasing setter. */
    method ApplyEmail(e: Option<string>)
      modifies this
      ensures Record() == WithEmail(old(Record()), e) && passwordModified == old(passwordModified)
    {
      if e.Some? { email := ToLower(e.value); }
    }

    /** `address` and `paymentTerms`, each only when given. */
    method ApplyTerms(addr: Option<Address>, terms: Option<string>)
      modifies this
      ensures Record() == WithTerms(old(Record()), addr, terms) && passwordModified == old(passwordModified)
    {
      if addr.Some? { address := addr; }
      if terms.Some? { paymentTerms := terms.value; }
    }

    /** `notes`, `preferredPaymentMethod` and `taxId`, each only when given. */
    method ApplyPreferences(ns: Option<string>, via: Option<PaymentMethod>, tax: Option<string>)
      modifies this
      ensures Record() == WithPreferences(old(Record()), ns, via, tax) && passwordModified == old(passwordModified)
    {
      if ns.Some? { notes := ns; }
      if via.Some? { preferredPaymentMethod := via.value; }
      if tax.Some? { taxId := tax; }
    }

    /** Portal access set up by the business: a password and `isApproved`. */
    method Grant(p: string)
      modifies this
      ensures Record() == WithAccess(old(Record()), p) && passwordModified
    {
      password := Some(p);
      isApproved := true;
      passwordModified := true;
    }

    /** Portal access taken away. */
    method Revoke()
      modifies this
      ensures Record() == Revoked(old(Record())) && passwordModified
    {
      password := None;
      isApproved := false;
      approvalToken := None;
      passwordModified := true;
    }

    method SetStatus(st: ClientStatus)
      modifies this
      ensures Record() == old(Record()).(status := st) && passwordModified == old(passwordModified)
    {
      status := st;
    }

    /** `save()`: validation first; when it passes, the password hook. */
    method Save(hash: string -> string) returns (valid: bool)
      modifies this
      ensures valid == ClientSchemaValid(old(Record()))
      ensures valid ==> Record() == PasswordHook(old(Record()), old(passwordModified), hash)
      ensures !valid ==> Record() == old(Record())
    {
      valid := ClientSchemaValid(Record());
      if valid && passwordModified && password.Some? && password.value != "" {
        password := Some(hash(password.value));
      }
    }
  }

  // ---------------------------------------------------------------------------
  // Business user (only what the routes read)

  datatype User = User(id: Id, email: string, taxId: Option<string>,
                       invoicePrefix: Option<string>, createdAt: Time)

  // ---------------------------------------------------------------------------
  // Payment request

  datatype RequestStatus = Pending | Approved | Rejected

  datatype PaymentRequest = PaymentRequest(
    id: Id, invoiceId: Id, businessUserId: Id, clientId: Id,
    amount: real, date: Time, paymentMethod: PaymentMethod, transactionId: Option<string>,
    status: RequestStatus, notes: Option<string>,
    reviewedAt: Option<Time>, reviewedBy: Option<Id>)

  /** The schema bound (`amount` at least 0.01) together with the lifecycle
      fact that a request carries review data exactly when it left `pending`. */
  predicate PaymentRequestValid(pr: PaymentRequest)
  {
    pr.amount >= 0.01
    && (pr.status == Pending <==> pr.reviewedAt.None?)
    && (pr.status == Pending <==> pr.reviewedBy.None?)
  }

  /** `PaymentRequest.create`: pending, not reviewed, the transaction id
      trimmed; the method defaults to cash and the date to now at the call. */
  function NewPaymentRequest(id: Id, invoiceId: Id, businessUserId: Id, clientId: Id, amount: real,
                             date: Time, paymentMethod: PaymentMethod,
                             transactionId: Option<string>, notes: Option<string>): (pr: PaymentRequest)
    ensures pr.status == Pending && pr.reviewedAt.None? && pr.reviewedBy.None?
    ensures amount >= 0.01 ==> PaymentRequestValid(pr)
  {
    PaymentRequest(id, invoiceId, businessUserId, clientId, amount, date, paymentMethod,
                   TrimOpt(transactionId), Pending, notes, None, None)
  }

  // ---------------------------------------------------------------------------
  // Profile request

  datatype ProfileRequest = ProfileRequest(
    id: Id, businessUserId: Id, name: string, email: string,
    company: Option<string>, phone: Option<string>, address: Option<Address>,
    taxId: Option<string>, notes: Option<string>, status: RequestStatus,
    reviewedAt: Option<Time>, reviewedBy: Option<Id>)

  /** `ProfileRequest.create` with its setters: name trimmed, email lowercased,
      company and phone trimmed, pending and unreviewed. */
  function NewProfileRequest(id: Id, businessUserId: Id, name: string, email: string,
                             company: Option<string>, phone: Option<string>, address: Option<Address>,
                             taxId: Option<string>, notes: Option<string>): (pr: ProfileRequest)
    ensures pr.status == Pending && pr.reviewedAt.None? && pr.reviewedBy.None?
    ensures pr.name == Trim(name) && IsLower(pr.email) && pr.email == ToLower(email)
  {
    ToLowerIsLower(email);
    ProfileRequest(id, businessUserId, Trim(name), ToLower(email), TrimOpt(company), TrimOpt(phone),
                   address, taxId, notes, Pending, None, None)
  }

  /** The required fields after the setters ran (`businessUserId` is always
      present in this model). */
  predicate ProfileRequestValid(pr: ProfileRequest)
  {
    pr.name != "" && pr.email != ""
    && (pr.status == Pending <==> pr.reviewedAt.None?)
  }

  /** A review: the new status, when and by which business user. */
  function ProfileReviewed(pr: ProfileRequest, st: RequestStatus, now: Time, reviewer: Id): (r: ProfileRequest)
    ensures r.status == st && r.reviewedAt == Some(now) && r.reviewedBy == Some(reviewer)
    ensures r.(status := pr.status, reviewedAt := pr.reviewedAt, reviewedBy := pr.reviewedBy) == pr
    ensures ProfileRequestValid(pr) && st != Pending ==> ProfileRequestValid(r)
  {
    pr.(status := st, reviewedAt := Some(now), reviewedBy := Some(reviewer))
  }

  /** A profile request loaded by a route; only the review fields change. */
  class ProfileRequestDocument {
    const id: Id
    const businessUserId: Id
    const name: string
    const email: string
    const company: Option<string>
    const phone: Option<string>
    const address: Option<Address>
    const taxId: Option<string>
    const notes: Option<string>
    var status: RequestStatus
    var reviewedAt: Option<Time>
    var reviewedBy: Option<Id>

    function Record(): ProfileRequest
      reads this
    {
      ProfileRequest(id, businessUserId, name, email, company, phone, address, taxId, notes,
                     status, reviewedAt, reviewedBy)
    }

    constructor (pr: ProfileRequest)
      ensures Record() == pr
    {
      id, businessUserId, name, email := pr.id, pr.businessUserId, pr.name, pr.email;
      company, phone, address, taxId, notes := pr.company, pr.phone, pr.address, pr.taxId, pr.notes;
      status, reviewedAt, reviewedBy := pr.status, pr.reviewedAt, pr.reviewedBy;
    }

    /** `pr.status = st; pr.reviewedAt = new Date(); pr.reviewedBy = req.user.id`. */
    method Review(st: RequestStatus, now: Time, reviewer: Id)
      modifies this
      ensures Record() == ProfileReviewed(old(Record()), st, now, reviewer)
    {
      status := st;
      reviewedAt := Some(now);
      reviewedBy := Some(reviewer);
    }
  }

  // ---------------------------------------------------------------------------
  // Signup request

  datatype SignupStatus = SignupPending | Converted

  datatype SignupRequest = SignupRequest(
    id: Id, name: string, email: string, company: Option<string>, phone: Option<string>,
    notes: Option<string>, status: SignupStatus, convertedClientId: Option<Id>)

  /** `SignupRequest.create` with its setters: name, company, phone and notes
      trimmed, email lowercased. */
  function NewSignupRequest(id: Id, name: string, email: string, company: Option<string>,
                            phone: Option<string>, notes: Option<string>,
                            status: SignupStatus, convertedClientId: Option<Id>): (r: SignupRequest)
    ensures r.name == Trim(name) && IsLower(r.email) && r.email == ToLower(email)
    ensures r.status == status && r.convertedClientId == convertedClientId
  {
    ToLowerIsLower(email);
    SignupRequest(id, Trim(name), ToLower(email), TrimOpt(company), TrimOpt(phone), TrimOpt(notes),
                  status, convertedClientId)
  }

  predicate SignupRequestValid(r: SignupRequest)
  {
    r.name != "" && r.email != ""
  }

  /** Marks a signup request as turned into the given client. */
  function MarkConverted(r: SignupRequest, cid: Id): (x: SignupRequest)
    ensures x.status == Converted && x.convertedClientId == Some(cid)
    ensures x.(status := r.status, convertedClientId := r.convertedClientId) == r
    ensures SignupRequestValid(r) ==> SignupRequestValid(x)
  {
    r.(status := Converted, convertedClientId := Some(cid))
  }

  /** A signup request loaded by a route; only the conversion fields change. */
  class SignupRequestDocument {
    const id: Id
    const name: string
    const email: string
    const company: Option<string>
    const phone: Option<string>
    const notes: Option<string>
    var status: SignupStatus
    var convertedClientId: Option<Id>

    function Record(): SignupRequest
      reads this
    {
      SignupRequest(id, name, email, company, phone, notes, status, convertedClientId)
    }

    constructor (r: SignupRequest)
      ensures Record() == r
    {
      id, name, email, company, phone, notes := r.id, r.name, r.email, r.company, r.phone, r.notes;
      status, convertedClientId := r.status, r.convertedClientId;
    }

    /** `r.status = 'converted'; r.convertedClientId = client._id`. */
    method Convert(cid: Id)
      modifies this
      ensures Record() == MarkConverted(old(Record()), cid)
    {
      status := Converted;
      convertedClientId := Some(cid);
    }
  }
}
