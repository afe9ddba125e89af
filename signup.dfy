/** Client onboarding (backend/routes/clientSignup.js): the public signup,
    which creates or revives an approved client of a resolved business and
    records the conversion; the public profile request and its review by
    the business; and the conversion of a pending signup request. */
module Onboarding {
  import opened Common
  import opened InvoiceModel
  import opened Records
  import opened Database
  import opened ClientRoutes

  // ---------------------------------------------------------------------------
  // Resolving the business a public request is for

  datatype Target = Business(id: Id) | BusinessNotFound | NoBusiness

  /** A JavaScript value that is present and not the empty string. */
  predicate Truthy(v: Option<string>)
  {
    v.Some? && v.value != ""
  }

  /** `v || current` on an optional text field: the given value only when
      it is truthy. */
  function OrKeep(v: Option<string>): (r: Option<string>)
    ensures r.Some? <==> Truthy(v)
    ensures r.Some? ==> r == v
  {
    if Truthy(v) then v else None
  }

  /** `User.findOne({ email: e.toLowerCase() })`. */
  function UserByEmail(users: map<Id, User>, e: string, top: nat): Option<Id>
  {
    FindOne(users, (u: User) => u.email == ToLower(e), 0, top)
  }

  /** The business a request is for: the explicit id; else the business
      e-mail, which must name a user; else (only for signups, `fallback`)
      the configured default id, then the user with the configured
      e-mail, then the earliest-created user. */
  function Resolution(users: map<Id, User>, top: nat, explicitId: Option<Id>, businessEmail: Option<string>,
                      env: Env, fallback: bool): (t: Target)
    ensures explicitId.Some? ==> t == Business(explicitId.value)
    ensures t.BusinessNotFound? <==>
      explicitId.None? && Truthy(businessEmail)
      && forall id :: 0 <= id < top && id in users ==> users[id].email != ToLower(businessEmail.value)
    ensures explicitId.None? && Truthy(businessEmail) && t.Business? ==>
      t.id in users && users[t.id].email == ToLower(businessEmail.value)
    ensures t.NoBusiness? <==>
      explicitId.None? && !Truthy(businessEmail)
      && (!fallback || (env.defaultBusinessId.None? && forall id :: 0 <= id < top ==> id !in users))
    ensures explicitId.None? && !Truthy(businessEmail) && fallback && env.defaultBusinessId.Some? ==>
      t == Business(env.defaultBusinessId.value)
    ensures explicitId.None? && !Truthy(businessEmail) && fallback && env.defaultBusinessId.None?
            && Truthy(env.businessEmail) && UserByEmail(users, env.businessEmail.value, top).Some? ==>
      t.Business? && t.id in users && users[t.id].email == ToLower(env.businessEmail.value)
    ensures explicitId.None? && !Truthy(businessEmail) && fallback && env.defaultBusinessId.None?
            && (!Truthy(env.businessEmail) || UserByEmail(users, env.businessEmail.value, top).None?) && t.Business? ==>
      t.id in users && forall id :: 0 <= id < top && id in users ==> users[t.id].createdAt <= users[id].createdAt
  {
    if explicitId.Some? then Business(explicitId.value)
    else if Truthy(businessEmail) then
      var biz := UserByEmail(users, businessEmail.value, top);
      if biz.None? then BusinessNotFound else Business(biz.value)
    else if !fallback then NoBusiness
    else if env.defaultBusinessId.Some? then Business(env.defaultBusinessId.value)
    else
      var configured := if Truthy(env.businessEmail) then UserByEmail(users, env.businessEmail.value, top) else None;
      if configured.Some? then Business(configured.value)
      else
        var first := Earliest(users, 0, top);
        if first.Some? then Business(first.value) else NoBusiness
  }

  /** The resolution as the routes run it: `targetBusinessId` starts as the
      explicit id and is reassigned along the chain until one is found. */
  method ResolveTarget(db: Db, explicitId: Option<Id>, businessEmail: Option<string>, env: Env, fallback: bool)
    returns (t: Target)
    ensures t == Resolution(db.users, db.nextId, explicitId, businessEmail, env, fallback)
  {
    var target := explicitId;
    if target.None? && Truthy(businessEmail) {
      var biz := UserByEmail(db.users, businessEmail.value, db.nextId);
      if biz.None? {
        return BusinessNotFound;
      }
      target := biz;
    }
    if target.None? && fallback {
      if env.defaultBusinessId.Some? {
        target := env.defaultBusinessId;
      } else if Truthy(env.businessEmail) {
        var biz := UserByEmail(db.users, env.businessEmail.value, db.nextId);
        if biz.Some? {
          target := biz;
        }
      }
      if target.None? {
        target := Earliest(db.users, 0, db.nextId);
      }
    }
    if target.None? {
      return NoBusiness;
    }
    t := Business(target.value);
  }

  // ---------------------------------------------------------------------------
  // POST /public/signup

  /** The request body; absent fields are `None`. */
  datatype SignupBody = SignupBody(
    name: Option<string>, email: Option<string>, password: Option<string>,
    confirmPassword: Option<string>, company: Option<string>, phone: Option<string>,
    notes: Option<string>, businessUserId: Option<Id>, businessEmail: Option<string>)

  /** The validators: a non-empty name, an e-mail (`isEmail`, left opaque),
      a password of at least six characters repeated in `confirmPassword`,
      and a business e-mail when one is given. */
  predicate SignupBodyOk(b: SignupBody, isEmail: string -> bool)
  {
    Truthy(b.name) && b.email.Some? && isEmail(b.email.value)
    && b.password.Some? && |b.password.value| >= 6 && b.confirmPassword == b.password
    && (b.businessEmail.Some? ==> isEmail(b.businessEmail.value))
  }

  /** An existing client signing up: name, company and phone replaced by the
      truthy values given, the new password, approved and active. */
  function SignedUp(c: Client, b: SignupBody): (r: Client)
    requires Truthy(b.name) && b.password.Some?
    ensures r.id == c.id && r.userId == c.userId && r.email == c.email
    ensures r.totalInvoiced == c.totalInvoiced && r.totalOutstanding == c.totalOutstanding
    ensures r.name == Trim(b.name.value)
    ensures r.company == (if Truthy(b.company) then TrimOpt(b.company) else c.company)
    ensures r.phone == (if Truthy(b.phone) then TrimOpt(b.phone) else c.phone)
    ensures r.password == b.password && r.isApproved && r.status == Active
  {
    WithAccess(WithContact(c, OrKeep(b.name), OrKeep(b.phone), OrKeep(b.company)), b.password.value)
      .(status := Active)
  }

  /** A new client from a signup: approved, active, with the password. */
  function Joined(id: Id, uid: Id, b: SignupBody): (r: Client)
    requires b.name.Some? && b.email.Some? && b.password.Some?
    ensures r.id == id && r.userId == uid && r.name == Trim(b.name.value)
    ensures r.email == ToLower(b.email.value)
    ensures r.totalInvoiced == 0.0 && r.totalOutstanding == 0.0
    ensures r.password == b.password && r.isApproved && r.status == Active
  {
    ToLowerIsLower(b.email.value);
    WithAccess(NewClient(id, uid, b.name.value, ToLower(b.email.value), b.phone, b.company, None),
               b.password.value)
  }

  /** The audit record of a signup: converted, pointing at the client. */
  function Audit(sid: Id, b: SignupBody, cid: Id): (r: SignupRequest)
    requires b.name.Some? && b.email.Some?
    ensures r.id == sid && r.status == Converted && r.convertedClientId == Some(cid)
    ensures r.email == ToLower(b.email.value) && r.name == Trim(b.name.value)
  {
    ToLowerIsLower(b.email.value);
    NewSignupRequest(sid, b.name.value, ToLower(b.email.value), b.company, b.phone, b.notes,
                     Converted, Some(cid))
  }

  /** The client the signup upsert writes before its save: the business's
      client with the lowercased address signed up again, or else a new
      client under the next id. Either way it is approved, active and holds
      the new password. */
  function UpsertTarget(clients: map<Id, Client>, top: nat, uid: Id, b: SignupBody): (r: Client)
    requires Truthy(b.name) && b.email.Some? && b.password.Some?
    ensures r.userId == uid && r.email == ToLower(b.email.value) && r.name == Trim(b.name.value)
    ensures r.password == b.password && r.isApproved && r.status == Active
    ensures var same := SameEmail(clients, uid, ToLower(b.email.value), top);
      (same.Some? ==> r.id == clients[same.value].id && r.totalInvoiced == clients[same.value].totalInvoiced
                      && r.totalOutstanding == clients[same.value].totalOutstanding)
      && (same.None? ==> r.id == top && r.totalInvoiced == 0.0 && r.totalOutstanding == 0.0)
  {
    var same := SameEmail(clients, uid, ToLower(b.email.value), top);
    if same.Some? then SignedUp(clients[same.value], b) else Joined(top, uid, b)
  }

  /** A saved signup client always yields a valid audit record: the schema
      already required its (trimmed) name and its address. */
  lemma AuditValid(x: Client, b: SignupBody, sid: Id, cid: Id)
    requires b.name.Some? && b.email.Some? && ClientSchemaValid(x)
    requires x.name == Trim(b.name.value) && x.email == ToLower(b.email.value)
    ensures SignupRequestValid(Audit(sid, b, cid))
  {
    var e := x.email;
    assert ClientEmailOk(e);
    var i :| 0 < i < |e| && e[i] == '@' && WordsOk(e[..i]) && DomainOk(e[i + 1..]);
  }

  /** Loads the existing client, applies the signup and saves it. */
  method SaveSignup(c: Client, b: SignupBody, hash: string -> string) returns (saved: Option<Client>)
    requires Truthy(b.name) && b.password.Some?
    ensures saved == Persisted(SignedUp(c, b), true, hash)
  {
    var doc := new ClientDocument(c, false);
    doc.ApplyContact(OrKeep(b.name), OrKeep(b.phone), OrKeep(b.company));
    doc.Grant(b.password.value);
    doc.SetStatus(Active);
    var valid := doc.Save(hash);
    saved := if valid then Some(doc.Record()) else None;
  }

  /** `Client.create` of a signup client. */
  method SaveJoined(id: Id, uid: Id, b: SignupBody, hash: string -> string) returns (saved: Option<Client>)
    requires b.name.Some? && b.email.Some? && b.password.Some?
    ensures saved == Persisted(Joined(id, uid, b), true, hash)
  {
    var doc := new ClientDocument(Joined(id, uid, b), true);
    var valid := doc.Save(hash);
    saved := if valid then Some(doc.Record()) else None;
  }

  /** Adding a new record under the next id keeps every collection valid
      under the raised allocator. */
  lemma AuditKeepsStore(db: Db, r: SignupRequest)
    requires db.Valid() && r.id == db.nextId && SignupRequestValid(r)
    ensures SignupRequestsOk(db.signupRequests[r.id := r], db.nextId + 1)
    ensures InvoicesOk(db.invoices, db.nextId + 1) && ClientsOk(db.clients, db.nextId + 1)
    ensures UsersOk(db.users, db.nextId + 1) && PaymentRequestsOk(db.paymentRequests, db.nextId + 1)
    ensures ProfileRequestsOk(db.profileRequests, db.nextId + 1)
  {
    AllocatorGrows(db.invoices, db.clients, db.users, db.paymentRequests, db.profileRequests,
                   db.signupRequests, db.nextId, db.nextId + 1);
  }

  /** `SignupRequest.create` of the audit record, line 73. */
  method RecordAudit(db: Db, b: SignupBody, cid: Id)
    requires db.Valid() && b.name.Some? && b.email.Some?
    requires SignupRequestValid(Audit(db.nextId, b, cid))
    modifies db
    ensures db.Valid()
    ensures old(db.Reconciled()) ==> db.Reconciled()
    ensures db.nextId == old(db.nextId) + 1
    ensures db.signupRequests == old(db.signupRequests)[old(db.nextId) := Audit(old(db.nextId), b, cid)]
    ensures db.invoices == old(db.invoices) && db.clients == old(db.clients) && db.users == old(db.users)
    ensures db.paymentRequests == old(db.paymentRequests) && db.profileRequests == old(db.profileRequests)
  {
    var sid := db.nextId;
    var r := Audit(sid, b, cid);
    AuditKeepsStore(db, r);
    db.Commit(db.invoices, db.clients, db.users, db.paymentRequests, db.profileRequests,
              db.signupRequests[sid := r], sid + 1);
  }

  /** Lines 49-70: the client of the business with the lowercased address is
      signed up again, or a new one is created; a save the schema refuses is
      a 500 with nothing written. The answer is the client's id. */
  method UpsertClient(db: Db, uid: Id, b: SignupBody, hash: string -> string) returns (r: Response<Id>)
    requires db.Valid() && Truthy(b.name) && b.email.Some? && b.password.Some?
    modifies db
    ensures db.Valid()
    ensures old(db.Reconciled()) ==> db.Reconciled()
    ensures var existing := SameEmail(old(db.clients), uid, ToLower(b.email.value), old(db.nextId));
      (existing.Some? ==>
        var saved := Persisted(SignedUp(old(db.clients)[existing.value], b), true, hash);
        (saved.None? ==> r.Fail? && r.code == 500 && unchanged(db))
        && (saved.Some? ==> r == Ok(201, existing.value) && db.nextId == old(db.nextId)
                            && db.clients == old(db.clients)[existing.value := saved.value]))
      && (existing.None? ==>
        var saved := Persisted(Joined(old(db.nextId), uid, b), true, hash);
        (saved.None? ==> r.Fail? && r.code == 500 && unchanged(db))
        && (saved.Some? ==> r == Ok(201, old(db.nextId)) && db.nextId == old(db.nextId) + 1
                            && db.clients == old(db.clients)[old(db.nextId) := saved.value]))
    ensures r.Ok? ==> r.value in db.clients && db.clients[r.value].userId == uid
                      && db.clients[r.value].name == Trim(b.name.value)
                      && db.clients[r.value].email == ToLower(b.email.value)
    ensures var x := UpsertTarget(old(db.clients), old(db.nextId), uid, b);
      (r.Fail? <==> Persisted(x, true, hash).None?)
      && (r.Ok? ==> r.value == x.id && db.clients == old(db.clients)[x.id := Persisted(x, true, hash).value])
    ensures db.nextId >= old(db.nextId)
    ensures r.Fail? ==> unchanged(db) && r.code == 500
    ensures r.Ok? ==> r.code == 201
    ensures db.invoices == old(db.invoices) && db.users == old(db.users)
    ensures db.paymentRequests == old(db.paymentRequests) && db.profileRequests == old(db.profileRequests)
    ensures db.signupRequests == old(db.signupRequests)
  {
    var lower := ToLower(b.email.value);
    var existing := SameEmail(db.clients, uid, lower, db.nextId);
    if existing.Some? {
      var saved := SaveSignup(db.clients[existing.value], b, hash);
      if saved.None? {
        return Fail(500, "Server error");
      }
      WriteClient(db, saved.value);
      r := Ok(201, existing.value);
    } else {
      var id := db.nextId;
      var saved := SaveJoined(id, uid, b, hash);
      if saved.None? {
        return Fail(500, "Server error");
      }
      InsertKeepsStore(db, saved.value);
      db.Commit(db.invoices, db.clients[id := saved.value], db.users, db.paymentRequests,
                db.profileRequests, db.signupRequests, id + 1);
      r := Ok(201, id);
    }
  }

  /** Lines 49-73 for a resolved business: the upsert, then the audit
      record under the next id. */
  method SignUpFor(db: Db, uid: Id, b: SignupBody, hash: string -> string) returns (r: Response<Id>, ghost sid: Id)
    requires db.Valid() && Truthy(b.name) && b.email.Some? && b.password.Some?
    modifies db
    ensures db.Valid()
    ensures old(db.Reconciled()) ==> db.Reconciled()
    ensures r.Fail? ==> unchanged(db) && r.code == 500
    ensures r.Ok? ==>
      r.code == 201 && r.value in db.clients && db.clients[r.value].userId == uid
      && db.clients[r.value].email == ToLower(b.email.value)
      && sid + 1 == db.nextId && sid >= old(db.nextId)
      && db.signupRequests == old(db.signupRequests)[sid := Audit(sid, b, r.value)]
    ensures var x := UpsertTarget(old(db.clients), old(db.nextId), uid, b);
      (r.Fail? <==> Persisted(x, true, hash).None?)
      && (r.Ok? ==> r.value == x.id && db.clients == old(db.clients)[x.id := Persisted(x, true, hash).value])
    ensures SignupHistory(old(db.signupRequests), db.signupRequests)
    ensures db.invoices == old(db.invoices) && db.users == old(db.users)
    ensures db.paymentRequests == old(db.paymentRequests) && db.profileRequests == old(db.profileRequests)
  {
    sid := 0;
    r := UpsertClient(db, uid, b, hash);
    if r.Fail? {
      return;
    }
    var x := db.clients[r.value];
    AuditValid(x, b, db.nextId, r.value);
    sid := db.nextId;
    ghost var before := db.signupRequests;
    assert before == old(db.signupRequests);
    SignupSteps(before, sid, Audit(sid, b, r.value));
    RecordAudit(db, b, r.value);
  }

  /** `POST /public/signup`: 400 on the validators or when no business can
      be resolved; otherwise the upsert (500 when the client schema refuses
      it) and the audit record; 201 with the client's id. */
  method Signup(db: Db, b: SignupBody, isEmail: string -> bool, env: Env, hash: string -> string)
    returns (r: Response<Id>, ghost sid: Id)
    requires db.Valid()
    modifies db
    ensures db.Valid()
    ensures old(db.Reconciled()) ==> db.Reconciled()
    ensures r.Fail? ==> unchanged(db) && r.code in {400, 500}
    ensures r.Fail? && r.code == 400 <==>
      !SignupBodyOk(b, isEmail)
      || !Resolution(old(db.users), old(db.nextId), b.businessUserId, b.businessEmail, env, true).Business?
    ensures r.Fail? && r.code == 500 <==>
      SignupBodyOk(b, isEmail) &&
      var t := Resolution(old(db.users), old(db.nextId), b.businessUserId, b.businessEmail, env, true);
      t.Business? && Persisted(UpsertTarget(old(db.clients), old(db.nextId), t.id, b), true, hash).None?
    ensures r.Ok? ==>
      var t := Resolution(old(db.users), old(db.nextId), b.businessUserId, b.businessEmail, env, true);
      t.Business? && SignupBodyOk(b, isEmail) &&
      var x := UpsertTarget(old(db.clients), old(db.nextId), t.id, b);
      r.value == x.id && db.clients == old(db.clients)[x.id := Persisted(x, true, hash).value]
    ensures r.Ok? ==>
      SignupBodyOk(b, isEmail) && r.code == 201
      && var t := Resolution(old(db.users), old(db.nextId), b.businessUserId, b.businessEmail, env, true);
      t.Business? && r.value in db.clients && db.clients[r.value].userId == t.id
      && db.clients[r.value].email == ToLower(b.email.value)
      && sid + 1 == db.nextId && sid >= old(db.nextId)
      && db.signupRequests == old(db.signupRequests)[sid := Audit(sid, b, r.value)]
    ensures SignupHistory(old(db.signupRequests), db.signupRequests)
    ensures db.invoices == old(db.invoices) && db.users == old(db.users)
    ensures db.paymentRequests == old(db.paymentRequests) && db.profileRequests == old(db.profileRequests)
  {
    sid := 0;
    if !SignupBodyOk(b, isEmail) {
      r := Fail(400, "Validation failed");
      return;
    }
    var target := ResolveTarget(db, b.businessUserId, b.businessEmail, env, true);
    if target.BusinessNotFound? {
      r := Fail(400, "Business not found");
      return;
    }
    if target.NoBusiness? {
      r := Fail(400, "No business is configured to receive signups");
      return;
    }
    r, sid := SignUpFor(db, target.id, b, hash);
  }

  // ---------------------------------------------------------------------------
  // The request state machines

  /** From one state of the profile requests to the next: no request
      disappears, and one that changes goes from pending to a decision.
      Approved and rejected are final. */
  predicate ProfileHistory(before: map<Id, ProfileRequest>, after: map<Id, ProfileRequest>)
  {
    forall id :: id in before ==>
      id in after && (after[id] == before[id] || (before[id].status == Pending && after[id].status != Pending))
  }

  /** The same for signup requests: a pending request may only become
      converted, and a converted one is final. */
  predicate SignupHistory(before: map<Id, SignupRequest>, after: map<Id, SignupRequest>)
  {
    forall id :: id in before ==>
      id in after
      && (after[id] == before[id] || (before[id].status == SignupPending && after[id].status == Converted))
  }

  /** The steps the handlers take: a new request, a decision on a pending
      one. */
  lemma ProfileSteps(m: map<Id, ProfileRequest>, pid: Id, x: ProfileRequest)
    ensures pid !in m ==> ProfileHistory(m, m[pid := x])
    ensures pid in m && m[pid].status == Pending && x.status != Pending ==> ProfileHistory(m, m[pid := x])
  {
  }

  lemma SignupSteps(m: map<Id, SignupRequest>, sid: Id, x: SignupRequest)
    ensures sid !in m ==> SignupHistory(m, m[sid := x])
    ensures sid in m && m[sid].status == SignupPending && x.status == Converted ==> SignupHistory(m, m[sid := x])
  {
  }

  /** Over any run of handlers a decided profile request stays as it was. */
  lemma {:induction false} DecidedProfileIsFinal(runs: seq<map<Id, ProfileRequest>>, pid: Id)
    requires |runs| > 0 && pid in runs[0] && runs[0][pid].status != Pending
    requires forall k :: 0 <= k < |runs| - 1 ==> ProfileHistory(runs[k], runs[k + 1])
    ensures pid in runs[|runs| - 1] && runs[|runs| - 1][pid] == runs[0][pid]
    decreases |runs|
  {
    if |runs| > 1 {
      var init := runs[..|runs| - 1];
      forall k | 0 <= k < |init| - 1
        ensures ProfileHistory(init[k], init[k + 1])
      {
        assert init[k] == runs[k] && init[k + 1] == runs[k + 1];
      }
      DecidedProfileIsFinal(init, pid);
      assert ProfileHistory(runs[|runs| - 2], runs[|runs| - 1]);
    }
  }

  /** Over any run of handlers a converted signup request stays as it was,
      still pointing at the same client. */
  lemma {:induction false} ConvertedIsFinal(runs: seq<map<Id, SignupRequest>>, sid: Id)
    requires |runs| > 0 && sid in runs[0] && runs[0][sid].status == Converted
    requires forall k :: 0 <= k < |runs| - 1 ==> SignupHistory(runs[k], runs[k + 1])
    ensures sid in runs[|runs| - 1] && runs[|runs| - 1][sid] == runs[0][sid]
    decreases |runs|
  {
    if |runs| > 1 {
      var init := runs[..|runs| - 1];
      forall k | 0 <= k < |init| - 1
        ensures SignupHistory(init[k], init[k + 1])
      {
        assert init[k] == runs[k] && init[k + 1] == runs[k + 1];
      }
      ConvertedIsFinal(init, sid);
      assert SignupHistory(runs[|runs| - 2], runs[|runs| - 1]);
    }
  }

  // ---------------------------------------------------------------------------
  // POST /public/profile-request

  datatype ProfileBody = ProfileBody(
    businessUserId: Option<Id>, businessEmail: Option<string>, name: Option<string>,
    email: Option<string>, company: Option<string>, phone: Option<string>,
    address: Option<Address>, taxId: Option<string>, notes: Option<string>)

  /** The validators: a non-empty name, an e-mail, and a business e-mail
      when one is given. */
  predicate ProfileBodyOk(b: ProfileBody, isEmail: string -> bool)
  {
    Truthy(b.name) && b.email.Some? && isEmail(b.email.value)
    && (b.businessEmail.Some? ==> isEmail(b.businessEmail.value))
  }

  /** The request `ProfileRequest.create` stores for business `uid`. */
  function Submitted(id: Id, uid: Id, b: ProfileBody): (pr: ProfileRequest)
    requires b.name.Some? && b.email.Some?
    ensures pr.id == id && pr.businessUserId == uid && pr.status == Pending
    ensures pr.name == Trim(b.name.value) && pr.email == ToLower(b.email.value)
    ensures pr.taxId == b.taxId && pr.address == b.address
  {
    ToLowerIsLower(b.email.value);
    NewProfileRequest(id, uid, b.name.value, ToLower(b.email.value), b.company, b.phone, b.address,
                      b.taxId, b.notes)
  }

  /** A new profile request under the next id keeps every collection valid
      under the raised allocator. */
  lemma SubmitKeepsStore(db: Db, pr: ProfileRequest)
    requires db.Valid() && pr.id == db.nextId && ProfileRequestValid(pr)
    ensures ProfileRequestsOk(db.profileRequests[pr.id := pr], db.nextId + 1)
    ensures InvoicesOk(db.invoices, db.nextId + 1) && ClientsOk(db.clients, db.nextId + 1)
    ensures UsersOk(db.users, db.nextId + 1) && PaymentRequestsOk(db.paymentRequests, db.nextId + 1)
    ensures SignupRequestsOk(db.signupRequests, db.nextId + 1)
  {
    AllocatorGrows(db.invoices, db.clients, db.users, db.paymentRequests, db.profileRequests,
                   db.signupRequests, db.nextId, db.nextId + 1);
  }

  /** `POST /public/profile-request`, lines 83-121: 400 on the validators,
      on an unknown business e-mail or when neither a business id nor an
      e-mail is given (there is no fallback here); a request the schema
      refuses (its trimmed name empty) is a 500; otherwise the pending
      request is stored under the next id (201). */
  method SubmitProfileRequest(db: Db, b: ProfileBody, isEmail: string -> bool, env: Env) returns (r: Response<Id>)
    requires db.Valid()
    modifies db
    ensures db.Valid()
    ensures old(db.Reconciled()) ==> db.Reconciled()
    ensures r.Fail? ==> unchanged(db) && r.code in {400, 500}
    ensures !ProfileBodyOk(b, isEmail) ==> r.Fail? && r.code == 400
    ensures ProfileBodyOk(b, isEmail) ==>
      var t := Resolution(old(db.users), old(db.nextId), b.businessUserId, b.businessEmail, env, false);
      (!t.Business? ==> r.Fail? && r.code == 400)
      && (t.Business? ==>
            var pr := Submitted(old(db.nextId), t.id, b);
            (!ProfileRequestValid(pr) ==> r.Fail? && r.code == 500)
            && (ProfileRequestValid(pr) ==>
                  r == Ok(201, old(db.nextId)) && db.nextId == old(db.nextId) + 1
                  && db.profileRequests == old(db.profileRequests)[old(db.nextId) := pr]))
    ensures ProfileHistory(old(db.profileRequests), db.profileRequests)
    ensures db.invoices == old(db.invoices) && db.clients == old(db.clients) && db.users == old(db.users)
    ensures db.paymentRequests == old(db.paymentRequests) && db.signupRequests == old(db.signupRequests)
  {
    if !ProfileBodyOk(b, isEmail) {
      return Fail(400, "Validation failed");
    }
    var target := ResolveTarget(db, b.businessUserId, b.businessEmail, env, false);
    if target.BusinessNotFound? {
      return Fail(400, "Business not found");
    }
    if target.NoBusiness? {
      return Fail(400, "Business id or email is required");
    }
    var id := db.nextId;
    var pr := Submitted(id, target.id, b);
    if !ProfileRequestValid(pr) {
      return Fail(500, "Server error");
    }
    SubmitKeepsStore(db, pr);
    ProfileSteps(db.profileRequests, id, pr);
    db.Commit(db.invoices, db.clients, db.users, db.paymentRequests,
              db.profileRequests[id := pr], db.signupRequests, id + 1);
    r := Ok(201, id);
  }

  // ---------------------------------------------------------------------------
  // Reviewing profile requests

  /** `ProfileRequest.findOne({ _id, businessUserId, status: 'pending' })`. */
  predicate PendingFor(requests: map<Id, ProfileRequest>, pid: Id, uid: Id)
  {
    pid in requests && requests[pid].businessUserId == uid && requests[pid].status == Pending
  }

  /** The client an approval creates: copied from the request (tax id and
      address included), active and not approved. */
  function FromProfile(id: Id, uid: Id, pr: ProfileRequest): (c: Client)
    ensures c.id == id && c.userId == uid && c.name == Trim(pr.name) && c.email == ToLower(pr.email)
    ensures c.taxId == pr.taxId && c.address == pr.address
    ensures c.status == Active && !c.isApproved && c.password.None?
    ensures c.totalInvoiced == 0.0 && c.totalOutstanding == 0.0
  {
    NewClient(id, uid, pr.name, pr.email, pr.phone, pr.company, pr.address).(taxId := pr.taxId)
  }

  /** Reviewing a pending request keeps the request collection valid. */
  lemma ReviewKeepsRequests(requests: map<Id, ProfileRequest>, top: nat, pid: Id, st: RequestStatus, now: Time, uid: Id)
    requires ProfileRequestsOk(requests, top) && pid in requests && st != Pending
    ensures ProfileRequestsOk(requests[pid := ProfileReviewed(requests[pid], st, now, uid)], top)
  {
  }

  /** Loads the request and reviews it in place. */
  method Review(pr: ProfileRequest, st: RequestStatus, now: Time, uid: Id) returns (x: ProfileRequest)
    ensures x == ProfileReviewed(pr, st, now, uid)
  {
    var doc := new ProfileRequestDocument(pr);
    doc.Review(st, now, uid);
    x := doc.Record();
  }

  /** `POST /profile-requests/:id/approve`, lines 135-162: 404 unless the
      request is pending and addressed to the caller; a client the schema
      refuses is a 500 with nothing written; otherwise the client is
      created under the next id and the request is marked approved, with
      the time and the reviewer. */
  method ApproveProfileRequest(db: Db, uid: Id, pid: Id, now: Time) returns (r: Response<Id>)
    requires db.Valid()
    modifies db
    ensures db.Valid()
    ensures old(db.Reconciled()) ==> db.Reconciled()
    ensures r.Fail? ==> unchanged(db) && r.code in {404, 500}
    ensures !PendingFor(old(db.profileRequests), pid, uid) ==> r.Fail? && r.code == 404
    ensures PendingFor(old(db.profileRequests), pid, uid) ==>
      var c := FromProfile(old(db.nextId), uid, old(db.profileRequests)[pid]);
      (!ClientSchemaValid(c) ==> r.Fail? && r.code == 500)
      && (ClientSchemaValid(c) ==>
            r == Ok(200, old(db.nextId)) && db.nextId == old(db.nextId) + 1
            && db.clients == old(db.clients)[old(db.nextId) := c]
            && db.profileRequests
               == old(db.profileRequests)[pid := ProfileReviewed(old(db.profileRequests)[pid], Approved, now, uid)])
    ensures ProfileHistory(old(db.profileRequests), db.profileRequests)
    ensures db.invoices == old(db.invoices) && db.users == old(db.users)
    ensures db.paymentRequests == old(db.paymentRequests) && db.signupRequests == old(db.signupRequests)
  {
    if !PendingFor(db.profileRequests, pid, uid) {
      return Fail(404, "Request not found");
    }
    var pr := db.profileRequests[pid];
    var id := db.nextId;
    var doc := new ClientDocument(FromProfile(id, uid, pr), true);
    // The new client has no password, so the hook has nothing to hash.
    var valid := doc.Save(hash := s => s);
    if !valid {
      return Fail(500, "Server error");
    }
    var c := doc.Record();
    var reviewed := Review(pr, Approved, now, uid);
    InsertKeepsStore(db, c);
    ReviewKeepsRequests(db.profileRequests, id + 1, pid, Approved, now, uid);
    ProfileSteps(db.profileRequests, pid, reviewed);
    db.Commit(db.invoices, db.clients[id := c], db.users, db.paymentRequests,
              db.profileRequests[pid := reviewed], db.signupRequests, id + 1);
    r := Ok(200, id);
  }

  /** `POST /profile-requests/:id/reject`, lines 165-178: 404 unless the
      request is pending and addressed to the caller; otherwise only the
      request changes, to rejected with the time and the reviewer. */
  method RejectProfileRequest(db: Db, uid: Id, pid: Id, now: Time) returns (r: Response<Id>)
    requires db.Valid()
    modifies db
    ensures db.Valid()
    ensures old(db.Reconciled()) ==> db.Reconciled()
    ensures r.Fail? ==> unchanged(db) && r.code == 404
    ensures r.Fail? <==> !PendingFor(old(db.profileRequests), pid, uid)
    ensures r.Ok? ==>
      r == Ok(200, pid)
      && db.profileRequests
         == old(db.profileRequests)[pid := ProfileReviewed(old(db.profileRequests)[pid], Rejected, now, uid)]
    ensures db.invoices == old(db.invoices) && db.clients == old(db.clients) && db.users == old(db.users)
    ensures db.paymentRequests == old(db.paymentRequests) && db.signupRequests == old(db.signupRequests)
    ensures db.nextId == old(db.nextId)
    ensures ProfileHistory(old(db.profileRequests), db.profileRequests)
  {
    if !PendingFor(db.profileRequests, pid, uid) {
      return Fail(404, "Request not found");
    }
    var reviewed := Review(db.profileRequests[pid], Rejected, now, uid);
    ReviewKeepsRequests(db.profileRequests, db.nextId, pid, Rejected, now, uid);
    ProfileSteps(db.profileRequests, pid, reviewed);
    db.Commit(db.invoices, db.clients, db.users, db.paymentRequests,
              db.profileRequests[pid := reviewed], db.signupRequests, db.nextId);
    r := Ok(200, pid);
  }

  // ---------------------------------------------------------------------------
  // POST /signup-requests/:id/convert

  /** The client a conversion creates: the request's contact details,
      active and not approved. */
  function FromSignup(id: Id, uid: Id, s: SignupRequest): (c: Client)
    ensures c.id == id && c.userId == uid && c.name == Trim(s.name) && c.email == ToLower(s.email)
    ensures c.status == Active && !c.isApproved && c.password.None?
    ensures c.totalInvoiced == 0.0 && c.totalOutstanding == 0.0
  {
    NewClient(id, uid, s.name, s.email, s.phone, s.company, None)
  }

  /** Converting a request keeps the request collection valid. */
  lemma ConvertKeepsRequests(requests: map<Id, SignupRequest>, top: nat, sid: Id, cid: Id)
    requires SignupRequestsOk(requests, top) && sid in requests
    ensures SignupRequestsOk(requests[sid := MarkConverted(requests[sid], cid)], top)
  {
  }

  /** Loads the request and converts it in place. */
  method Convert(s: SignupRequest, cid: Id) returns (x: SignupRequest)
    ensures x == MarkConverted(s, cid)
  {
    var doc := new SignupRequestDocument(s);
    doc.Convert(cid);
    x := doc.Record();
  }

  /** `POST /signup-requests/:id/convert`, lines 208-232: 404 unless the
      request exists and is pending (of any business); 400 when the
      caller already has a client with the request's address; a client the
      schema refuses is a 500; otherwise the client is created under the
      next id and the request is marked converted, pointing at it. */
  method ConvertSignupRequest(db: Db, uid: Id, sid: Id) returns (r: Response<Id>)
    requires db.Valid()
    modifies db
    ensures db.Valid()
    ensures old(db.Reconciled()) ==> db.Reconciled()
    ensures r.Fail? ==> unchanged(db) && r.code in {400, 404, 500}
    ensures sid !in old(db.signupRequests) || old(db.signupRequests)[sid].status != SignupPending ==>
      r.Fail? && r.code == 404
    ensures sid in old(db.signupRequests) && old(db.signupRequests)[sid].status == SignupPending ==>
      var s := old(db.signupRequests)[sid];
      (SameEmail(old(db.clients), uid, s.email, old(db.nextId)).Some? ==> r.Fail? && r.code == 400)
      && (SameEmail(old(db.clients), uid, s.email, old(db.nextId)).None? ==>
            var c := FromSignup(old(db.nextId), uid, s);
            (!ClientSchemaValid(c) ==> r.Fail? && r.code == 500)
            && (ClientSchemaValid(c) ==>
                  r == Ok(200, old(db.nextId)) && db.nextId == old(db.nextId) + 1
                  && db.clients == old(db.clients)[old(db.nextId) := c]
                  && db.signupRequests == old(db.signupRequests)[sid := MarkConverted(s, old(db.nextId))]))
    ensures SignupHistory(old(db.signupRequests), db.signupRequests)
    ensures db.invoices == old(db.invoices) && db.users == old(db.users)
    ensures db.paymentRequests == old(db.paymentRequests) && db.profileRequests == old(db.profileRequests)
  {
    if sid !in db.signupRequests || db.signupRequests[sid].status != SignupPending {
      return Fail(404, "Request not found");
    }
    var s := db.signupRequests[sid];
    var existing := SameEmail(db.clients, uid, s.email, db.nextId);
    if existing.Some? {
      return Fail(400, "Client with this email already exists");
    }
    var id := db.nextId;
    var doc := new ClientDocument(FromSignup(id, uid, s), true);
    // The new client has no password, so the hook has nothing to hash.
    var valid := doc.Save(hash := p => p);
    if !valid {
      return Fail(500, "Server error");
    }
    StoreConversion(db, doc.Record(), sid);
    r := Ok(200, id);
  }

  /** The writes of a conversion: the new client under the next id and the
      request marked converted to it. */
  method StoreConversion(db: Db, c: Client, sid: Id)
    requires db.Valid() && c.id == db.nextId && ClientSchemaValid(c)
    requires c.totalInvoiced == 0.0 && c.totalOutstanding == 0.0
    requires sid in db.signupRequests && db.signupRequests[sid].status == SignupPending
    modifies db
    ensures db.Valid()
    ensures old(db.Reconciled()) ==> db.Reconciled()
    ensures db.nextId == old(db.nextId) + 1 && db.clients == old(db.clients)[c.id := c]
    ensures db.signupRequests == old(db.signupRequests)[sid := MarkConverted(old(db.signupRequests)[sid], c.id)]
    ensures SignupHistory(old(db.signupRequests), db.signupRequests)
    ensures db.invoices == old(db.invoices) && db.users == old(db.users)
    ensures db.paymentRequests == old(db.paymentRequests) && db.profileRequests == old(db.profileRequests)
  {
    var converted := Convert(db.signupRequests[sid], c.id);
    InsertKeepsStore(db, c);
    ConvertKeepsRequests(db.signupRequests, c.id + 1, sid, c.id);
    SignupSteps(db.signupRequests, sid, converted);
    db.Commit(db.invoices, db.clients[c.id := c], db.users, db.paymentRequests,
              db.profileRequests, db.signupRequests[sid := converted], c.id + 1);
  }
}
