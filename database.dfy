/** The document store the route handlers share: one collection per model,
    an id allocator standing in for fresh ObjectIds, the structural
    invariants every handler keeps, and the client ledger invariant (each
    client's `totalInvoiced` and `totalOutstanding` are the sums over its
    invoices) together with the sum lemmas the handlers need to keep it. */
module Database {
  import opened Common
  import opened InvoiceModel
  import opened Records

  /** The process environment the routes read. */
  datatype Env = Env(invoicePrefix: Option<string>, defaultBusinessId: Option<Id>, businessEmail: Option<string>)

  function Total(inv: Invoice): real { inv.totalAmount }
  function Remaining(inv: Invoice): real { inv.remainingAmount }
  function PaidOf(inv: Invoice): real { inv.paidAmount }

  /** Σ f over the invoices of client `cid`, in collection order. */
  function SumFor(s: seq<Invoice>, cid: Id, f: Invoice -> real): real
  {
    if s == [] then 0.0
    else SumFor(s[..|s| - 1], cid, f) + (if s[|s| - 1].clientId == cid then f(s[|s| - 1]) else 0.0)
  }

  lemma SumForAppend(s: seq<Invoice>, x: Invoice, cid: Id, f: Invoice -> real)
    ensures SumFor(s + [x], cid, f) == SumFor(s, cid, f) + (if x.clientId == cid then f(x) else 0.0)
  {
    assert (s + [x])[..|s|] == s;
  }

  /** Replacing one invoice by another of the same client moves that
      client's sum by the difference and no other client's sum. */
  lemma {:induction false} SumForUpdate(s: seq<Invoice>, i: nat, x: Invoice, cid: Id, f: Invoice -> real)
    requires i < |s| && x.clientId == s[i].clientId
    ensures SumFor(s[i := x], cid, f)
         == SumFor(s, cid, f) + (if x.clientId == cid then f(x) - f(s[i]) else 0.0)
  {
    var n := |s| - 1;
    if i == n {
      assert s[i := x][..n] == s[..n];
    } else {
      assert s[i := x][..n] == s[..n][i := x];
      SumForUpdate(s[..n], i, x, cid, f);
    }
  }

  /** Removing an invoice takes its share out of its client's sum. */
  lemma {:induction false} SumForRemove(s: seq<Invoice>, i: nat, cid: Id, f: Invoice -> real)
    requires i < |s|
    ensures SumFor(s[..i] + s[i + 1..], cid, f)
         == SumFor(s, cid, f) - (if s[i].clientId == cid then f(s[i]) else 0.0)
  {
    var n := |s| - 1;
    if i == n {
      assert s[..i] + s[i + 1..] == s[..n];
    } else {
      var t := s[..n];
      assert s[..i] + s[i + 1..] == (t[..i] + t[i + 1..]) + [s[n]];
      SumForAppend(t[..i] + t[i + 1..], s[n], cid, f);
      SumForRemove(t, i, cid, f);
    }
  }

  /** A client that owns no invoice has a zero sum. */
  lemma {:induction false} SumForAbsent(s: seq<Invoice>, cid: Id, f: Invoice -> real)
    requires forall i :: 0 <= i < |s| ==> s[i].clientId != cid
    ensures SumFor(s, cid, f) == 0.0
  {
    if s != [] {
      SumForAbsent(s[..|s| - 1], cid, f);
    }
  }

  /** No two stored invoices share an id. */
  predicate IdsDistinct(s: seq<Invoice>)
  {
    forall i, j :: 0 <= i < j < |s| ==> s[i].id != s[j].id
  }

  /** The unique index on (userId, invoiceNumber). */
  predicate NumbersUnique(s: seq<Invoice>)
  {
    forall i, j :: 0 <= i < j < |s| ==>
      s[i].userId != s[j].userId || s[i].invoiceNumber != s[j].invoiceNumber
  }

  /** Whether an insert of (userId, number) would hit the unique index. */
  predicate NumberTaken(s: seq<Invoice>, userId: Id, number: string)
  {
    exists i :: 0 <= i < |s| && s[i].userId == userId && s[i].invoiceNumber == number
  }

  /** Inserting a number the index does not hold keeps the index unique. */
  lemma InsertKeepsNumbersUnique(s: seq<Invoice>, x: Invoice)
    requires NumbersUnique(s) && !NumberTaken(s, x.userId, x.invoiceNumber)
    ensures NumbersUnique(s + [x])
  {
    forall i, j | 0 <= i < j < |s| + 1
      ensures (s + [x])[i].userId != (s + [x])[j].userId || (s + [x])[i].invoiceNumber != (s + [x])[j].invoiceNumber
    {
      if j == |s| {
        assert (s + [x])[i] == s[i];
      }
    }
  }

  /** Replacing an invoice by one with the same id, owner and number keeps
      both indexes. */
  lemma ReplaceKeepsIndexes(s: seq<Invoice>, k: nat, x: Invoice)
    requires k < |s| && IdsDistinct(s) && NumbersUnique(s)
    requires x.id == s[k].id && x.userId == s[k].userId && x.invoiceNumber == s[k].invoiceNumber
    ensures IdsDistinct(s[k := x]) && NumbersUnique(s[k := x])
  {
    forall i | 0 <= i < |s| ensures s[k := x][i].id == s[i].id && s[k := x][i].userId == s[i].userId
      && s[k := x][i].invoiceNumber == s[i].invoiceNumber {
    }
  }

  /** Removing an invoice keeps both indexes. */
  lemma RemoveKeepsIndexes(s: seq<Invoice>, k: nat)
    requires k < |s| && IdsDistinct(s) && NumbersUnique(s)
    ensures IdsDistinct(s[..k] + s[k + 1..]) && NumbersUnique(s[..k] + s[k + 1..])
  {
    var t := s[..k] + s[k + 1..];
    forall i | 0 <= i < |t| ensures t[i] == s[if i < k then i else i + 1] {
    }
  }

  predicate InvoicesOk(s: seq<Invoice>, nextId: nat)
  {
    (forall i :: 0 <= i < |s| ==> Stored(s[i]) && s[i].id < nextId)
    && IdsDistinct(s) && NumbersUnique(s)
  }

  predicate ClientsOk(m: map<Id, Client>, nextId: nat)
  {
    forall id :: id in m ==> m[id].id == id && id < nextId && ClientSchemaValid(m[id])
  }

  predicate UsersOk(m: map<Id, User>, nextId: nat)
  {
    forall id :: id in m ==> m[id].id == id && id < nextId
  }

  predicate PaymentRequestsOk(m: map<Id, PaymentRequest>, nextId: nat)
  {
    forall id :: id in m ==> m[id].id == id && id < nextId && m[id].invoiceId < nextId && PaymentRequestValid(m[id])
  }

  predicate ProfileRequestsOk(m: map<Id, ProfileRequest>, nextId: nat)
  {
    forall id :: id in m ==> m[id].id == id && id < nextId && ProfileRequestValid(m[id])
  }

  predicate SignupRequestsOk(m: map<Id, SignupRequest>, nextId: nat)
  {
    forall id :: id in m ==> m[id].id == id && id < nextId && SignupRequestValid(m[id])
  }

  /** The client ledger: every invoice belongs to a stored client of the same
      business, and each client's `totalInvoiced` and `totalOutstanding` are
      the sums of `totalAmount` and `remainingAmount` over its invoices. */
  predicate Ledger(s: seq<Invoice>, clients: map<Id, Client>)
  {
    (forall i :: 0 <= i < |s| ==> s[i].clientId in clients && clients[s[i].clientId].userId == s[i].userId)
    && forall cid :: cid in clients ==>
         clients[cid].totalInvoiced == SumFor(s, cid, Total)
         && clients[cid].totalOutstanding == SumFor(s, cid, Remaining)
  }

  /** A payment request names the client its invoice belongs to. */
  predicate RequestsCoherent(s: seq<Invoice>, requests: map<Id, PaymentRequest>)
  {
    forall p, i :: p in requests && 0 <= i < |s| && s[i].id == requests[p].invoiceId
      ==> s[i].clientId == requests[p].clientId
  }

  /** Raising the allocator keeps every id bound. */
  lemma AllocatorGrows(invoices: seq<Invoice>, clients: map<Id, Client>, users: map<Id, User>,
                       prs: map<Id, PaymentRequest>, profiles: map<Id, ProfileRequest>,
                       signups: map<Id, SignupRequest>, n: nat, m: nat)
    requires n <= m
    requires InvoicesOk(invoices, n) && ClientsOk(clients, n) && UsersOk(users, n)
    requires PaymentRequestsOk(prs, n) && ProfileRequestsOk(profiles, n) && SignupRequestsOk(signups, n)
    ensures InvoicesOk(invoices, m) && ClientsOk(clients, m) && UsersOk(users, m)
    ensures PaymentRequestsOk(prs, m) && ProfileRequestsOk(profiles, m) && SignupRequestsOk(signups, m)
  {
  }

  lemma AppendKeepsInvoicesOk(s: seq<Invoice>, nextId: nat, x: Invoice)
    requires InvoicesOk(s, nextId)
    requires Stored(x) && x.id == nextId && !NumberTaken(s, x.userId, x.invoiceNumber)
    ensures InvoicesOk(s + [x], nextId + 1)
  {
    InsertKeepsNumbersUnique(s, x);
    var t := s + [x];
    forall i | 0 <= i < |s| ensures t[i] == s[i] {
    }
  }

  /** A new invoice has an id no payment request names yet. */
  lemma AppendKeepsCoherence(s: seq<Invoice>, requests: map<Id, PaymentRequest>, x: Invoice)
    requires RequestsCoherent(s, requests)
    requires forall p :: p in requests ==> requests[p].invoiceId < x.id
    ensures RequestsCoherent(s + [x], requests)
  {
    var t := s + [x];
    forall p, i | p in requests && 0 <= i < |t| && t[i].id == requests[p].invoiceId
      ensures t[i].clientId == requests[p].clientId
    {
      assert i < |s|;
      assert t[i] == s[i];
    }
  }

  /** `Invoice.findOne({ _id: id, userId })`: the position of the invoice. */
  function FindOwned(s: seq<Invoice>, id: Id, uid: Id): (r: Option<nat>)
    ensures r.Some? ==> r.value < |s| && s[r.value].id == id && s[r.value].userId == uid
    ensures r.None? ==> forall i :: 0 <= i < |s| ==> s[i].id != id || s[i].userId != uid
  {
    IndexWhere(s, (inv: Invoice) => inv.id == id && inv.userId == uid)
  }

  /** `Invoice.findById(id)`. */
  function FindById(s: seq<Invoice>, id: Id): (r: Option<nat>)
    ensures r.Some? ==> r.value < |s| && s[r.value].id == id
    ensures r.None? ==> forall i :: 0 <= i < |s| ==> s[i].id != id
  {
    IndexWhere(s, (inv: Invoice) => inv.id == id)
  }

  /** `findOne(filter)` on a collection keyed by id: the document of
      smallest id at or above `from` and below `top` that satisfies `p`
      (ids grow with insertion, so this is the first match in insertion
      order). */
  function FindOne<V>(m: map<Id, V>, p: V -> bool, from: nat, top: nat): (r: Option<Id>)
    ensures r.Some? ==> r.value in m && p(m[r.value]) && from <= r.value < top
    ensures r.Some? ==> forall id :: from <= id < r.value && id in m ==> !p(m[id])
    ensures r.None? ==> forall id :: from <= id < top && id in m ==> !p(m[id])
    decreases top - from
  {
    if from >= top then None
    else if from in m && p(m[from]) then Some(from)
    else FindOne(m, p, from + 1, top)
  }

  /** `User.findOne().sort({ createdAt: 1 })`: the earliest-created user
      among the ids in [from, top), the smaller id on a tie. */
  function Earliest(users: map<Id, User>, from: nat, top: nat): (r: Option<Id>)
    ensures r.Some? ==> r.value in users && from <= r.value < top
    ensures r.Some? ==> forall id :: from <= id < top && id in users ==> users[r.value].createdAt <= users[id].createdAt
    ensures r.None? ==> forall id :: from <= id < top ==> id !in users
    decreases top - from
  {
    if from >= top then None
    else
      var rest := Earliest(users, from + 1, top);
      if from !in users then rest
      else if rest.None? || users[from].createdAt <= users[rest.value].createdAt then Some(from)
      else rest
  }

  /** Writing back a saved invoice under its own id, owner and number keeps
      the collection's invariants. */
  lemma ReplaceKeepsInvoicesOk(s: seq<Invoice>, nextId: nat, k: nat, x: Invoice)
    requires InvoicesOk(s, nextId) && k < |s| && Stored(x)
    requires x.id == s[k].id && x.userId == s[k].userId && x.invoiceNumber == s[k].invoiceNumber
    ensures InvoicesOk(s[k := x], nextId)
  {
    ReplaceKeepsIndexes(s, k, x);
  }

  lemma RemoveKeepsInvoicesOk(s: seq<Invoice>, nextId: nat, k: nat)
    requires InvoicesOk(s, nextId) && k < |s|
    ensures InvoicesOk(s[..k] + s[k + 1..], nextId)
  {
    RemoveKeepsIndexes(s, k);
    var t := s[..k] + s[k + 1..];
    forall i | 0 <= i < |t| ensures t[i] == s[if i < k then i else i + 1] {
    }
  }

  /** An invoice written back for the same client keeps every request coherent. */
  lemma ReplaceKeepsCoherence(s: seq<Invoice>, requests: map<Id, PaymentRequest>, k: nat, x: Invoice)
    requires RequestsCoherent(s, requests) && k < |s|
    requires x.id == s[k].id && x.clientId == s[k].clientId
    ensures RequestsCoherent(s[k := x], requests)
  {
    var t := s[k := x];
    forall p, i | p in requests && 0 <= i < |t| && t[i].id == requests[p].invoiceId
      ensures t[i].clientId == requests[p].clientId
    {
      assert s[i].id == t[i].id && s[i].clientId == t[i].clientId;
    }
  }

  lemma RemoveKeepsCoherence(s: seq<Invoice>, requests: map<Id, PaymentRequest>, k: nat)
    requires RequestsCoherent(s, requests) && k < |s|
    ensures RequestsCoherent(s[..k] + s[k + 1..], requests)
  {
    var t := s[..k] + s[k + 1..];
    forall p, i | p in requests && 0 <= i < |t| && t[i].id == requests[p].invoiceId
      ensures t[i].clientId == requests[p].clientId
    {
      assert t[i] == s[if i < k then i else i + 1];
    }
  }

  /** Writing back a client under its own id that still passes its schema
      keeps the client collection's invariant. */
  lemma ClientWriteKeepsClientsOk(m: map<Id, Client>, top: nat, c: Client)
    requires ClientsOk(m, top) && c.id in m && ClientSchemaValid(c)
    ensures ClientsOk(m[c.id := c], top)
  {
  }

  /** Writing back a client with its owner and ledger totals unchanged keeps
      the ledger. */
  lemma ClientFieldsKeepLedger(s: seq<Invoice>, clients: map<Id, Client>, c: Client)
    requires c.id in clients && c.userId == clients[c.id].userId
    requires c.totalInvoiced == clients[c.id].totalInvoiced && c.totalOutstanding == clients[c.id].totalOutstanding
    ensures Ledger(s, clients) ==> Ledger(s, clients[c.id := c])
  {
  }

  /** A client under an unused id with an empty ledger keeps the ledger:
      no invoice names it, so its sums are zero. */
  lemma NewClientKeepsLedger(s: seq<Invoice>, clients: map<Id, Client>, c: Client)
    requires Ledger(s, clients) && c.id !in clients
    requires c.totalInvoiced == 0.0 && c.totalOutstanding == 0.0
    ensures Ledger(s, clients[c.id := c])
  {
    SumForAbsent(s, c.id, Total);
    SumForAbsent(s, c.id, Remaining);
  }

  /** Moves a client's `totalInvoiced` and `totalOutstanding`. */
  function Adjust(c: Client, invoiced: real, outstanding: real): Client
  {
    c.(totalInvoiced := c.totalInvoiced + invoiced, totalOutstanding := c.totalOutstanding + outstanding)
  }

  /** Writing back an invoice of the same client and moving that client's
      totals by the change in its amounts keeps the ledger. */
  lemma ReplaceKeepsLedger(s: seq<Invoice>, clients: map<Id, Client>, k: nat, x: Invoice, c: Client)
    requires Ledger(s, clients) && k < |s|
    requires x.clientId == s[k].clientId && x.userId == s[k].userId
    requires c.userId == clients[x.clientId].userId
    requires c.totalInvoiced == clients[x.clientId].totalInvoiced + (x.totalAmount - s[k].totalAmount)
    requires c.totalOutstanding == clients[x.clientId].totalOutstanding + (x.remainingAmount - s[k].remainingAmount)
    ensures Ledger(s[k := x], clients[x.clientId := c])
  {
    var after := clients[x.clientId := c];
    var t := s[k := x];
    forall i | 0 <= i < |t| ensures t[i].clientId in after && after[t[i].clientId].userId == t[i].userId {
    }
    forall cid | cid in after
      ensures after[cid].totalInvoiced == SumFor(t, cid, Total)
      ensures after[cid].totalOutstanding == SumFor(t, cid, Remaining)
    {
      SumForUpdate(s, k, x, cid, Total);
      SumForUpdate(s, k, x, cid, Remaining);
    }
  }

  /** Deleting an invoice and taking its amounts off its client keeps the ledger. */
  lemma RemoveKeepsLedger(s: seq<Invoice>, clients: map<Id, Client>, k: nat)
    requires Ledger(s, clients) && k < |s|
    ensures var cid := s[k].clientId;
      Ledger(s[..k] + s[k + 1..], clients[cid := Adjust(clients[cid], -s[k].totalAmount, -s[k].remainingAmount)])
  {
    var cid := s[k].clientId;
    var after := clients[cid := Adjust(clients[cid], -s[k].totalAmount, -s[k].remainingAmount)];
    var t := s[..k] + s[k + 1..];
    forall i | 0 <= i < |t| ensures t[i].clientId in after && after[t[i].clientId].userId == t[i].userId {
      assert t[i] == s[if i < k then i else i + 1];
    }
    forall c | c in after
      ensures after[c].totalInvoiced == SumFor(t, c, Total)
      ensures after[c].totalOutstanding == SumFor(t, c, Remaining)
    {
      SumForRemove(s, k, c, Total);
      SumForRemove(s, k, c, Remaining);
    }
  }

  class Db {
    var invoices: seq<Invoice>
    var clients: map<Id, Client>
    var users: map<Id, User>
    var paymentRequests: map<Id, PaymentRequest>
    var profileRequests: map<Id, ProfileRequest>
    var signupRequests: map<Id, SignupRequest>
    var nextId: nat

    /** What every handler keeps: each document passed its schema when it
        was saved, ids are keys and were handed out by the allocator, and
        the invoice index is unique. */
    ghost predicate Valid()
      reads this
    {
      InvoicesOk(invoices, nextId) && ClientsOk(clients, nextId) && UsersOk(users, nextId)
      && PaymentRequestsOk(paymentRequests, nextId) && ProfileRequestsOk(profileRequests, nextId)
      && SignupRequestsOk(signupRequests, nextId)
    }

    /** The client ledger agrees with the invoices, and every payment
        request names the client of its invoice. */
    ghost predicate Reconciled()
      reads this
    {
      Ledger(invoices, clients) && RequestsCoherent(invoices, paymentRequests)
    }

    /** An empty store with the given business users. */
    constructor (accounts: seq<User>)
      ensures Valid() && Reconciled()
      ensures invoices == [] && clients == map[] && paymentRequests == map[]
      ensures forall u :: u in accounts ==> u.id in users
    {
      invoices := [];
      clients := map[];
      paymentRequests := map[];
      profileRequests := map[];
      signupRequests := map[];
      var m: map<Id, User> := map[];
      var top: nat := 0;
      var k := 0;
      while k < |accounts|
        invariant 0 <= k <= |accounts|
        invariant forall id :: id in m ==> m[id].id == id && id < top
        invariant forall j :: 0 <= j < k ==> accounts[j].id in m
      {
        m := m[accounts[k].id := accounts[k]];
        if accounts[k].id >= top {
          top := accounts[k].id + 1;
        }
        k := k + 1;
      }
      users := m;
      nextId := top;
    }

    /** Writes a new state of every collection at once; each handler proves
        the invariants of the values it writes. */
    method Commit(inv: seq<Invoice>, cl: map<Id, Client>, us: map<Id, User>, prs: map<Id, PaymentRequest>,
                  profiles: map<Id, ProfileRequest>, signups: map<Id, SignupRequest>, top: nat)
      requires InvoicesOk(inv, top) && ClientsOk(cl, top) && UsersOk(us, top)
      requires PaymentRequestsOk(prs, top) && ProfileRequestsOk(profiles, top) && SignupRequestsOk(signups, top)
      modifies this
      ensures Valid()
      ensures invoices == inv && clients == cl && users == us && paymentRequests == prs
      ensures profileRequests == profiles && signupRequests == signups && nextId == top
      ensures Reconciled() <==> Ledger(inv, cl) && RequestsCoherent(inv, prs)
    {
      invoices, clients, users, paymentRequests := inv, cl, us, prs;
      profileRequests, signupRequests, nextId := profiles, signups, top;
    }

    /** A fresh ObjectId. */
    method AllocateId() returns (id: Id)
      modifies this
      ensures id == old(nextId) && nextId == id + 1
      ensures invoices == old(invoices) && clients == old(clients) && users == old(users)
      ensures paymentRequests == old(paymentRequests) && profileRequests == old(profileRequests)
      ensures signupRequests == old(signupRequests)
    {
      id := nextId;
      nextId := nextId + 1;
    }
  }
}
