/** The invoice document of backend/models/Invoice.js: line items, payment and
    sending history, the schema bounds Mongoose checks on every save, the
    `pre('validate')` numbering hook and the `pre('save')` status machine. */
module InvoiceModel {
  import opened Common

  datatype InvoiceStatus = Draft | Sent | Viewed | Paid | Overdue | Cancelled

  function StatusName(s: InvoiceStatus): string
  {
    match s
    case Draft => "draft"
    case Sent => "sent"
    case Viewed => "viewed"
    case Paid => "paid"
    case Overdue => "overdue"
    case Cancelled => "cancelled"
  }

  /** The status enum check: the status a string names, if any. */
  function ParseStatus(s: string): (r: Option<InvoiceStatus>)
    ensures r.Some? ==> StatusName(r.value) == s
  {
    if s == "draft" then Some(Draft)
    else if s == "sent" then Some(Sent)
    else if s == "viewed" then Some(Viewed)
    else if s == "paid" then Some(Paid)
    else if s == "overdue" then Some(Overdue)
    else if s == "cancelled" then Some(Cancelled)
    else None
  }

  lemma ParseStatusName(st: InvoiceStatus)
    ensures ParseStatus(StatusName(st)) == Some(st)
  {
  }

  /** A stored line: `amount` and `taxAmount` are derived by the routes. */
  datatype LineItem = LineItem(description: string, quantity: real, rate: real,
                               amount: real, taxRate: real, taxAmount: real)

  /** One entry of the append-only `paymentHistory`. */
  datatype Payment = Payment(amount: real, paymentDate: Time, paymentMethod: PaymentMethod,
                             transactionId: Option<string>, notes: Option<string>)

  /** One entry of `sentHistory`; `sendMethod` (the source field `method`) is checked against its enum on save. */
  datatype SentRecord = SentRecord(sentDate: Time, sentTo: Option<string>, sendMethod: string)

  datatype Invoice = Invoice(
    id: Id, userId: Id, clientId: Id, invoiceNumber: string, status: InvoiceStatus,
    issueDate: Time, dueDate: Time, items: seq<LineItem>,
    subtotal: real, taxAmount: real, discountAmount: real, totalAmount: real,
    currency: string, notes: Option<string>,
    paymentHistory: seq<Payment>, sentHistory: seq<SentRecord>,
    paidAmount: real, remainingAmount: real, paidAt: Option<Time>, createdAt: Time,
    paymentTerms: string, internalNotes: Option<string>, template: string)

  const SendMethods: set<string> := {"email", "download", "print"}

  /** The line-item bounds: a description, quantity at least 0.01, a
      non-negative rate and a tax rate between 0 and 100. */
  predicate ItemValid(it: LineItem)
  {
    it.description != "" && it.quantity >= 0.01 && it.rate >= 0.0
    && 0.0 <= it.taxRate <= 100.0
  }

  /** What Mongoose validates before a save; `paidAmount` and
      `remainingAmount` have no bound at all. */
  predicate SchemaValid(inv: Invoice)
  {
    inv.invoiceNumber != ""
    && (forall k :: 0 <= k < |inv.items| ==> ItemValid(inv.items[k]))
    && inv.subtotal >= 0.0 && inv.taxAmount >= 0.0
    && inv.discountAmount >= 0.0 && inv.totalAmount >= 0.0
    && (inv.notes.Some? ==> |inv.notes.value| <= 1000)
    && (inv.internalNotes.Some? ==> |inv.internalNotes.value| <= 1000)
    && (forall k :: 0 <= k < |inv.sentHistory| ==> inv.sentHistory[k].sendMethod in SendMethods)
  }

  /** A document as it sits in the collection: it passed validation and the
      save hook has set its remaining balance. */
  predicate Stored(inv: Invoice)
  {
    SchemaValid(inv) && inv.remainingAmount == inv.totalAmount - inv.paidAmount
  }

  /** The `pre('save')` hook on a value: recompute the balance, force `paid`
      once the total is covered, and let only a `sent` invoice fall overdue. */
  function SaveHook(inv: Invoice, now: Time): (r: Invoice)
    ensures r.remainingAmount == inv.totalAmount - inv.paidAmount
    ensures r == inv.(status := r.status, remainingAmount := r.remainingAmount, paidAt := r.paidAt)
    ensures inv.paidAmount >= inv.totalAmount ==> r.status == Paid
    ensures inv.paidAmount >= inv.totalAmount && inv.status != Paid ==> r.paidAt == Some(now)
    ensures r.status != inv.status ==>
              r.status == Paid || (r.status == Overdue && inv.status == Sent && inv.dueDate < now)
    ensures r.status == Overdue && inv.status != Overdue ==> inv.paidAmount < inv.totalAmount
    ensures inv.status == Paid ==> r.status == Paid && r.paidAt == inv.paidAt
    ensures r.paidAt != inv.paidAt ==> r.status == Paid && inv.status != Paid
    ensures inv.status == Sent && inv.dueDate < now && inv.paidAmount < inv.totalAmount ==> r.status == Overdue
    ensures r.status == Paid && inv.status != Paid ==> inv.paidAmount >= inv.totalAmount
  {
    var balanced := inv.(remainingAmount := inv.totalAmount - inv.paidAmount);
    if inv.paidAmount >= inv.totalAmount && inv.status != Paid then
      balanced.(status := Paid, paidAt := Some(now))
    else if inv.dueDate < now && inv.status == Sent && inv.paidAmount < inv.totalAmount then
      balanced.(status := Overdue)
    else
      balanced
  }

  /** Saving twice at the same instant changes nothing the second time. */
  lemma SaveHookIdempotent(inv: Invoice, now: Time)
    ensures SaveHook(SaveHook(inv, now), now) == SaveHook(inv, now)
  {
  }

  /** The hook leaves the validated fields alone, so a valid document stays
      valid and becomes a stored one. */
  lemma SaveHookStores(inv: Invoice, now: Time)
    requires SchemaValid(inv)
    ensures Stored(SaveHook(inv, now))
  {
    var r := SaveHook(inv, now);
    assert r.items == inv.items && r.sentHistory == inv.sentHistory;
  }

  /** The hook does not read the invoice number. */
  lemma SaveHookKeepsNumber(inv: Invoice, number: string, now: Time)
    ensures SaveHook(inv.(invoiceNumber := number), now) == SaveHook(inv, now).(invoiceNumber := number)
  {
  }

  /** The prefix the numbering hook falls back to. */
  function PrefixOr(envPrefix: Option<string>): string
  {
    if envPrefix.Some? && envPrefix.value != "" then envPrefix.value else "INV"
  }

  /** The `pre('validate')` hook on a value: a new document without a number
      gets `${prefix}-${count + 1}` zero-padded to four digits. */
  function Numbered(inv: Invoice, isNew: bool, envPrefix: Option<string>, count: nat): (r: Invoice)
    ensures r == inv.(invoiceNumber := r.invoiceNumber)
    ensures inv.invoiceNumber != "" || !isNew ==> r == inv
    ensures isNew && inv.invoiceNumber == "" ==> r.invoiceNumber == FormatInvoiceNumber(PrefixOr(envPrefix), count + 1)
  {
    if isNew && inv.invoiceNumber == "" then
      inv.(invoiceNumber := FormatInvoiceNumber(PrefixOr(envPrefix), count + 1))
    else inv
  }

  /** The Mongoose document a route loads or builds and then saves. */
  class InvoiceDocument {
    var id: Id
    var userId: Id
    var clientId: Id
    var invoiceNumber: string
    var status: InvoiceStatus
    var issueDate: Time
    var dueDate: Time
    var items: seq<LineItem>
    var subtotal: real
    var taxAmount: real
    var discountAmount: real
    var totalAmount: real
    var currency: string
    var notes: Option<string>
    var paymentHistory: seq<Payment>
    var sentHistory: seq<SentRecord>
    var paidAmount: real
    var remainingAmount: real
    var paidAt: Option<Time>
    var createdAt: Time
    var paymentTerms: string
    var internalNotes: Option<string>
    var template: string
    var isNew: bool

    function Record(): Invoice
      reads this
    {
      Invoice(id, userId, clientId, invoiceNumber, status, issueDate, dueDate, items,
              subtotal, taxAmount, discountAmount, totalAmount, currency, notes,
              paymentHistory, sentHistory, paidAmount, remainingAmount, paidAt, createdAt,
              paymentTerms, internalNotes, template)
    }

    /** `new Invoice({...})` (fresh) or a document read back by a query. */
    constructor (r: Invoice, created: bool)
      ensures Record() == r && isNew == created
    {
      id, userId, clientId, invoiceNumber, status := r.id, r.userId, r.clientId, r.invoiceNumber, r.status;
      issueDate, dueDate, items := r.issueDate, r.dueDate, r.items;
      subtotal, taxAmount, discountAmount, totalAmount := r.subtotal, r.taxAmount, r.discountAmount, r.totalAmount;
      currency, notes := r.currency, r.notes;
      paymentHistory, sentHistory := r.paymentHistory, r.sentHistory;
      paidAmount, remainingAmount, paidAt, createdAt := r.paidAmount, r.remainingAmount, r.paidAt, r.createdAt;
      paymentTerms, internalNotes, template := r.paymentTerms, r.internalNotes, r.template;
      isNew := created;
    }

    /** `invoiceSchema.pre('validate')`. */
    method PreValidate(envPrefix: Option<string>, count: nat)
      modifies this
      ensures Record() == Numbered(old(Record()), old(isNew), envPrefix, count)
      ensures isNew == old(isNew)
    {
      if isNew && invoiceNumber == "" {
        var prefix := PrefixOr(envPrefix);
        invoiceNumber := FormatInvoiceNumber(prefix, count + 1);
      }
    }

    /** `invoiceSchema.pre('save')`. */
    method PreSave(now: Time)
      modifies this
      ensures Record() == SaveHook(old(Record()), now)
      ensures isNew == old(isNew)
    {
      remainingAmount := totalAmount - paidAmount;
      if paidAmount >= totalAmount && status != Paid {
        status := Paid;
        paidAt := Some(now);
      } else if dueDate < now && status == Sent && paidAmount < totalAmount {
        status := Overdue;
      }
    }

    /** `save()` up to the write: numbering, validation, then the status
        machine; `valid` is false when validation rejects the document (the
        route then answers 500 and nothing is written). */
    method Save(now: Time, envPrefix: Option<string>, count: nat) returns (valid: bool)
      modifies this
      ensures valid == SchemaValid(Numbered(old(Record()), old(isNew), envPrefix, count))
      ensures valid ==> Record() == SaveHook(Numbered(old(Record()), old(isNew), envPrefix, count), now)
      ensures valid ==> Stored(Record())
      ensures isNew == old(isNew)
    {
      PreValidate(envPrefix, count);
      valid := SchemaValid(Record());
      if valid {
        ghost var before := Record();
        PreSave(now);
        SaveHookStores(before, now);
      }
    }
  }
}
