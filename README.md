# Invoice Generator and Tracker: a verified model of the invoicing core

This project models the server side of an invoicing application for small
businesses, together with the browser helpers that price an invoice on the
client side. A business user keeps clients, issues invoices to them, records
payments and sees a dashboard. Clients can use a portal: they activate an
account from an invitation, sign in, see their invoices and submit payment
requests, which the business approves or rejects. Prospective clients sign
up or send a profile request, which the business turns into a client. A
product catalogue holds priced items with optional numeric SKUs.

The model is in Dafny and is organised by the program's own files:

| module | file | models |
|---|---|---|
| `Common` | common.dfy | payment-method enum, JS string built-ins (`trim`, case mapping, `padStart`), folds (`reduce`, `filter`) |
| `Helpers` | helpers.dfy | the browser helpers of `src/utils/helpers.js` |
| `Pricing` | pricing.dfy | the line-pricing `map` of the create and update routes |
| `InvoiceModel` | invoice.dfy | the invoice schema, its `pre('validate')` numbering and `pre('save')` status machine, as a document class |
| `Database` | database.dfy | the store (class `Db`): collections, unique indexes, the client ledger invariant, `findOne` |
| `InvoiceCreate`, `InvoiceUpdate`, `InvoiceLifecycle` | invoice_create.dfy, invoice_update.dfy, invoice_lifecycle.dfy | the invoice routes: create, update, delete, send, record payment, statistics |
| `Records` | records.dfy | the client, payment-request, profile-request and signup-request schemas, their setters and hooks, as document classes |
| `ClientPortal` | portal.dfy | the client portal routes |
| `ClientRoutes` | client_routes.dfy | the business's client routes |
| `Onboarding` | signup.dfy | public signup, profile requests and signup-request conversion |
| `Catalog` | product.dfy | the product schema, its SKU hook and unique keys |
| `Ranking` | ranking.dfy | the descending sorts and `slice(0, k)` used by the dashboard |
| `Dashboard` | dashboard.dfy | the dashboard overview and analytics routes |

Amounts are exact reals, times are milliseconds since the epoch (`Time`),
and document ids are natural numbers handed out by the store in increasing
order. Route handlers are methods on the store that return a `Response`:
either `Ok` with the success code or `Fail` with the error code. Two
invariants are carried through every handler:

- `Db.Valid()`: ids are keys, every stored document passes its schema, and the
  (userId, invoiceNumber) index is unique.
- `Db.Reconciled()`: each client's `totalInvoiced` and `totalOutstanding` equal
  the sums over its invoices, and every payment request names its invoice's
  client.

Every handler keeps `Valid()`. Every handler except the invoice update keeps
`Reconciled()`; the update breaks it, and a lemma shows how.

Where the code does something other than the documented behaviour, the
model follows the code:

- The client update route (`PUT /clients/:id`) copies the raw `taxId` before
  its format check can run, so that check never fires for a supplied tax id.
- The discount of an invoice update is `req.body.discountAmount || stored`.
  An explicit 0 prices the invoice with the stored discount, but the 0 is what
  gets stored.

In one place the model departs from the code. The "unique when a SKU is
present" product key is declared as a sparse compound index, which does not
behave that way. `Catalog.SkuIndexClash` models the declared index, and
`Catalog.SkulessProductsCollide` shows it refusing a second SKU-less product.
`Catalog.ProductStore.Create` admits products by the intended key
(`Catalog.SkuClash`) instead (see Findings).

## Model

| member | source | states |
|---|---|---|
| Helpers.Clamped | src/utils/helpers.js:32-46 | `Math.max(0, safeNum(v))` is never negative, keeps a finite non-negative value and reads a non-finite or negative one as 0 |
| Helpers.CalculateInvoiceTotals | src/utils/helpers.js:31-60 | subtotal and tax are never negative, the returned discount is the sanitised one, and total = subtotal + tax − discount with no clamping |
| Helpers.TotalsWithoutItems | src/utils/helpers.js:37-52 | a missing item list prices like an empty one: subtotal and tax 0 and total −discount |
| Helpers.TaxAtMostSubtotal | src/utils/helpers.js:43-50 | when every tax rate is at most 100%, the tax never exceeds the subtotal |
| Helpers.UnusableLineAddsNothing | src/utils/helpers.js:37-50 | a line whose quantity or rate is missing, non-finite or negative changes none of the totals |
| Helpers.GenerateInvoiceNumber | src/utils/helpers.js:26-28 | the number is the prefix ("INV" by default), a dash and digits that read back as the count; exactly four digits when the count is below 10000, otherwise no leading zero, so the padding adds zeros only up to four digits and never truncates |
| Helpers.ValidateEmailMatchesPattern | src/utils/helpers.js:63-66 | `validateEmail` holds exactly when the address is a non-empty part, one '@', a non-empty part, a '.' and a non-empty part, all without white space or '@' |
| Helpers.GetStatusColor | src/utils/helpers.js:69-79 | the colour is one of the five colours, and it is not "gray" exactly for sent, viewed, paid and overdue |
| Helpers.GetPaymentStatus | src/utils/helpers.js:82-86 | "unpaid" exactly when nothing is paid (even for a zero total), "paid" exactly when something is paid and it covers the total, otherwise "partial" |
| Helpers.GetDaysOverdue | src/utils/helpers.js:89-98 | 0 for a paid invoice or one not yet due; otherwise the whole days past due, rounded up |
| Common.ParseMethod | backend/routes/invoices.js:345-346 | `allowedMethods.includes(s)`: a method is found only for its own name |
| Common.ParseMethodName | backend/models/Invoice.js:126-129 | each of the seven payment methods is recognised by its name |
| Common.Trim | backend/routes/clients.js:75 | `trim` never lengthens a string and leaves no white space at either end |
| Common.TrimIdempotent | backend/routes/clients.js:75 | trimming twice is trimming once |
| Common.RemoveSpaces | backend/routes/clients.js:169 | `replace(/\s+/g, '')` leaves no white space and never lengthens the string; a single white-space character is removed and any other kept |
| Common.RemoveSpacesAppend | backend/routes/clients.js:169 | the removal distributes over concatenation, so the characters that are not white space are all kept, in order |
| Common.RemoveSpacesKeepsSpaceless | backend/routes/clients.js:169 | a string without white space is left as it is |
| Common.ToLower | backend/routes/clients.js:135 | `toLowerCase` on the ASCII letters: A–Z become a–z, every other character is kept, and the length is kept |
| Common.ToUpper | backend/routes/clients.js:169 | `toUpperCase` on the ASCII letters: a–z become A–Z, every other character is kept, and the length is kept |
| Common.ToLowerIsLower | backend/models/Client.js:16-21 | the lowercased form is lowercase, and lowercasing it again changes nothing |
| Common.LowerIsFixed | backend/models/Client.js:19 | a lowercase string is its own lowercase form |
| Common.NatToString | backend/routes/invoices.js:145 | `String(n)` is a non-empty string of digits with no leading zero; it starts with '0' exactly when n is 0 |
| Common.NatToStringWidth | backend/routes/invoices.js:145 | `String(n)` has at most k digits exactly when n < 10^k |
| Common.NatToStringRoundTrip | backend/routes/invoices.js:145 | the digits of `String(n)` read back as `n` |
| Common.PadZeros | backend/routes/invoices.js:145 | `padStart(width, '0')` reaches the width, never truncates, keeps the string as its suffix and pads only with '0' |
| Common.PaddedRoundTrip | backend/routes/invoices.js:145 | `String(n).padStart(w, '0')` is all digits and reads back as `n` |
| Common.Filter | backend/routes/dashboard.js:18-20 | `filter` keeps exactly the elements that pass, and as many as pass |
| Common.FormatInvoiceNumber | backend/models/Invoice.js:174 | `${prefix}-${count}` padded: the prefix, a dash, and at least four digits that read back as the count |
| Common.FormatInvoiceNumberWidth | backend/models/Invoice.js:174 | `padStart(4, '0')` pads only up to four digits: a count below 10000 takes exactly four digits, a larger count its own digits with no leading zero |
| Common.FormatInvoiceNumberInjective | backend/models/Invoice.js:198 | two numbers with the same prefix are equal only for equal counts |
| Pricing.PricedLines | backend/routes/invoices.js:115-127 | the priced lines come one for one, in request order |
| Pricing.PricedLinesAt | backend/routes/invoices.js:115-127 | the line at each position is the request line there, with amount qty×rate and tax amount×(taxRate or 0)/100 |
| Pricing.PriceItems | backend/routes/invoices.js:112-127 | the accumulating `map` returns the priced lines, and its running totals end as the subtotal and tax of the request |
| Pricing.PricedLinesSum | backend/routes/invoices.js:115-127 | the stored subtotal and tax are the sums of the stored lines' amounts and taxes |
| Pricing.ServerTaxAtMostSubtotal | backend/routes/invoices.js:115-127 | with tax rates in [0, 100] and non-negative lines, 0 ≤ tax ≤ subtotal |
| Pricing.ServerMatchesBrowser | backend/routes/invoices.js:94-132 | on every line the create route accepts, the browser's `calculateInvoiceTotals` gives the route's subtotal, tax and total |
| InvoiceModel.ParseStatus | backend/models/Invoice.js:50-53 | the status enum: a status is found only for its own name |
| InvoiceModel.ParseStatusName | backend/models/Invoice.js:50-53 | each of the six statuses is recognised by its name |
| InvoiceModel.SaveHook | backend/models/Invoice.js:179-194 | remaining = total − paid; a covered invoice becomes paid (with `paidAt` now, unless it was paid already) from any status, and an invoice becomes paid only when covered; a sent, uncovered invoice past its due date becomes overdue, and no other invoice does; a paid invoice stays paid; nothing else changes |
| InvoiceModel.SaveHookIdempotent | backend/models/Invoice.js:179-194 | applying the hook twice at the same instant changes nothing the second time |
| InvoiceModel.SaveHookStores | backend/models/Invoice.js:66-88 | the hook leaves the validated fields alone, so a document that passed validation is stored with its balance and status consistent |
| InvoiceModel.SaveHookKeepsNumber | backend/models/Invoice.js:179-194 | the hook neither reads nor changes the invoice number |
| InvoiceModel.Numbered | backend/models/Invoice.js:170-177 | only a new document without a number gets one, `prefix-(count + 1)` zero-padded to four; nothing else changes |
| InvoiceModel.InvoiceDocument.constructor | backend/routes/invoices.js:147-164 | the document holds the given invoice and knows whether it is new |
| InvoiceModel.InvoiceDocument.PreValidate | backend/models/Invoice.js:170-177 | the document becomes its numbered form |
| InvoiceModel.InvoiceDocument.PreSave | backend/models/Invoice.js:179-194 | the document becomes its saved form under the status machine |
| InvoiceModel.InvoiceDocument.Save | backend/models/Invoice.js:170-194 | numbering, then validation, then the hook: the save succeeds exactly when the numbered document passes the schema, and it then stores a valid invoice |
| InvoiceCreate.ChooseNumber | backend/routes/invoices.js:143-182 | the stored number is `prefix-(count + 1)` unless the index already holds it, then `prefix-<timestamp>`; none when that collides too |
| InvoiceCreate.InvoiceFrom | backend/routes/invoices.js:147-164 | `new Invoice({...})`: the priced lines and their sums, the discount or 0, remaining = total, nothing paid, the given dates, `currency || 'INR'`, `paymentTerms || 'Net 30'`, `template || 'standard'`, and the notes and internal notes as given |
| InvoiceCreate.CreatedInvoice | backend/routes/invoices.js:147-182 | a successful save stores a valid invoice of the caller under the new id |
| InvoiceCreate.CreatedInvoiceShape | backend/routes/invoices.js:112-164 | what a create stores: the priced lines, total = subtotal + tax − discount, nothing paid, remaining = total |
| InvoiceCreate.CreatedInvoiceNumber | backend/routes/invoices.js:144-174 | the stored number is the counted one, or the timestamp fallback exactly when the index already holds the counted one |
| InvoiceCreate.OverDiscountFailsCreate | backend/routes/invoices.js:131-193 | a discount larger than the priced lines gives a negative total, which the schema refuses: the route answers 500, not 400 |
| InvoiceCreate.CreateKeepsStore | backend/routes/invoices.js:167-187 | appending the saved invoice and charging its client keeps the store valid and the ledger reconciled |
| InvoiceCreate.ChargeKeepsLedger | backend/routes/invoices.js:185-187 | adding the total to the client's `totalInvoiced` and `totalOutstanding` keeps every client's totals equal to its invoice sums |
| InvoiceCreate.SaveWithRetry | backend/routes/invoices.js:166-182 | a duplicate number is retried exactly once with the timestamp number; the save succeeds exactly when the document is valid and a free number is found |
| InvoiceCreate.BuildDraft | backend/routes/invoices.js:111-164 | the document is priced from the request and numbered from the caller's invoice count and prefix |
| InvoiceCreate.SaveNewInvoice | backend/routes/invoices.js:111-182 | building and saving yields exactly the invoice the create route stores |
| InvoiceCreate.CreateInvoice | backend/routes/invoices.js:82-195 | 400 with no write exactly for a bad body or a client the caller does not own; 500 with no write exactly when the save fails; no other failure, so otherwise the invoice is stored under a new id and its client charged; the store stays valid and reconciled |
| InvoiceUpdate.Patched | backend/routes/invoices.js:222-256 | with new lines the amounts are recomputed from the body's discount or the stored one, remaining = total − paid; every other given key is copied, the payment log, send log and `paidAt` included; `userId`, the number and the creation time are never overwritten |
| InvoiceUpdate.UpdatedInvoice | backend/routes/invoices.js:222-258 | the update writes the saved form of the patched invoice, or nothing when validation fails |
| InvoiceUpdate.CopyAmounts | backend/routes/invoices.js:222-249 | the document's amounts become the recomputed ones |
| InvoiceUpdate.AssignAmounts | backend/routes/invoices.js:244-248 | the five amount fields take the given values and nothing else changes |
| InvoiceUpdate.CopyFields | backend/routes/invoices.js:252-256 | the document takes every given key except `userId` and the number, the logs and terms included |
| InvoiceUpdate.AssignFields | backend/routes/invoices.js:252-256 | the assignments `invoice[key] = req.body[key]` for the invoice's own fields |
| InvoiceUpdate.AssignRecords | backend/routes/invoices.js:252-256 | the assignments for the given terms, template, internal notes, payment log, send log and `paidAt`; nothing else changes |
| InvoiceUpdate.SaveUpdate | backend/routes/invoices.js:251-258 | copying and saving yields exactly the invoice the update route writes |
| InvoiceUpdate.UpdateInvoice | backend/routes/invoices.js:198-266 | 400 exactly for bad dates or a paid invoice, 404 exactly for an invoice the caller does not own, 500 exactly when the status enum or the save refuses (all with no write); no other failure, so otherwise the updated invoice replaces the old one and no client changes |
| InvoiceUpdate.UpdateKeepsLedger | backend/routes/invoices.js:198-266 | an update that keeps the client and both amounts keeps the ledger reconciled |
| InvoiceUpdate.UpdateBreaksLedger | backend/routes/invoices.js:241-258 | an update that changes the total leaves the client's `totalInvoiced` off by the difference |
| InvoiceUpdate.ZeroDiscountUpdateDrifts | backend/routes/invoices.js:241-256 | new lines with an explicit discount of 0 are priced with the stored discount while 0 is stored, so the stored total is not subtotal + tax − discount |
| InvoiceUpdate.DueDateAloneUnchecked | backend/routes/invoices.js:201-209 | only a pair of dates is compared, so a due date alone can be moved before the stored issue date |
| InvoiceLifecycle.DeleteInvoice | backend/routes/invoices.js:269-296 | 404 for an invoice the caller does not own, 400 for a paid one (no write); otherwise the invoice is removed and its client's totals are reduced by its total and remaining amounts |
| InvoiceLifecycle.DeleteKeepsStore | backend/routes/invoices.js:282-290 | removing the invoice and refunding its client keeps the store valid |
| InvoiceLifecycle.DeleteKeepsLedger | backend/routes/invoices.js:282-290 | removing the invoice and refunding its client keeps the ledger and the payment requests coherent |
| InvoiceLifecycle.SentInvoice | backend/routes/invoices.js:307-313 | the send route saves the invoice with status sent and one more history entry (method "email" by default), through the hook |
| InvoiceLifecycle.SendAccepted | backend/models/Invoice.js:139-141 | a stored invoice can be sent exactly when the method is email, download or print, and a missing method is "email" |
| InvoiceLifecycle.SendOutcome | backend/routes/invoices.js:307-313 | there is no status guard: after a send the invoice is sent, unless it is fully paid, when the hook makes it paid again |
| InvoiceLifecycle.MarkSent | backend/routes/invoices.js:307-311 | the document gets status sent and the new history entry at the end |
| InvoiceLifecycle.SaveSent | backend/routes/invoices.js:307-313 | marking and saving yields exactly the sent invoice |
| InvoiceLifecycle.SendInvoice | backend/routes/invoices.js:299-319 | 404 for an invoice the caller does not own and 500 when validation fails (no write); otherwise the sent invoice replaces the old one and no client changes |
| InvoiceLifecycle.SendKeepsStore | backend/routes/invoices.js:307-313 | writing back the sent invoice keeps the store valid, and the ledger, since the amounts do not move |
| InvoiceLifecycle.NormalizeMethod | backend/routes/invoices.js:345-346 | an allowed method is kept, any other non-empty string becomes "other", and a missing one "cash" |
| InvoiceLifecycle.PaymentApplied | backend/routes/invoices.js:347-366 | validation never refuses the payment: the log grows by exactly one entry, paid grows and the balance falls by the amount |
| InvoiceLifecycle.PaymentSettles | backend/routes/invoices.js:340-366 | a payment no larger than the balance leaves a non-negative balance, and an unpaid invoice becomes paid exactly when the balance reaches 0 |
| InvoiceLifecycle.CancelledInvoiceTakesPayment | backend/routes/invoices.js:331-366 | payments have no status guard: a cancelled invoice takes a partial payment and stays cancelled |
| InvoiceLifecycle.PaymentKeepsLedger | backend/routes/invoices.js:356-366 | the payment and the client credit (`totalPaid +=`, `totalOutstanding -=`) keep the ledger reconciled |
| InvoiceLifecycle.PaymentKeepsStore | backend/routes/invoices.js:356-366 | the payment and the client credit keep the store valid, and reconciled when it was |
| InvoiceLifecycle.PushPayment | backend/routes/invoices.js:347-356 | the document gets the entry at the end of its log and its paid amount grows by the amount |
| InvoiceLifecycle.SavePayment | backend/routes/invoices.js:347-366 | pushing and saving yields exactly the paid invoice |
| InvoiceLifecycle.RecordPayment | backend/routes/invoices.js:322-374 | 400 for an amount under 0.01 or above the balance, 404 for an invoice the caller does not own (no write); otherwise the invoice takes the payment and its client is credited by the same amount |
| InvoiceLifecycle.StatusCountsBound | backend/routes/invoices.js:382-386 | the four status counts together never exceed the number of invoices |
| InvoiceLifecycle.TallyBalances | backend/routes/invoices.js:381-393 | over stored invoices the total splits into paid and outstanding, and the four status counts stay within the number of invoices |
| InvoiceLifecycle.OverviewBalances | backend/routes/invoices.js:377-400 | the statistics count every invoice of the caller and balance as above |
| Database.SumForUpdate | backend/routes/invoices.js:356-363 | replacing an invoice by one of the same client moves only that client's sum, by the difference |
| Database.SumForRemove | backend/routes/invoices.js:285-290 | removing an invoice takes its share out of its client's sum and no other |
| Database.InsertKeepsNumbersUnique | backend/models/Invoice.js:198 | inserting a number the index does not hold keeps (userId, invoiceNumber) unique |
| Database.ReplaceKeepsIndexes | backend/models/Invoice.js:198 | writing back an invoice under its own id, owner and number keeps both indexes |
| Database.RemoveKeepsIndexes | backend/routes/invoices.js:290 | deleting an invoice keeps both indexes |
| Database.FindOwned | backend/routes/invoices.js:211 | `findOne({ _id, userId })`: the position of the invoice with that id and owner, or none exactly when there is none |
| Database.FindById | backend/routes/invoices.js:283 | `findById`: the position of the invoice with that id, or none exactly when there is none |
| Database.FindOne | backend/routes/clients.js:137-140 | `findOne(filter)`: the smallest matching id, or none exactly when nothing matches |
| Database.Earliest | backend/routes/clientSignup.js:43 | `User.findOne().sort({ createdAt: 1 })`: a user created no later than any other, or none when there are no users |
| Database.AppendKeepsInvoicesOk | backend/routes/invoices.js:167-168 | a stored invoice under the next id with a free number keeps the invoice collection valid |
| Database.AppendKeepsCoherence | backend/routes/invoices.js:167-168 | a new invoice is named by no payment request, so every request stays coherent |
| Database.ReplaceKeepsInvoicesOk | backend/routes/invoices.js:258 | writing back a stored invoice under its own id, owner and number keeps the collection valid |
| Database.RemoveKeepsInvoicesOk | backend/routes/invoices.js:290 | deleting an invoice keeps the collection valid |
| Database.ReplaceKeepsCoherence | backend/routes/invoices.js:258 | an invoice written back for the same client keeps every payment request coherent |
| Database.RemoveKeepsCoherence | backend/routes/invoices.js:290 | deleting an invoice keeps every payment request coherent |
| Database.ClientWriteKeepsClientsOk | backend/models/Client.js:4-84 | writing back a client that passes its schema keeps the client collection valid |
| Database.ClientFieldsKeepLedger | backend/routes/clients.js:231-257 | writing back a client with its owner and ledger totals unchanged keeps the ledger |
| Database.NewClientKeepsLedger | backend/models/Client.js:70-81 | a new client starts with zero totals and no invoices, so the ledger stays reconciled |
| Database.ReplaceKeepsLedger | backend/routes/invoices.js:356-366 | writing back an invoice and moving its client's totals by the change in its amounts keeps the ledger |
| Database.RemoveKeepsLedger | backend/routes/invoices.js:282-290 | deleting an invoice and taking its amounts off its client keeps the ledger |
| Records.ClientSetters | backend/models/Client.js:10-29 | on assignment the name, phone and company are trimmed and the email lowercased; nothing else changes |
| Records.ClientEmailPassesBrowserCheck | backend/models/Client.js:20 | every address the client schema's pattern accepts also passes the browser's `validateEmail` |
| Records.NewClient | backend/models/Client.js:4-84 | a new client has the schema defaults: active, not approved, no password or token, zero totals, bank transfer (never "upi"), lowercase email, trimmed name |
| Records.ComparePassword | backend/models/Client.js:101-104 | false whenever no password is stored; otherwise the hash comparison |
| Records.PasswordHook | backend/models/Client.js:90-99 | only a modified, non-empty password is replaced by its hash; anything else is left alone |
| Records.Revoked | backend/routes/clients.js:331-333 | no password, not approved, no token; every other field kept |
| Records.Persisted | backend/models/Client.js:4-99 | a save writes something exactly when the schema accepts the client, and then the hooked record, which still passes the schema |
| Records.ClientDocument.constructor | backend/routes/clients.js:158-166 | the document holds the client; a new one counts its password as modified |
| Records.ClientDocument.SetPassword | backend/routes/clients.js:280 | the password becomes the given one and is marked modified |
| Records.ClientDocument.ApplyContact | backend/routes/clients.js:144-146 | name, phone and company are replaced only when given, through the trimming setters |
| Records.ClientDocument.ApplyEmail | backend/routes/clients.js:234 | the email is replaced, lowercased, only when given |
| Records.ClientDocument.ApplyTerms | backend/routes/clients.js:147-148 | the address and payment terms are replaced only when given |
| Records.ClientDocument.ApplyPreferences | backend/routes/clients.js:232-235 | notes, preferred method and tax id are replaced only when given |
| Records.ClientDocument.Grant | backend/routes/clients.js:183-186 | the client gets the password (marked modified) and is approved |
| Records.ClientDocument.Revoke | backend/routes/clients.js:331-333 | the client's portal access is taken away |
| Records.ClientDocument.SetStatus | backend/routes/clients.js:149 | only the status changes |
| Records.ClientDocument.Save | backend/models/Client.js:90-99 | the save succeeds exactly when the schema accepts the client, then applies the password hook; a refused save changes nothing |
| Records.NewPaymentRequest | backend/models/PaymentRequest.js:3-48 | a new request is pending and unreviewed, and it passes the schema when its amount is at least 0.01 |
| Records.NewProfileRequest | backend/models/ProfileRequest.js:3-21 | a new profile request is pending and unreviewed, with the name trimmed and the email lowercased |
| Records.ProfileReviewed | backend/routes/clientSignup.js:152-154 | a review sets the status, the time and the reviewer and nothing else, and keeps the request valid |
| Records.ProfileRequestDocument.constructor | backend/routes/clientSignup.js:137 | the document holds the request read back by the query |
| Records.ProfileRequestDocument.Review | backend/routes/clientSignup.js:169-172 | the document becomes the reviewed request |
| Records.NewSignupRequest | backend/models/SignupRequest.js:3-11 | the name is trimmed and the email lowercased; status and client reference are as given |
| Records.MarkConverted | backend/routes/clientSignup.js:224-226 | the request becomes converted and points at the client; nothing else changes and it stays valid |
| Records.SignupRequestDocument.constructor | backend/routes/clientSignup.js:210 | the document holds the request read back by `findById` |
| Records.SignupRequestDocument.Convert | backend/routes/clientSignup.js:224-226 | the document becomes the converted request |
| ClientPortal.InviteClient | backend/routes/clientPortal.js:31-53 | 404 exactly for an unknown client (no write); otherwise only its approval token changes, to the signed token |
| ClientPortal.Activated | backend/routes/clientPortal.js:77-80 | the activated account is approved, has no token and holds the hashed new password; nothing else changes |
| ClientPortal.ActivationIsSingleUse | backend/routes/clientPortal.js:72-80 | once an account is activated, the same token is refused |
| ClientPortal.ActivateAccount | backend/routes/clientPortal.js:56-87 | 400 exactly for a short password or a token that does not decode or is not the client's stored one (no write); otherwise the client is activated |
| ClientPortal.Login | backend/routes/clientPortal.js:90-136 | an address the `isEmail` check refuses is a 400; otherwise success exactly when some record with the lowercased email is an approved password match, and then the first such record newest first; 403 exactly when only unapproved records match; otherwise 400 |
| ClientPortal.FirstMatchIs | backend/routes/clientPortal.js:104-109 | the scan stops at the first approved match |
| ClientPortal.PortalInvoices | backend/routes/clientPortal.js:149-168 | the portal list holds exactly the business's invoices that are not cancelled and belong to a client record with the same email (or to the client itself) |
| ClientPortal.OwnInvoicesVisible | backend/routes/clientPortal.js:151-160 | a client always sees its own invoices that are not cancelled |
| ClientPortal.RequestMethod | backend/routes/clientPortal.js:194 | `req.body.method \|\| 'cash'`: an allowed method is kept, a missing one is cash |
| ClientPortal.FindForClient | backend/routes/clientPortal.js:180 | `findOne({ _id, clientId })`: the invoice with that id billed to the client, of any business, or none exactly when there is none |
| ClientPortal.SubmitKeepsStore | backend/routes/clientPortal.js:188-198 | a pending request for a stored invoice, for the invoice's own client, keeps the requests valid and coherent |
| ClientPortal.SubmitPaymentRequest | backend/routes/clientPortal.js:171-205 | 401 exactly without an approved session, 404 exactly for an invoice not billed to the client, 400 exactly for a refused body or an amount above the balance (no write); no other failure, so otherwise exactly one pending request is added and no invoice or client changes |
| ClientPortal.Reviewed | backend/routes/clientPortal.js:261-263 | a review sets the status, the time and the reviewer and nothing else |
| ClientPortal.ReviewKeepsStore | backend/routes/clientPortal.js:261-264 | reviewing a request keeps the requests valid and coherent |
| ClientPortal.ApprovalNote | backend/routes/clientPortal.js:248 | "Client submitted: " and the notes when there are notes, otherwise "Client-submitted payment approved" |
| ClientPortal.ApprovalIsDirectPayment | backend/routes/clientPortal.js:240-250 | approving a request applies the same payment as recording it directly with the request's amount, date, method and note |
| ClientPortal.ApproveKeepsStore | backend/routes/clientPortal.js:240-264 | the payment, the client credit and the review together keep the store valid, and reconciled when it was |
| ClientPortal.ApprovePaymentRequest | backend/routes/clientPortal.js:227-271 | 404 exactly for a request of another business or, for a pending one, a missing invoice; 400 exactly for one no longer pending or larger than the current balance (no write); no other failure, so otherwise the invoice takes the payment, the client is credited and the request approved |
| ClientPortal.RejectPaymentRequest | backend/routes/clientPortal.js:274-290 | 404 exactly for a request of another business, 400 exactly for one no longer pending (no write); otherwise only the request changes, to rejected |
| ClientRoutes.NormalizeTaxIsNormal | backend/routes/clients.js:169 | under the ASCII case map: the normal form has no white space and no ASCII lowercase letter, is no longer than the input, and normalising it again changes nothing |
| ClientRoutes.NormalizeTaxIgnoresCase | backend/routes/clients.js:169 | under the ASCII case map: spaces and ASCII letter case do not matter to the normal form |
| ClientRoutes.CheckTax | backend/routes/clients.js:168-180 | nothing to check for a missing or empty tax id; otherwise its normal form, accepted exactly when it is 15 of [0-9A-Z] and no user or client has it |
| ClientRoutes.SameEmail | backend/routes/clients.js:135-140 | the stored client of the business with that lowercased address, lowest id first, or none exactly when there is none |
| ClientRoutes.Revived | backend/routes/clients.js:143-153 | the given contact details and terms replace the stored ones, the client is active again and, on request, gets a password and approval |
| ClientRoutes.Fresh | backend/routes/clients.js:158-186 | the new client has the body's fields through the setters and defaults, the checked tax id, and portal access on request |
| ClientRoutes.ReviveKeepsStore | backend/routes/clients.js:143-154 | reviving keeps the store valid and the ledger whole |
| ClientRoutes.SaveRevival | backend/routes/clients.js:143-154 | loading, reviving and saving stores exactly the revived client |
| ClientRoutes.ReviveClient | backend/routes/clients.js:142-156 | the revival branch answers 200 and writes the revived client, or 500 with no write when the schema refuses it |
| ClientRoutes.InsertKeepsStore | backend/routes/clients.js:158-189 | a new client under the next id keeps the store valid, and with an empty ledger keeps it reconciled |
| ClientRoutes.InsertClient | backend/routes/clients.js:158-194 | the new-client branch answers 201 and stores the client under the next id, or 500 with no write when the schema refuses it |
| ClientRoutes.CreateClient | backend/routes/clients.js:125-199 | 400 exactly for the validators or, with no client of that address, a bad or used tax id; 500 exactly when the client schema refuses the revival or the new client; no other failure, so a client of the business with the same lowercased address is revived (200) and no second one is created, and otherwise a new client is created (201) |
| ClientRoutes.ArchivedIsRevived | backend/routes/clients.js:137-155 | archiving a client and adding it again revives the archived record instead of creating a second one |
| ClientRoutes.ParseClientStatus | backend/models/Client.js:57-61 | the client status enum: exactly "active" and "inactive" are recognised |
| ClientRoutes.Patched | backend/routes/clients.js:231-254 | only the allow-listed fields are copied, the email lowercased; on request the client gets access and is active again; nothing when an enum field holds an unknown value |
| ClientRoutes.UpdateSaved | backend/routes/clients.js:231-261 | the update writes nothing when an enum field or the schema refuses the patched client |
| ClientRoutes.UpdateSkipsTaxCheck | backend/routes/clients.js:232-247 | the raw tax id is copied before its check, so a tax id that is no GSTIN is stored as sent |
| ClientRoutes.PatchIdempotent | backend/routes/clients.js:231-257 | sending the same update twice leaves the client as the first one did |
| ClientRoutes.UpdateClient | backend/routes/clients.js:202-267 | 400 for the validators, 404 for a client of another business, 400 when the new address belongs to another client of the business, 500 when the save is refused (no write); otherwise the patched client is written and the ledger kept |
| ClientRoutes.SavePatch | backend/routes/clients.js:231-257 | loading, copying and saving stores exactly the patched client |
| ClientRoutes.Archived | backend/routes/clients.js:278-283 | the soft delete: inactive and without portal access, everything else (address, ledger) kept |
| ClientRoutes.RevokedStaysValid | backend/routes/clients.js:278-283 | neither the archive nor the revocation can fail the schema, and the password hook leaves both alone |
| ClientRoutes.RevokedCannotSignIn | backend/routes/clientPortal.js:104-109 | an archived or revoked client matches no password and cannot sign in |
| ClientRoutes.SaveRevocation | backend/routes/clients.js:278-283 | loading, revoking and saving cannot fail and stores the revoked client |
| ClientRoutes.ArchiveClient | backend/routes/clients.js:270-289 | 404 for a client of another business (no write); otherwise the client is archived and the ledger kept |
| ClientRoutes.RemoveCredentials | backend/routes/clients.js:327-340 | 404 for a client of another business (no write); otherwise the portal access is removed and the status kept |
| ClientRoutes.ClientSumIsLedgerSum | backend/routes/clients.js:301-307 | on a reconciled store the sums over a client's invoices are its ledger totals |
| ClientRoutes.ClientStats | backend/routes/clients.js:292-324 | 404 for a client of another business; otherwise the count, sums and status counts of its invoices, which on a reconciled store equal its ledger totals |
| ClientRoutes.Lookup | backend/routes/clients.js:73-106 | an empty search after trimming finds nothing; otherwise the merged entries of the matching clients and signup requests, in the `Map`'s insertion order |
| ClientRoutes.ClientOrder | backend/routes/clients.js:88-93 | the client loop sets each non-empty lowercased address once, at its first appearance: exactly the keys of the client entries, without repeats |
| ClientRoutes.SignupOrderKeys | backend/routes/clients.js:94-98 | the signup loop keeps the order a listing of the keys without repeats, and only adds at the end |
| ClientRoutes.MergedOrder | backend/routes/clients.js:88-100 | the merge's insertion order lists each key of the merge once, with the client addresses first in query order |
| ClientRoutes.ClientEntriesKeys | backend/routes/clients.js:88-93 | the client loop keys exactly the non-empty lowercased client addresses |
| ClientRoutes.ClientEntriesLast | backend/routes/clients.js:89-93 | each key holds the last client with that address |
| ClientRoutes.SignupEntriesKeep | backend/routes/clients.js:94-98 | the signup loop never replaces a key that is already present |
| ClientRoutes.SignupEntriesKeys | backend/routes/clients.js:94-98 | after the signup loop the keys are those already present and the non-empty lowercased signup addresses |
| ClientRoutes.SignupEntriesFirst | backend/routes/clients.js:94-98 | a key that was absent holds the first signup request with that address |
| ClientRoutes.ClientsTakePrecedence | backend/routes/clients.js:87-98 | an address some client has holds that client's entry, whatever the signup requests hold |
| ClientRoutes.SignupFillsGaps | backend/routes/clients.js:94-98 | an address no client has holds the first signup request with it |
| ClientRoutes.LookupKeys | backend/routes/clients.js:88-100 | a key is in the merge exactly when a client or a signup request has that non-empty lowercased address |
| Onboarding.OrKeep | backend/routes/clientSignup.js:52-54 | `v \|\| current`: the given value only when it is non-empty |
| Onboarding.Resolution | backend/routes/clientSignup.js:27-47 | the business is the explicit id; else the business email's user (none when unknown); else, for signups only, the configured id, the configured email's user or the earliest business |
| Onboarding.ResolveTarget | backend/routes/clientSignup.js:27-47 | the reassignments of `targetBusinessId` reach exactly the resolution |
| Onboarding.SignedUp | backend/routes/clientSignup.js:51-57 | the existing client takes the non-empty name, company and phone given, the new password, approval and active status |
| Onboarding.Joined | backend/routes/clientSignup.js:60-69 | the new client is approved and active and holds the password |
| Onboarding.Audit | backend/routes/clientSignup.js:73 | the audit record is converted and points at the client |
| Onboarding.AuditValid | backend/routes/clientSignup.js:73 | a saved signup client always yields an audit record that passes its schema |
| Onboarding.SaveSignup | backend/routes/clientSignup.js:51-58 | loading, signing up and saving stores exactly the signed-up client |
| Onboarding.SaveJoined | backend/routes/clientSignup.js:60-69 | `Client.create` stores exactly the joined client when the schema accepts it |
| Onboarding.AuditKeepsStore | backend/routes/clientSignup.js:73 | a new record under the next id keeps the store valid |
| Onboarding.RecordAudit | backend/routes/clientSignup.js:73 | exactly one converted signup request is added, under the next id |
| Onboarding.UpsertClient | backend/routes/clientSignup.js:49-70 | the business's client with the lowercased address is signed up again, or else a new one is created; it fails exactly when the client schema refuses that client, and then writes nothing; otherwise exactly that client is written, hashed |
| Onboarding.UpsertTarget | backend/routes/clientSignup.js:49-70 | the client the upsert saves is the business's, with the lowercased address and trimmed name, the new password, approved and active; it is the existing client (its totals kept) when one has the address, else a new one under the next id with zero totals |
| Onboarding.SignUpFor | backend/routes/clientSignup.js:49-73 | for a resolved business: fails (500) exactly when the client schema refuses the upserted client; otherwise exactly that client is written and one audit record added |
| Onboarding.Signup | backend/routes/clientSignup.js:12-80 | 400 exactly for the validators or when no business resolves, 500 exactly when the client schema refuses the upserted client (no write); otherwise 201 with exactly the upserted client written and one audit record; the ledger stays reconciled |
| Onboarding.DecidedProfileIsFinal | backend/routes/clientSignup.js:137 | over any run of handlers, a decided profile request stays as it was |
| Onboarding.ConvertedIsFinal | backend/routes/clientSignup.js:210-211 | over any run of handlers, a converted signup request stays as it was and points at the same client |
| Onboarding.Submitted | backend/routes/clientSignup.js:106-115 | the stored profile request is pending, for the resolved business, with the setters applied |
| Onboarding.SubmitKeepsStore | backend/routes/clientSignup.js:106-115 | a new profile request under the next id keeps the store valid |
| Onboarding.SubmitProfileRequest | backend/routes/clientSignup.js:83-121 | 400 for the validators, an unknown business email, or neither id nor email (no write); otherwise exactly one pending request is added |
| Onboarding.FromProfile | backend/routes/clientSignup.js:140-150 | the client copies the request's details, tax id and address, and is active and not approved |
| Onboarding.ReviewKeepsRequests | backend/routes/clientSignup.js:152-155 | reviewing a pending request keeps the requests valid |
| Onboarding.Review | backend/routes/clientSignup.js:152-155 | loading and reviewing stores exactly the reviewed request |
| Onboarding.ApproveProfileRequest | backend/routes/clientSignup.js:135-162 | 404 unless the request is pending and addressed to the caller (no write); 500 when the client schema refuses it; otherwise the client is created and the request approved |
| Onboarding.RejectProfileRequest | backend/routes/clientSignup.js:165-178 | 404 unless the request is pending and addressed to the caller (no write); otherwise only the request changes, to rejected |
| Onboarding.FromSignup | backend/routes/clientSignup.js:215-223 | the client has the request's contact details and is active and not approved |
| Onboarding.ConvertKeepsRequests | backend/routes/clientSignup.js:224-226 | converting a request keeps the requests valid |
| Onboarding.Convert | backend/routes/clientSignup.js:224-226 | loading and converting stores exactly the converted request |
| Onboarding.ConvertSignupRequest | backend/routes/clientSignup.js:208-232 | 404 unless the request exists and is pending, 400 when the caller already has a client with that address (no write); otherwise the client is created and the request points at it |
| Onboarding.StoreConversion | backend/routes/clientSignup.js:215-226 | the new client is stored under the next id and the request is marked converted to it; nothing else changes and the ledger stays reconciled |
| Catalog.NormalizeSku | backend/models/Product.js:24-38 | a present SKU is trimmed; a blank one becomes unset, one with a non-digit is refused, digits are kept |
| Catalog.HookAgreesWithValidator | backend/models/Product.js:17-38 | the hook refuses exactly the trimmed SKUs the validator refuses, and what it lets through the validator accepts |
| Catalog.NormalizeSkuIdempotent | backend/models/Product.js:24-38 | normalising a normalised SKU changes nothing |
| Catalog.Draft | backend/models/Product.js:3-13 | the new product has the name and SKU through their setters, tax rate and quantity 0, unit "unit" and active by default |
| Catalog.Finalized | backend/models/Product.js:17-38 | a save runs the hook and then the validators, stores nothing when either refuses, and changes only the SKU |
| Catalog.FinalizedIdempotent | backend/models/Product.js:24-38 | saving a stored product again stores the same product |
| Catalog.ProductDocument.PreValidate | backend/models/Product.js:24-38 | the document becomes its normalised form, or is left as it was and invalidated |
| Catalog.ProductDocument.Validate | backend/models/Product.js:17-38 | `validate()` is the hook, then the validators |
| Catalog.SkulessProductsCollide | backend/models/Product.js:21 | two valid products of one business without a SKU, with different names, collide on the declared index but not on the intended key |
| Catalog.SkuClashNeedsSku | backend/models/Product.js:21 | on the intended key only products of one business with the same present SKU clash; the relation is symmetric and implies the declared one |
| Catalog.ProductStore.Create | backend/models/Product.js:15-21 | nothing is stored when the hook or the validators refuse or a unique key collides; otherwise the product is stored under the next id |
| Catalog.InsertKeepsCatalogue | backend/models/Product.js:15-21 | an admitted valid product under a fresh id keeps names and SKUs unique per business |
| Ranking.SortDescPerm | backend/routes/dashboard.js:211 | the descending sort is a permutation of its input |
| Ranking.SortDescSorted | backend/routes/dashboard.js:211 | the descending sort puts the largest key first |
| Ranking.SortDescSameElements | backend/routes/dashboard.js:211 | the sort keeps every element and adds none |
| Ranking.TopKSpec | backend/routes/dashboard.js:30-32 | `sort` then `slice(0, k)`: as many as there are up to k, drawn from the input, largest first |
| Ranking.TopKIsTop | backend/routes/dashboard.js:64-67 | nothing left out of the first k has a larger key than anything kept |
| Dashboard.SummaryBalances | backend/routes/dashboard.js:16-27 | the revenue splits into paid and outstanding, the outstanding into the overdue amount and the rest; the status counts stay within the total and the active clients within the clients |
| Dashboard.ClientsOf | backend/routes/dashboard.js:13 | `Client.find({ userId })`: exactly the business's clients |
| Dashboard.RecentSpec | backend/routes/dashboard.js:29-32 | at most five of the invoices, newest first, and every invoice left out is no newer than any shown |
| Dashboard.MonthlyRevenue | backend/routes/dashboard.js:35-52 | exactly twelve entries, the oldest (eleven months before the current one) first, each summing the invoices created in its month |
| Dashboard.MonthsAddUp | backend/routes/dashboard.js:38-52 | the revenue of consecutive months adds up to the revenue of the whole span |
| Dashboard.MonthlyRevenueCoversYear | backend/routes/dashboard.js:35-52 | the twelve entries together hold the revenue of the invoices created in the last twelve months |
| Dashboard.ClientRevenue | backend/routes/dashboard.js:55-62 | the revenue per client is the sum of its invoices' totals; the clients are exactly those billed, without repeats, in the order of their first invoice |
| Dashboard.TopClientsSpec | backend/routes/dashboard.js:64-75 | at most five clients, largest revenue first, each with the sum of its invoices' totals |
| Dashboard.TopClientsLeftOut | backend/routes/dashboard.js:64-67 | a client left out of the ranking earned no more than any client kept |
| Dashboard.UpcomingSpec | backend/routes/dashboard.js:77-87 | exactly the sent invoices due within the coming week, earliest due date first |
| Dashboard.UpcomingOfSorted | backend/routes/dashboard.js:29-87 | taken from the newest-first list, the upcoming list still holds exactly the caller's sent invoices due within the week, earliest due date first |
| Dashboard.GetOverview | backend/routes/dashboard.js:9-113 | the overview of the caller's invoices and clients: the summary over the stored list; the recent list, the client revenue and the upcoming list over the list sorted newest first, as the in-place sort leaves it, with the upcoming list holding exactly the invoices due within the week, earliest first; each of the twelve monthly entries; at most five top clients in descending revenue; and revenue = paid + outstanding |
| Dashboard.RevenueAnalytics | backend/routes/dashboard.js:116-177 | twelve monthly buckets, four quarterly ones, or none for any other period, each summing the invoices of its months |
| Dashboard.QuarterIsThreeMonths | backend/routes/dashboard.js:148-169 | a quarter's bucket holds what its three monthly buckets hold together |
| Dashboard.QuarterSplit | backend/routes/dashboard.js:156-169 | within a year a quarter splits into its three months, in sums and in count |
| Dashboard.QuarterMonths | backend/routes/dashboard.js:149-160 | within a year an invoice is in quarter q exactly when it was created in one of its three months |
| Dashboard.MonthWithinYear | backend/routes/dashboard.js:120-126 | within the year, the month of the year is the offset from its first month |
| Dashboard.LastCreated | backend/routes/dashboard.js:204-206 | `Math.max` over the creation times: one of them and no smaller than any, or none for no invoices |
| Dashboard.ClientAnalyticsSpec | backend/routes/dashboard.js:185-211 | one row for each client and no other, largest amount invoiced first |
| Dashboard.RowAverage | backend/routes/dashboard.js:197-206 | the average is the amount invoiced spread over the invoices; a client without invoices has zeros and no last date |
| Dashboard.OwnedClientSum | backend/routes/dashboard.js:186-200 | summing the business's invoices billed to one of its clients gives the client's ledger totals |
| Dashboard.RowMatchesLedger | backend/routes/dashboard.js:182-200 | on a reconciled store a client's row agrees with its ledger fields |
| Dashboard.GetClientAnalytics | backend/routes/dashboard.js:180-218 | the client analytics of the caller, and on a reconciled store every row agrees with its client's ledger |

## Left out

- JWT signing and verification, and bcrypt hashing, are opaque: the token's decoded client id, the signed token, `hash` and `verify` are parameters.
- The express-validator checks (`isEmail`, `isMongoId`, `isISO8601`) are predicates on the request body, or a parameter where they stand for a library call (`isEmail` of the portal login). The login's `password` `exists()` check is not modelled: the password is always a string.
- The random password generated by `Math.random` is a parameter.
- The clock (`new Date()`, `Date.now()`) is a parameter `now`. The calendar of `new Date(y, m, 1)` and `getMonth()` is a parameter `monthOf` that maps a time to a month index.
- Month and quarter labels from `toLocaleString` are left out; buckets are identified by their position.
- Daylight-saving shifts in the seven-day window are not modelled; a week is 7 × 86,400,000 ms.
- Mongo query plumbing is modelled by what it selects: `findOne` picks the lowest id, which is the oldest document. `populate`, `select`, `limit(10)`, regex search and its escaping, pagination, and the order of query results are left out. The lookup takes the two query results as inputs.
- The login candidates sorted by `updatedAt` are an input sequence in that order. `lastLogin` and the issued session token are not modelled.
- Writes are sequential and atomic per handler. The count-then-insert numbering race is modelled as the deterministic index check. Non-atomic ledger writes and partial failures are not modelled.
- A duplicate-key error (11000) cannot arise on the client collection: its only index is not unique. That catch is therefore not modelled.
- Amounts are exact reals, not IEEE doubles. `toFixed`, currency formatting and JS string concatenation from non-numeric bodies are not modelled.
- Body fields are typed values. A `null` field counts as absent. A payment log in an invoice update body holds typed entries, so an unknown payment method there (which the schema would refuse) is not represented.
- Common.ToLower, Common.ToUpper: ASCII-only case mapping. JavaScript maps every Unicode letter and can change the length ("ß" uppercases to "SS", the Kelvin sign lowercases to "k"). An address or tax id with such letters can therefore fare differently in the model than in the code.
- ClientRoutes.NormalizeTaxIsNormal, ClientRoutes.NormalizeTaxIgnoresCase: they hold of the ASCII case map only. Under full Unicode mapping "ß" normalises to the longer "SS", and "ẞ" lowercases to "ß".
- InvoiceUpdate.Patched: the invoice's `recurring`, `reminders` and `viewedAt` fields are not modelled, and neither is their copy by the update route. An `_id`, `createdAt` or `updatedAt` key in an update body is not modelled either.
- Sort ties and stability: JavaScript's `sort` is stable, and so is the model's insertion sort (of two equal keys the earlier element stays first). The ranking contracts do not state stability.
- The in-place `invoices.sort` of the overview is modelled as a sorted copy that the later passes use. The monthly sums are taken over the stored list; they are sums of exact amounts, so the order does not change them.
- Helpers.GetStatusColor: a status naming an inherited `Object.prototype` key ("constructor", "toString", "__proto__") makes `colors[status] || 'gray'` return that member, not a colour. The model returns "gray" for every status outside the five keys.
- Dashboard.GetOverview: its own contract bounds the top clients at five and orders them by revenue. Which clients they are is stated by Dashboard.TopClientsSpec and Dashboard.TopClientsLeftOut about the same function.
- Dashboard.RevenueAnalytics: the year's query bounds are taken as the months `12 × year` to `12 × year + 11` of the `monthOf` calendar.
- The GET list routes (invoices, clients, single client, client profile, payment requests, profile requests, signup requests) only read and are left out.
- The PDF download route and the templates are string rendering and are left out.
- The product routes, user and auth routes, server bootstrap and all React pages are outside the modelled core.

## Findings

| source | as written | input that shows it | evidently intended | confidence | as-written member | corrected member |
|---|---|---|---|---|---|---|
| backend/models/Product.js:21 | `index({ userId: 1, sku: 1 }, { unique: true, sparse: true })`: a sparse compound index still holds every document that has one of its keys, and every product has a `userId` | two products of business 7, "Design" and "Hosting", both without a SKU: the second is refused as a duplicate key | SKUs unique per business only when a SKU is provided, as the comment on line 16 says | medium, not executed | Catalog.SkuIndexClash (shown by Catalog.SkulessProductsCollide) | Catalog.SkuClash (kept by Catalog.InsertKeepsCatalogue and Catalog.ProductStore.Create) |
