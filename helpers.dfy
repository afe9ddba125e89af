/** The browser-side helpers of src/utils/helpers.js: the sanitising invoice
    total calculator, invoice-number formatting, e-mail syntax check, status
    colours, payment-status classification and days overdue. */
module Helpers {
  import opened Common

  /** A value after `Number(v)`: either a finite number or one of NaN and the
      infinities (an absent or non-numeric field reads as NaN). */
  datatype JsNumber = Finite(value: real) | NonFinite

  /** The three fields the calculator reads from a form line. */
  datatype ItemFields = ItemFields(quantity: JsNumber, rate: JsNumber, taxRate: JsNumber)

  datatype Totals = Totals(subtotal: real, taxAmount: real, discountAmount: real, total: real)

  /** `safeNum(v, 0)`: a non-finite value reads as 0. */
  function SafeNum(n: JsNumber): real
  {
    if n.Finite? then n.value else 0.0
  }

  /** `Math.max(0, safeNum(v, 0))`. */
  function Clamped(n: JsNumber): (r: real)
    ensures r >= 0.0
    ensures n.Finite? && n.value >= 0.0 ==> r == n.value
    ensures n.NonFinite? || n.value <= 0.0 ==> r == 0.0
  {
    if SafeNum(n) > 0.0 then SafeNum(n) else 0.0
  }

  function LineTotal(it: ItemFields): (r: real)
    ensures r >= 0.0
  {
    Clamped(it.quantity) * Clamped(it.rate)
  }

  function LineTax(it: ItemFields): (r: real)
    ensures r >= 0.0
  {
    LineTotal(it) * Clamped(it.taxRate) / 100.0
  }

  /** `calculateInvoiceTotals(items, discountAmount)`; `None` is a missing list. */
  function CalculateInvoiceTotals(items: Option<seq<ItemFields>>, discount: JsNumber): (t: Totals)
    ensures t.subtotal >= 0.0 && t.taxAmount >= 0.0
    ensures t.discountAmount == SafeNum(discount)
    ensures t.total == t.subtotal + t.taxAmount - t.discountAmount
  {
    var list := if items.Some? then items.value else [];
    SumOfNonNegative(list, LineTotal);
    SumOfNonNegative(list, LineTax);
    var subtotal := SumOf(list, LineTotal);
    var taxAmount := SumOf(list, LineTax);
    Totals(subtotal, taxAmount, SafeNum(discount), subtotal + taxAmount - SafeNum(discount))
  }

  /** With no lines, the total is the negated discount: nothing clamps it. */
  lemma TotalsWithoutItems(discount: JsNumber)
    ensures CalculateInvoiceTotals(None, discount) == CalculateInvoiceTotals(Some([]), discount)
    ensures CalculateInvoiceTotals(None, discount) == Totals(0.0, 0.0, SafeNum(discount), -SafeNum(discount))
  {
  }

  /** When every tax rate is at most 100%, the tax never exceeds the subtotal. */
  lemma TaxAtMostSubtotal(items: seq<ItemFields>, discount: JsNumber)
    requires forall i :: 0 <= i < |items| ==> Clamped(items[i].taxRate) <= 100.0
    ensures CalculateInvoiceTotals(Some(items), discount).taxAmount
         <= CalculateInvoiceTotals(Some(items), discount).subtotal
  {
    forall i | 0 <= i < |items|
      ensures LineTax(items[i]) <= LineTotal(items[i])
    {
      var t, r := LineTotal(items[i]), Clamped(items[i].taxRate);
      assert t * (100.0 - r) >= 0.0;
      assert LineTax(items[i]) == t * r / 100.0;
    }
    SumOfMonotone(items, LineTax, LineTotal);
  }

  /** A line whose quantity or rate is missing, non-finite or negative adds
      nothing to the subtotal or the tax. */
  lemma UnusableLineAddsNothing(items: seq<ItemFields>, it: ItemFields, discount: JsNumber)
    requires Clamped(it.quantity) == 0.0 || Clamped(it.rate) == 0.0
    ensures CalculateInvoiceTotals(Some(items + [it]), discount) == CalculateInvoiceTotals(Some(items), discount)
  {
    SumOfAppend(items, it, LineTotal);
    SumOfAppend(items, it, LineTax);
  }

  /** `generateInvoiceNumber(prefix = 'INV', number)`. */
  function GenerateInvoiceNumber(prefix: Option<string>, number: nat): (r: string)
    ensures var p := if prefix.Some? then prefix.value else "INV";
      |r| >= |p| + 5 && r[..|p| + 1] == p + "-"
      && AllDigits(r[|p| + 1..]) && DigitsValue(r[|p| + 1..]) == number
      && (|r| == |p| + 5 || r[|p| + 1] != '0')
      && (number < 10000 <==> |r| == |p| + 5)
  {
    FormatInvoiceNumberWidth(if prefix.Some? then prefix.value else "INV", number);
    FormatInvoiceNumber(if prefix.Some? then prefix.value else "INV", number)
  }

  // ---------------------------------------------------------------------------
  // validateEmail: /^[^\s@]+@[^\s@]+\.[^\s@]+$/

  predicate PartChar(c: char)
  {
    !IsSpace(c) && c != '@'
  }

  /** `s[lo..hi]` is a non-empty run of `[^\s@]`. */
  predicate PartAt(s: string, lo: int, hi: int)
  {
    0 <= lo < hi <= |s| && forall k :: lo <= k < hi ==> PartChar(s[k])
  }

  /** The regular expression read directly: local part, '@', a domain label,
      '.', and a last part, each a non-empty run without blanks or '@'. */
  ghost predicate MatchesEmailPattern(e: string)
  {
    exists i, j :: 0 < i < j < |e| - 1 && e[i] == '@' && e[j] == '.'
      && PartAt(e, 0, i) && PartAt(e, i + 1, j) && PartAt(e, j + 1, |e|)
  }

  /** The check as a scan: the first '@' splits the address; the local part is
      non-empty, neither side holds a blank or a second '@', and the domain has
      a '.' that is neither its first nor its last character. */
  function ValidateEmail(e: string): bool
  {
    match IndexWhere(e, c => c == '@')
    case None => false
    case Some(at) =>
      var domain := e[at + 1..];
      at > 0 && PartAt(e, 0, at) && |domain| >= 3 && PartAt(domain, 0, |domain|)
      && IndexWhere(domain[1..|domain| - 1], c => c == '.').Some?
  }

  lemma ValidateEmailMatchesPattern(e: string)
    ensures ValidateEmail(e) <==> MatchesEmailPattern(e)
  {
    if ValidateEmail(e) {
      ValidEmailHasPattern(e);
    }
    if MatchesEmailPattern(e) {
      var i, j :| 0 < i < j < |e| - 1 && e[i] == '@' && e[j] == '.'
        && PartAt(e, 0, i) && PartAt(e, i + 1, j) && PartAt(e, j + 1, |e|);
      PatternIsValidEmail(e, i, j);
    }
  }

  lemma ValidEmailHasPattern(e: string)
    requires ValidateEmail(e)
    ensures MatchesEmailPattern(e)
  {
    var at := IndexWhere(e, c => c == '@').value;
    var domain := e[at + 1..];
    var k := IndexWhere(domain[1..|domain| - 1], c => c == '.').value;
    var j := at + 2 + k;
    assert e[j] == domain[k + 1] == '.';
    assert PartAt(e, at + 1, j) by {
      forall m | at + 1 <= m < j ensures PartChar(e[m]) {
        assert e[m] == domain[m - at - 1];
      }
    }
    assert PartAt(e, j + 1, |e|) by {
      forall m | j + 1 <= m < |e| ensures PartChar(e[m]) {
        assert e[m] == domain[m - at - 1];
      }
    }
  }

  lemma PatternIsValidEmail(e: string, i: int, j: int)
    requires 0 < i < j < |e| - 1 && e[i] == '@' && e[j] == '.'
    requires PartAt(e, 0, i) && PartAt(e, i + 1, j) && PartAt(e, j + 1, |e|)
    ensures ValidateEmail(e)
  {
    assert IndexWhere(e, c => c == '@') == Some(i);
    var domain := e[i + 1..];
    assert PartAt(domain, 0, |domain|) by {
      forall m | 0 <= m < |domain| ensures PartChar(domain[m]) {
        assert domain[m] == e[i + 1 + m];
      }
    }
    var inner := domain[1..|domain| - 1];
    assert inner[j - i - 2] == '.';
    assert IndexWhere(inner, c => c == '.').Some?;
  }

  // ---------------------------------------------------------------------------
  // Status colours, payment status, days overdue

  /** `getStatusColor(status)`: the colour map with "gray" as the fallback. */
  function GetStatusColor(status: string): (r: string)
    ensures r in {"gray", "blue", "yellow", "green", "red"}
    ensures r != "gray" <==> status in {"sent", "viewed", "paid", "overdue"}
  {
    if status == "draft" then "gray"
    else if status == "sent" then "blue"
    else if status == "viewed" then "yellow"
    else if status == "paid" then "green"
    else if status == "overdue" then "red"
    else if status == "cancelled" then "gray"
    else "gray"
  }

  /** `getPaymentStatus(invoice)`: the zero test comes first, so an invoice
      with nothing paid is "unpaid" even when its total is 0. */
  function GetPaymentStatus(paidAmount: real, totalAmount: real): (r: string)
    ensures r in {"unpaid", "paid", "partial"}
    ensures r == "unpaid" <==> paidAmount == 0.0
    ensures r == "paid" <==> paidAmount != 0.0 && paidAmount >= totalAmount
    ensures r == "partial" ==> paidAmount < totalAmount
  {
    if paidAmount == 0.0 then "unpaid"
    else if paidAmount >= totalAmount then "paid"
    else "partial"
  }

  /** `getDaysOverdue(dueDate, status)` with the clock passed as `now`: whole
      days past due, rounded up, never negative, and 0 for a paid invoice. */
  function GetDaysOverdue(dueDate: Time, status: string, now: Time): (r: nat)
    ensures status == "paid" ==> r == 0
    ensures r > 0 ==> (r - 1) * DayMs < now - dueDate <= r * DayMs
    ensures r == 0 ==> status == "paid" || now <= dueDate
  {
    if status == "paid" then 0
    else
      var diff := now - dueDate;
      var days := (diff + DayMs - 1) / DayMs;
      if days > 0 then days else 0
  }
}
