/** The pricing step the invoice routes share: each request line gets
    `amount = quantity * rate` and `taxAmount = amount * (taxRate || 0) / 100`,
    summed into the subtotal and the tax (backend/routes/invoices.js), and its
    agreement with the browser-side calculator of src/utils/helpers.js. */
module Pricing {
  import opened Common
  import opened InvoiceModel
  import Helpers


  /** One line of a request body. */
  datatype ItemInput = ItemInput(description: string, quantity: real, rate: real, taxRate: Option<real>)

  /** `item.taxRate || 0` (an absent rate and a zero rate are the same). */
  function RateOrZero(it: ItemInput): real
  {
    if it.taxRate.Some? then it.taxRate.value else 0.0
  }

  function LineAmount(it: ItemInput): real
  {
    it.quantity * it.rate
  }

  function LineTax(it: ItemInput): real
  {
    LineAmount(it) * RateOrZero(it) / 100.0
  }

  /** The stored line: the request line with its amount and tax added; the
      schema trims the description and defaults the tax rate to 0. */
  function PricedLine(it: ItemInput): LineItem
  {
    LineItem(Trim(it.description), it.quantity, it.rate, LineAmount(it), RateOrZero(it), LineTax(it))
  }

  /** `req.body.items.map(...)`: the priced lines in request order. */
  function PricedLines(input: seq<ItemInput>): (items: seq<LineItem>)
    ensures |items| == |input|
  {
    if input == [] then [] else PricedLines(input[..|input| - 1]) + [PricedLine(input[|input| - 1])]
  }

  /** The stored line at each position is the priced request line there. */
  lemma {:induction false} PricedLinesAt(input: seq<ItemInput>, k: nat)
    requires k < |input|
    ensures PricedLines(input)[k] == PricedLine(input[k])
  {
    var n := |input| - 1;
    if k < n {
      PricedLinesAt(input[..n], k);
    }
  }

  function Subtotal(input: seq<ItemInput>): real
  {
    SumOf(input, LineAmount)
  }

  function TaxTotal(input: seq<ItemInput>): real
  {
    SumOf(input, LineTax)
  }

  /** The `items.map` callback of the create and update routes: price each
      line while accumulating the subtotal and the tax. */
  method PriceItems(input: seq<ItemInput>) returns (items: seq<LineItem>, subtotal: real, taxTotal: real)
    ensures items == PricedLines(input)
    ensures subtotal == Subtotal(input) && taxTotal == TaxTotal(input)
  {
    items, subtotal, taxTotal := [], 0.0, 0.0;
    var k := 0;
    while k < |input|
      invariant 0 <= k <= |input|
      invariant items == PricedLines(input[..k])
      invariant subtotal == SumOf(input[..k], LineAmount) && taxTotal == SumOf(input[..k], LineTax)
    {
      SumOfPrefixStep(input, k, LineAmount);
      SumOfPrefixStep(input, k, LineTax);
      PricedLinesStep(input, k);
      var line := PricedLine(input[k]);
      subtotal := subtotal + line.amount;
      taxTotal := taxTotal + line.taxAmount;
      items := items + [line];
      k := k + 1;
    }
    assert input[..|input|] == input;
  }

  lemma PricedLinesStep(input: seq<ItemInput>, k: nat)
    requires k < |input|
    ensures PricedLines(input[..k + 1]) == PricedLines(input[..k]) + [PricedLine(input[k])]
  {
    assert input[..k + 1][..k] == input[..k];
  }

  function StoredAmount(l: LineItem): real { l.amount }
  function StoredTax(l: LineItem): real { l.taxAmount }

  /** The stored subtotal and tax are the sums of the stored lines' amounts
      and taxes. */
  lemma {:induction false} PricedLinesSum(input: seq<ItemInput>)
    ensures SumOf(PricedLines(input), StoredAmount) == Subtotal(input)
    ensures SumOf(PricedLines(input), StoredTax) == TaxTotal(input)
  {
    if input != [] {
      var n := |input| - 1;
      PricedLinesSum(input[..n]);
      PricedLinesStep(input, n);
      assert input[..n + 1] == input;
      SumOfAppend(PricedLines(input[..n]), PricedLine(input[n]), StoredAmount);
      SumOfAppend(PricedLines(input[..n]), PricedLine(input[n]), StoredTax);
    }
  }

  /** With tax rates between 0 and 100 and non-negative lines, the tax never
      exceeds the subtotal. */
  lemma ServerTaxAtMostSubtotal(input: seq<ItemInput>)
    requires forall k :: 0 <= k < |input| ==> input[k].quantity >= 0.0 && input[k].rate >= 0.0
    requires forall k :: 0 <= k < |input| ==> 0.0 <= RateOrZero(input[k]) <= 100.0
    ensures 0.0 <= TaxTotal(input) <= Subtotal(input)
  {
    forall k | 0 <= k < |input|
      ensures 0.0 <= LineTax(input[k]) <= LineAmount(input[k])
    {
      var a, r := LineAmount(input[k]), RateOrZero(input[k]);
      assert a >= 0.0;
      assert a * (100.0 - r) >= 0.0;
      assert LineTax(input[k]) == a * r / 100.0;
    }
    SumOfNonNegative(input, LineTax);
    SumOfMonotone(input, LineTax, LineAmount);
  }

  /** The form fields the browser calculator sees for a request line. */
  function AsFields(it: ItemInput): Helpers.ItemFields
  {
    Helpers.ItemFields(Helpers.Finite(it.quantity), Helpers.Finite(it.rate), Helpers.Finite(RateOrZero(it)))
  }

  /** On every line the routes accept and the schema stores (quantity at
      least 0.01, rate and tax rate not negative), the browser calculator
      and the server formula give the same subtotal, tax and total. */
  lemma ServerMatchesBrowser(input: seq<ItemInput>, discount: real)
    requires forall k :: 0 <= k < |input| ==> input[k].quantity >= 0.01 && input[k].rate >= 0.0
    requires forall k :: 0 <= k < |input| ==> RateOrZero(input[k]) >= 0.0
    ensures var t := Helpers.CalculateInvoiceTotals(Some(seq(|input|, k requires 0 <= k < |input| => AsFields(input[k]))),
                                                   Helpers.Finite(discount));
      t.subtotal == Subtotal(input) && t.taxAmount == TaxTotal(input)
      && t.total == Subtotal(input) + TaxTotal(input) - discount
  {
    var fields := seq(|input|, k requires 0 <= k < |input| => AsFields(input[k]));
    FieldSums(input, fields);
  }

  lemma {:induction false} FieldSums(input: seq<ItemInput>, fields: seq<Helpers.ItemFields>)
    requires |fields| == |input|
    requires forall k :: 0 <= k < |input| ==> fields[k] == AsFields(input[k])
    requires forall k :: 0 <= k < |input| ==> input[k].quantity >= 0.01 && input[k].rate >= 0.0
    requires forall k :: 0 <= k < |input| ==> RateOrZero(input[k]) >= 0.0
    ensures SumOf(fields, Helpers.LineTotal) == Subtotal(input)
    ensures SumOf(fields, Helpers.LineTax) == TaxTotal(input)
  {
    if input != [] {
      var n := |input| - 1;
      FieldSums(input[..n], fields[..n]);
    }
  }
}
