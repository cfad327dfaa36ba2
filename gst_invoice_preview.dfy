/** The arithmetic of the GST invoice preview
    (frontend/src/components/InvoicePreview/GstInvoicePreview.tsx): the
    amount column of the item table and the CGST/SGST lines under it. */
module GstInvoicePreview {
  import opened InvoiceTypes
  import opened Calculations
  import opened GstType

  /** The "Amount" cell of one row: the taxable value after the line
      discount plus the GST on it: the taxable value grossed up by the GST
      rate. */
  function RowAmount(item: InvoiceItem): (r: real)
    ensures r == Taxable(item) * (100.0 + item.gstRate) / 100.0
  {
    var base := item.quantity * item.price;
    var discount := base * item.discountRate / 100.0;
    var taxable := base - discount;
    var gst := taxable * item.gstRate / 100.0;
    taxable + gst
  }

  /** A row's amount is the line's base less its discount plus its GST, as
      the totals engine accounts for the same line. */
  lemma RowAmountAgrees(item: InvoiceItem)
    ensures RowAmount(item) == Base(item) - DiscountAmount(item) + GstAmount(item)
    ensures RowAmount(item) == Taxable(item) + GstAmount(item)
  {
  }

  /** The amount column: `items.map`, one amount per item, in order. */
  function RowAmounts(items: seq<InvoiceItem>): (r: seq<real>)
    ensures |r| == |items|
    ensures forall i :: 0 <= i < |items| ==> r[i] == RowAmount(items[i])
  {
    seq(|items|, i requires 0 <= i < |items| => RowAmount(items[i]))
  }

  function SumReals(s: seq<real>): real {
    if s == [] then 0.0 else SumReals(s[..|s| - 1]) + s[|s| - 1]
  }

  /** The amount column adds up to the unrounded grand total the totals
      engine accumulates. */
  lemma {:induction false} RowAmountsSum(items: seq<InvoiceItem>)
    ensures SumReals(RowAmounts(items)) == RawGrandTotal(items)
  {
    if items != [] {
      var n := |items| - 1;
      RowAmountsSum(items[..n]);
      assert RowAmounts(items)[..n] == RowAmounts(items[..n]);
      RowAmountAgrees(items[n]);
    }
  }

  /** How the tax is printed under the table. */
  datatype TaxSplit =
    | IntraState(cgst: real, sgst: real)
    | InterState(igst: real)

  /** The preview as written: the tax is always shown as CGST and SGST,
      each exactly half of totals.tax; the States are never consulted. */
  function PreviewSplit(totals: InvoiceTotals): (r: TaxSplit)
    ensures r.IntraState?
    ensures r.cgst == r.sgst && r.cgst + r.sgst == totals.tax
  {
    IntraState(totals.tax / 2.0, totals.tax / 2.0)
  }

  /** The split the classification calls for: halves for a supply within
      a State, the whole tax as IGST for a supply between States. */
  function SplitTax(tax: real, kind: GstKind): (r: TaxSplit)
    ensures kind == CGST_SGST <==> r.IntraState?
    ensures r.IntraState? ==> r.cgst == r.sgst && r.cgst + r.sgst == tax
    ensures r.InterState? ==> r.igst == tax
  {
    match kind
    case CGST_SGST => IntraState(tax / 2.0, tax / 2.0)
    case IGST => InterState(tax)
  }

  /** Whatever the tax, each way of splitting it accounts for all of it. */
  lemma SplitAccountsForTax(tax: real, kind: GstKind)
    ensures var r := SplitTax(tax, kind);
      (if r.IntraState? then r.cgst + r.sgst else r.igst) == tax
  {
  }

  /** The preview and the classification agree exactly for supplies
      within a State (or with a State missing). */
  lemma PreviewAgreesWithinState(totals: InvoiceTotals, sellerState: string, buyerState: string)
    requires GetGstType(sellerState, buyerState) == CGST_SGST
    ensures PreviewSplit(totals) == SplitTax(totals.tax, GetGstType(sellerState, buyerState))
  {
  }

  /** For a Gujarat seller and a Maharashtra buyer the preview still prints
      CGST and SGST, where the classification says IGST. */
  lemma PreviewIgnoresInterState(totals: InvoiceTotals)
    ensures GetGstType("Gujarat", "Maharashtra") == IGST
    ensures PreviewSplit(totals) != SplitTax(totals.tax, GetGstType("Gujarat", "Maharashtra"))
  {
    CaseSensitive();
  }
}
