/** The totals engine (frontend/src/utils/calculations.ts): the per-line
    discount and GST arithmetic, the invoice aggregates, two-decimal rounding
    and the older flat-rate helpers. */
module Calculations {
  import opened InvoiceTypes

  // ---------------------------------------------------------------------
  // Rounding
  // ---------------------------------------------------------------------

  /** x is a whole number of paise, i.e. a multiple of 0.01. */
  predicate IsCents(x: real) {
    (x * 100.0).Floor as real == x * 100.0
  }

  /** Math.round(x * 100) / 100, the body of both `round` and `roundToTwo`:
      half-up rounding to two decimals. The result is the multiple of 0.01
      nearest to x, a tie going upwards. */
  function Round(x: real): (r: real)
    ensures IsCents(r)
    ensures r - 0.005 <= x < r + 0.005
  {
    (x * 100.0 + 0.5).Floor as real / 100.0
  }

  /** Round is characterised by its contract: the only multiple of 0.01 in
      the half-open window around x is Round(x). */
  lemma RoundUnique(x: real, c: real)
    requires IsCents(c)
    requires c - 0.005 <= x < c + 0.005
    ensures Round(x) == c
  {
    var m := (c * 100.0).Floor;
    assert m as real <= x * 100.0 + 0.5 < m as real + 1.0;
    assert (x * 100.0 + 0.5).Floor == m;
  }

  /** Rounding an amount that is already in paise changes nothing. */
  lemma RoundOfCents(x: real)
    requires IsCents(x)
    ensures Round(x) == x
  {
    RoundUnique(x, x);
  }

  /** Rounding twice is rounding once. */
  lemma RoundIdempotent(x: real)
    ensures Round(Round(x)) == Round(x)
  {
    RoundOfCents(Round(x));
  }

  /** Rounding is monotone. */
  lemma RoundMonotone(x: real, y: real)
    requires x <= y
    ensures Round(x) <= Round(y)
  {
    var kx, ky := (x * 100.0 + 0.5).Floor, (y * 100.0 + 0.5).Floor;
    assert kx as real <= y * 100.0 + 0.5;
    assert kx <= ky;
  }

  /** Sums and differences of paise amounts are paise amounts. */
  lemma CentsClosed(a: real, b: real)
    requires IsCents(a) && IsCents(b)
    ensures IsCents(a + b) && IsCents(a - b)
  {
    var ka, kb := (a * 100.0).Floor, (b * 100.0).Floor;
    assert a * 100.0 == ka as real && b * 100.0 == kb as real;
    assert (a + b) * 100.0 == (ka + kb) as real;
    assert ((ka + kb) as real).Floor == ka + kb;
    assert (a - b) * 100.0 == (ka - kb) as real;
    assert ((ka - kb) as real).Floor == ka - kb;
  }

  // ---------------------------------------------------------------------
  // The flat-rate helpers
  // ---------------------------------------------------------------------

  /** calculateItemTotal: a negative quantity or price yields 0; otherwise
      quantity × price rounded to paise. */
  function ItemTotal(quantity: real, price: real): (r: real)
    ensures quantity < 0.0 || price < 0.0 ==> r == 0.0
    ensures quantity >= 0.0 && price >= 0.0 ==>
              r - 0.005 <= quantity * price < r + 0.005
    ensures r >= 0.0 && IsCents(r)
  {
    if quantity < 0.0 || price < 0.0 then 0.0
    else
      assert quantity * price >= 0.0;
      RoundMonotone(0.0, quantity * price);
      RoundOfCents(0.0);
      Round(quantity * price)
  }

  /** The `reduce` of calculateSubtotal: the running sum of the item totals,
      taken from the first item to the last. */
  function SumItemTotals(items: seq<InvoiceItem>): (r: real)
    ensures r >= 0.0 && IsCents(r)
    ensures items == [] ==> r == 0.0
  {
    if items == [] then 0.0
    else
      var last := items[|items| - 1];
      var prefix := SumItemTotals(items[..|items| - 1]);
      CentsClosed(prefix, ItemTotal(last.quantity, last.price));
      prefix + ItemTotal(last.quantity, last.price)
  }

  /** calculateSubtotal: the rounded sum of the item totals. Since every
      item total is already in paise, the final rounding never changes the
      sum. */
  function Subtotal(items: seq<InvoiceItem>): (r: real)
    ensures r == SumItemTotals(items)
    ensures r >= 0.0
  {
    RoundOfCents(SumItemTotals(items));
    Round(SumItemTotals(items))
  }

  /** calculateTax: a negative rate yields 0; otherwise rate per cent of the
      subtotal, rounded to paise. */
  function Tax(subtotal: real, taxRate: real): (r: real)
    ensures taxRate < 0.0 ==> r == 0.0
    ensures taxRate >= 0.0 ==>
              r - 0.005 <= subtotal * taxRate / 100.0 < r + 0.005
    ensures IsCents(r)
  {
    if taxRate < 0.0 then RoundOfCents(0.0); 0.0
    else Round(subtotal * taxRate / 100.0)
  }

  /** calculateDiscount: same shape as calculateTax, for the discount rate. */
  function Discount(subtotal: real, discountRate: real): (r: real)
    ensures discountRate < 0.0 ==> r == 0.0
    ensures discountRate >= 0.0 ==>
              r - 0.005 <= subtotal * discountRate / 100.0 < r + 0.005
    ensures IsCents(r)
  {
    if discountRate < 0.0 then RoundOfCents(0.0); 0.0
    else Round(subtotal * discountRate / 100.0)
  }

  /** A zero rate gives a zero tax and a zero discount. */
  lemma ZeroRate(subtotal: real)
    ensures Tax(subtotal, 0.0) == 0.0 && Discount(subtotal, 0.0) == 0.0
  {
    RoundOfCents(0.0);
  }

  // ---------------------------------------------------------------------
  // Per-line GST arithmetic (calculateInvoiceTotals, lines 60-63)
  // ---------------------------------------------------------------------

  /** quantity × price: not negative when neither factor is. */
  function Base(item: InvoiceItem): (r: real)
    ensures item.quantity >= 0.0 && item.price >= 0.0 ==> r >= 0.0
  {
    item.quantity * item.price
  }

  /** The discount is discountRate per cent of the base: none at 0 %, all
      of it at 100 %. */
  function DiscountAmount(item: InvoiceItem): (r: real)
    ensures item.discountRate == 0.0 ==> r == 0.0
    ensures item.discountRate == 100.0 ==> r == Base(item)
  {
    Base(item) * item.discountRate / 100.0
  }

  /** What the discount leaves of the base: all of it at 0 %, nothing at
      100 %. */
  function Taxable(item: InvoiceItem): (r: real)
    ensures item.discountRate == 0.0 ==> r == Base(item)
    ensures item.discountRate == 100.0 ==> r == 0.0
  {
    Base(item) - DiscountAmount(item)
  }

  /** The GST is gstRate per cent of the taxable value: none at 0 %, and
      gstRate per cent of the base when there is no discount. */
  function GstAmount(item: InvoiceItem): (r: real)
    ensures item.gstRate == 0.0 ==> r == 0.0
    ensures item.discountRate == 0.0 ==> r == Base(item) * item.gstRate / 100.0
  {
    Taxable(item) * item.gstRate / 100.0
  }

  /** The inputs the form is meant to produce: non-negative quantity and
      price, both rates within [0, 100]. */
  predicate WellFormed(item: InvoiceItem) {
    item.quantity >= 0.0 && item.price >= 0.0 &&
    0.0 <= item.discountRate <= 100.0 && 0.0 <= item.gstRate <= 100.0
  }

  /** On a well-formed line, the discount never exceeds the base, so the
      taxable amount lies between 0 and the base and the GST is not
      negative. */
  lemma LineBounds(item: InvoiceItem)
    requires WellFormed(item)
    ensures 0.0 <= DiscountAmount(item) <= Base(item)
    ensures 0.0 <= Taxable(item) <= Base(item)
    ensures GstAmount(item) >= 0.0
  {
    var b, t := Base(item), Taxable(item);
    assert b >= 0.0;
    assert DiscountAmount(item) == b * item.discountRate / 100.0;
    assert 0.0 <= b * item.discountRate <= b * 100.0;
    assert t == b - DiscountAmount(item);
    assert GstAmount(item) == t * item.gstRate / 100.0;
    assert t * item.gstRate >= 0.0;
  }

  // ---------------------------------------------------------------------
  // Aggregates
  // ---------------------------------------------------------------------

  /** The running sum of f over the items, first to last, as the forEach
      accumulators build it. */
  function Sum(items: seq<InvoiceItem>, f: InvoiceItem -> real): real {
    if items == [] then 0.0
    else Sum(items[..|items| - 1], f) + f(items[|items| - 1])
  }

  /** A sum of amounts none of which is negative is not negative. */
  lemma {:induction false} SumNonNegative(items: seq<InvoiceItem>, f: InvoiceItem -> real)
    requires forall i :: 0 <= i < |items| ==> f(items[i]) >= 0.0
    ensures Sum(items, f) >= 0.0
  {
    if items != [] {
      SumNonNegative(items[..|items| - 1], f);
    }
  }

  /** A sum of zero amounts is zero. */
  lemma {:induction false} SumZero(items: seq<InvoiceItem>, f: InvoiceItem -> real)
    requires forall i :: 0 <= i < |items| ==> f(items[i]) == 0.0
    ensures Sum(items, f) == 0.0
  {
    if items != [] {
      SumZero(items[..|items| - 1], f);
    }
  }

  lemma SumOne(x: InvoiceItem, f: InvoiceItem -> real)
    ensures Sum([x], f) == f(x)
  {
    assert [x][..0] == [];
  }

  function RawSubtotal(items: seq<InvoiceItem>): real {
    Sum(items, Base)
  }

  function RawDiscount(items: seq<InvoiceItem>): real {
    Sum(items, DiscountAmount)
  }

  function RawGst(items: seq<InvoiceItem>): real {
    Sum(items, GstAmount)
  }

  /** The grand total before rounding, from the unrounded sums. */
  function RawGrandTotal(items: seq<InvoiceItem>): real {
    RawSubtotal(items) - RawDiscount(items) + RawGst(items)
  }

  /** With no quantity or price negative, the raw subtotal is not
      negative. */
  lemma RawSubtotalNonNegative(items: seq<InvoiceItem>)
    requires forall i :: 0 <= i < |items| ==> items[i].quantity >= 0.0 && items[i].price >= 0.0
    ensures RawSubtotal(items) >= 0.0
  {
    assert forall i :: 0 <= i < |items| ==> Base(items[i]) >= 0.0;
    SumNonNegative(items, Base);
  }

  /** With every line at 0 % discount and 0 % GST, nothing is discounted
      or taxed, and the raw grand total is the raw subtotal. */
  lemma RawWithoutRates(items: seq<InvoiceItem>)
    requires forall i :: 0 <= i < |items| ==> items[i].discountRate == 0.0 && items[i].gstRate == 0.0
    ensures RawDiscount(items) == 0.0 && RawGst(items) == 0.0
    ensures RawGrandTotal(items) == RawSubtotal(items)
  {
    assert forall i :: 0 <= i < |items| ==> DiscountAmount(items[i]) == 0.0;
    assert forall i :: 0 <= i < |items| ==> GstAmount(items[i]) == 0.0;
    SumZero(items, DiscountAmount);
    SumZero(items, GstAmount);
  }

  /** What calculateInvoiceTotals returns: each aggregate is the rounded
      unrounded sum, and the grand total is rounded once, from the
      unrounded sums. */
  function InvoiceTotalsOf(items: seq<InvoiceItem>): (t: InvoiceTotals)
    ensures IsCents(t.subtotal) && IsCents(t.discount)
    ensures IsCents(t.tax) && IsCents(t.grandTotal)
    ensures t.subtotal - 0.005 <= RawSubtotal(items) < t.subtotal + 0.005
    ensures t.discount - 0.005 <= RawDiscount(items) < t.discount + 0.005
    ensures t.tax - 0.005 <= RawGst(items) < t.tax + 0.005
    ensures t.grandTotal - 0.005 <= RawGrandTotal(items) < t.grandTotal + 0.005
  {
    InvoiceTotals(
      subtotal := Round(RawSubtotal(items)),
      tax := Round(RawGst(items)),
      discount := Round(RawDiscount(items)),
      grandTotal := Round(RawGrandTotal(items)))
  }

  /** The totals depend on the items only through the three raw sums. */
  lemma SameRawSameTotals(a: seq<InvoiceItem>, b: seq<InvoiceItem>)
    requires Sum(a, Base) == Sum(b, Base) && Sum(a, DiscountAmount) == Sum(b, DiscountAmount)
    requires Sum(a, GstAmount) == Sum(b, GstAmount)
    ensures InvoiceTotalsOf(a) == InvoiceTotalsOf(b)
  {
    assert RawSubtotal(a) == RawSubtotal(b) && RawDiscount(a) == RawDiscount(b);
    assert RawGst(a) == RawGst(b) && RawGrandTotal(a) == RawGrandTotal(b);
  }

  /** The four line amounts, each from the one before it. */
  lemma LineAmounts(item: InvoiceItem)
    ensures Base(item) == item.quantity * item.price
    ensures DiscountAmount(item) == Base(item) * item.discountRate / 100.0
    ensures Taxable(item) == Base(item) - DiscountAmount(item)
    ensures GstAmount(item) == Taxable(item) * item.gstRate / 100.0
  {
  }

  /** Extending the prefix by one item adds that item's amounts to each
      raw sum. */
  lemma RawStep(items: seq<InvoiceItem>, i: nat)
    requires i < |items|
    ensures RawSubtotal(items[..i + 1]) == RawSubtotal(items[..i]) + Base(items[i])
    ensures RawDiscount(items[..i + 1]) == RawDiscount(items[..i]) + DiscountAmount(items[i])
    ensures RawGst(items[..i + 1]) == RawGst(items[..i]) + GstAmount(items[i])
  {
    assert items[..i + 1][..i] == items[..i];
  }

  /** calculateInvoiceTotals: one pass over the items updating three
      accumulators, then rounding each aggregate. */
  method CalculateInvoiceTotals(items: seq<InvoiceItem>) returns (totals: InvoiceTotals)
    ensures totals == InvoiceTotalsOf(items)
  {
    var subtotal, totalDiscount, totalGst := 0.0, 0.0, 0.0;
    for i := 0 to |items|
      invariant subtotal == RawSubtotal(items[..i])
      invariant totalDiscount == RawDiscount(items[..i])
      invariant totalGst == RawGst(items[..i])
    {
      var item := items[i];
      var base := item.quantity * item.price;
      var discount := base * item.discountRate / 100.0;
      var taxable := base - discount;
      var gst := taxable * item.gstRate / 100.0;
      LineAmounts(item);
      RawStep(items, i);
      subtotal := subtotal + base;
      totalDiscount := totalDiscount + discount;
      totalGst := totalGst + gst;
    }
    assert items[..|items|] == items;
    var grandTotal := subtotal - totalDiscount + totalGst;
    totals := InvoiceTotals(
      subtotal := Round(subtotal),
      tax := Round(totalGst),
      discount := Round(totalDiscount),
      grandTotal := Round(grandTotal));
  }

  // ---------------------------------------------------------------------
  // Properties of the totals
  // ---------------------------------------------------------------------

  /** An empty item list gives all-zero totals. */
  lemma EmptyTotals()
    ensures InvoiceTotalsOf([]) ==
      InvoiceTotals(subtotal := 0.0, tax := 0.0, discount := 0.0, grandTotal := 0.0)
  {
    RoundOfCents(0.0);
  }

  /** With well-formed items the raw discount is at most the raw subtotal,
      the raw GST is not negative, and so the raw grand total is not
      negative. */
  lemma {:induction false} RawBounds(items: seq<InvoiceItem>)
    requires forall i :: 0 <= i < |items| ==> WellFormed(items[i])
    ensures 0.0 <= RawDiscount(items) <= RawSubtotal(items)
    ensures RawGst(items) >= 0.0
    ensures RawGrandTotal(items) >= 0.0
  {
    if items != [] {
      var prefix := items[..|items| - 1];
      RawBounds(prefix);
      LineBounds(items[|items| - 1]);
    }
  }

  /** The rounded totals keep those bounds. */
  lemma TotalsBounds(items: seq<InvoiceItem>)
    requires forall i :: 0 <= i < |items| ==> WellFormed(items[i])
    ensures var t := InvoiceTotalsOf(items);
      0.0 <= t.discount <= t.subtotal && t.tax >= 0.0 && t.grandTotal >= 0.0
  {
    RawBounds(items);
    RoundOfCents(0.0);
    RoundMonotone(0.0, RawDiscount(items));
    RoundMonotone(RawDiscount(items), RawSubtotal(items));
    RoundMonotone(0.0, RawGst(items));
    RoundMonotone(0.0, RawGrandTotal(items));
  }

  /** The grand total is rounded from the unrounded sums, so it may differ
      from the rounded parts combined, but never by more than one paisa. */
  lemma GrandTotalDrift(items: seq<InvoiceItem>)
    ensures var t := InvoiceTotalsOf(items);
      var d := t.grandTotal - (t.subtotal - t.discount + t.tax);
      d == -0.01 || d == 0.0 || d == 0.01
  {
    var t := InvoiceTotalsOf(items);
    CentsClosed(t.subtotal, t.discount);
    CentsClosed(t.subtotal - t.discount, t.tax);
    CentsClosed(t.grandTotal, t.subtotal - t.discount + t.tax);
    var d := t.grandTotal - (t.subtotal - t.discount + t.tax);
    var k := (d * 100.0).Floor;
    assert -2.0 < d * 100.0 < 2.0;
    assert k == -1 || k == 0 || k == 1;
  }

  /** Rounding at the half-paisa ties used below. */
  lemma HalfPaisaRounding()
    ensures Round(1.0) == 1.0 && Round(0.0) == 0.0
    ensures Round(0.005) == 0.01 && Round(0.995) == 1.0
  {
    RoundUnique(1.0, 1.0);
    RoundUnique(0.0, 0.0);
    RoundUnique(0.005, 0.01);
    RoundUnique(0.995, 1.0);
  }

  /** The drift is real: a line of 1 × 1.00 with a 0.5% discount and no
      GST gives subtotal 1.00, discount 0.01 and tax 0, yet a grand total of
      1.00 rather than 0.99. */
  lemma GrandTotalNotSumOfRoundedParts(item: InvoiceItem)
    requires item.quantity == 1.0 && item.price == 1.0
    requires item.discountRate == 0.5 && item.gstRate == 0.0
    ensures var t := InvoiceTotalsOf([item]);
      t == InvoiceTotals(subtotal := 1.0, tax := 0.0, discount := 0.01, grandTotal := 1.0) &&
      t.grandTotal != t.subtotal - t.discount + t.tax
  {
    assert DiscountAmount(item) == 0.005;
    assert GstAmount(item) == 0.0;
    SumOne(item, Base);
    SumOne(item, DiscountAmount);
    SumOne(item, GstAmount);
    HalfPaisaRounding();
  }

  /** The worked case: a line of 2 × 100.00 with 10% discount and 18% GST
      gives subtotal 200, discount 20, tax 32.40 and grand total 212.40. */
  lemma WorkedExample(item: InvoiceItem)
    requires item.quantity == 2.0 && item.price == 100.0
    requires item.discountRate == 10.0 && item.gstRate == 18.0
    ensures InvoiceTotalsOf([item]) ==
      InvoiceTotals(subtotal := 200.0, tax := 32.4, discount := 20.0, grandTotal := 212.4)
  {
    assert DiscountAmount(item) == 20.0;
    assert GstAmount(item) == 32.4;
    SumOne(item, Base);
    SumOne(item, DiscountAmount);
    SumOne(item, GstAmount);
    RoundOfCents(200.0);
    RoundOfCents(20.0);
    RoundOfCents(32.4);
    RoundOfCents(212.4);
  }

  /** calculateInvoiceTotals has no negative-input guard: a line of
      -1 × 10.00 contributes -10.00 to the subtotal, where
      calculateItemTotal gives 0 for the same quantity and price. */
  lemma NoGuardInTotals(item: InvoiceItem)
    requires item.quantity == -1.0 && item.price == 10.0
    ensures ItemTotal(item.quantity, item.price) == 0.0
    ensures InvoiceTotalsOf([item]).subtotal == -10.0
  {
    SumOne(item, Base);
    RoundOfCents(-10.0);
  }

  // ---------------------------------------------------------------------
  // Order independence
  // ---------------------------------------------------------------------

  lemma {:induction false} SumAppend(a: seq<InvoiceItem>, b: seq<InvoiceItem>, f: InvoiceItem -> real)
    ensures Sum(a + b, f) == Sum(a, f) + Sum(b, f)
    decreases |b|
  {
    if b == [] {
      assert a + b == a;
    } else {
      var b' := b[..|b| - 1];
      assert (a + b)[..|a + b| - 1] == a + b';
      SumAppend(a, b', f);
    }
  }

  lemma SumRemoveAt(s: seq<InvoiceItem>, j: nat, f: InvoiceItem -> real)
    requires j < |s|
    ensures Sum(s, f) == Sum(s[..j] + s[j + 1..], f) + f(s[j])
  {
    var p, q := s[..j], s[j + 1..];
    assert s[..j + 1] + q == s;
    SumAppend(s[..j + 1], q, f);
    assert s[..j + 1][..j] == p;
    SumAppend(p, q, f);
  }

  lemma MultisetRemoveAt(s: seq<InvoiceItem>, j: nat)
    requires j < |s|
    ensures multiset(s[..j] + s[j + 1..]) == multiset(s) - multiset{s[j]}
  {
    assert s == s[..j] + [s[j]] + s[j + 1..];
  }

  /** A sum over the items does not depend on their order. */
  lemma {:induction false} SumPermutation(a: seq<InvoiceItem>, b: seq<InvoiceItem>, f: InvoiceItem -> real)
    requires multiset(a) == multiset(b)
    ensures Sum(a, f) == Sum(b, f)
    decreases |a|
  {
    if a == [] {
      assert |b| == |multiset(b)| == 0;
    } else {
      var n := |a| - 1;
      MultisetRemoveAt(a, n);
      assert a[..n] + a[n + 1..] == a[..n];
      var x := a[n];
      assert x in multiset(b);
      var j :| 0 <= j < |b| && b[j] == x;
      MultisetRemoveAt(b, j);
      SumPermutation(a[..n], b[..j] + b[j + 1..], f);
      SumRemoveAt(b, j, f);
    }
  }

  /** The totals do not depend on the order of the items. */
  lemma TotalsPermutation(a: seq<InvoiceItem>, b: seq<InvoiceItem>)
    requires multiset(a) == multiset(b)
    ensures InvoiceTotalsOf(a) == InvoiceTotalsOf(b)
  {
    SumPermutation(a, b, Base);
    SumPermutation(a, b, DiscountAmount);
    SumPermutation(a, b, GstAmount);
    SameRawSameTotals(a, b);
  }
}
