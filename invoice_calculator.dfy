/** The invoice editor's state (frontend/src/hooks/useInvoiceCalculator.ts):
    the ordered item list, the two invoice-level rates, and the totals
    derived from the items. The list updaters are pure transforms of the
    previous list; the hook replaces its state with their results. */
module InvoiceCalculator {
  import opened InvoiceTypes
  import opened Calculations

  /** The fields of an item, as `keyof InvoiceItem`. */
  datatype Field = Id | Name | Quantity | Price | DiscountRate | GstRate

  /** A value written into a field: the form sends text or numbers. */
  datatype Value = Text(text: string) | Number(number: real)

  /** Reading one field of an item. */
  function Get(item: InvoiceItem, f: Field): Value {
    match f
    case Id => Text(item.id)
    case Name => Text(item.name)
    case Quantity => Number(item.quantity)
    case Price => Number(item.price)
    case DiscountRate => Number(item.discountRate)
    case GstRate => Number(item.gstRate)
  }

  /** The value has the type the field is declared with. */
  predicate Fits(f: Field, v: Value) {
    if f == Id || f == Name then v.Text? else v.Number?
  }

  /** `{ ...item, [field]: value }`: the one field takes the value and
      every other field keeps its old value. */
  function Set(item: InvoiceItem, f: Field, v: Value): (r: InvoiceItem)
    requires Fits(f, v)
    ensures Get(r, f) == v
    ensures forall g :: g != f ==> Get(r, g) == Get(item, g)
  {
    match f
    case Id => item.(id := v.text)
    case Name => item.(name := v.text)
    case Quantity => item.(quantity := v.number)
    case Price => item.(price := v.number)
    case DiscountRate => item.(discountRate := v.number)
    case GstRate => item.(gstRate := v.number)
  }

  /** The blank row addItem creates: one unit at price 0 under the given
      id. The hook sets no rates; here they are 0, so the row is well
      formed and adds nothing to any amount. */
  function BlankItem(id: string): (r: InvoiceItem)
    ensures r.id == id && WellFormed(r)
    ensures Base(r) == 0.0 && DiscountAmount(r) == 0.0 && GstAmount(r) == 0.0
  {
    InvoiceItem(id, "", 1.0, 0.0, 0.0, 0.0)
  }

  /** addItem's updater: `[...prev, blank]`. */
  function AppendItem(items: seq<InvoiceItem>, id: string): (r: seq<InvoiceItem>)
    ensures |r| == |items| + 1 && r[..|items|] == items
    ensures r[|items|].id == id && r[|items|].name == ""
    ensures r[|items|].quantity == 1.0 && r[|items|].price == 0.0
  {
    items + [BlankItem(id)]
  }

  /** updateItem's updater: `prev.map`, changing the items whose id
      matches. */
  function UpdateItems(items: seq<InvoiceItem>, id: string, f: Field, v: Value): (r: seq<InvoiceItem>)
    requires Fits(f, v)
    ensures |r| == |items|
    ensures forall i :: 0 <= i < |items| && items[i].id != id ==> r[i] == items[i]
    ensures forall i :: 0 <= i < |items| && items[i].id == id ==> Get(r[i], f) == v
    ensures forall i, g :: 0 <= i < |items| && items[i].id == id && g != f ==>
              Get(r[i], g) == Get(items[i], g)
  {
    seq(|items|, i requires 0 <= i < |items| =>
      if items[i].id == id then Set(items[i], f, v) else items[i])
  }

  /** removeItem's updater: `prev.filter`, keeping the items whose id
      differs. Every other item is kept as often as it occurred. */
  function RemoveItems(items: seq<InvoiceItem>, id: string): (r: seq<InvoiceItem>)
    ensures |r| <= |items|
    ensures forall i :: 0 <= i < |r| ==> r[i].id != id
    ensures forall x: InvoiceItem :: x.id != id ==> multiset(r)[x] == multiset(items)[x]
  {
    if items == [] then []
    else
      var rest := RemoveItems(items[1..], id);
      assert items == [items[0]] + items[1..];
      RemoveStep(items[0], items[1..], rest, id);
      if items[0].id == id then rest else [items[0]] + rest
  }

  /** One step of the filter: the head is dropped when its id matches and
      kept in front otherwise. */
  lemma RemoveStep(x: InvoiceItem, tail: seq<InvoiceItem>, rest: seq<InvoiceItem>, id: string)
    requires |rest| <= |tail| && forall i :: 0 <= i < |rest| ==> rest[i].id != id
    requires forall y: InvoiceItem :: y.id != id ==> multiset(rest)[y] == multiset(tail)[y]
    ensures var r := if x.id == id then rest else [x] + rest;
      |r| <= 1 + |tail| && (forall i :: 0 <= i < |r| ==> r[i].id != id) &&
      forall y: InvoiceItem :: y.id != id ==> multiset(r)[y] == multiset([x] + tail)[y]
  {
    assert multiset([x] + tail) == multiset{x} + multiset(tail);
    assert multiset([x] + rest) == multiset{x} + multiset(rest);
  }

  /** A blank row adds nothing to any total. This rests on the model's
      zero rates: in the source the blank row has no discountRate or
      gstRate, so its discount, GST and grand total are NaN. */
  lemma AppendKeepsTotals(items: seq<InvoiceItem>, id: string)
    ensures InvoiceTotalsOf(AppendItem(items, id)) == InvoiceTotalsOf(items)
  {
    var r := AppendItem(items, id);
    assert r[..|r| - 1] == items;
  }

  /** Updating an id that is not in the list changes nothing. */
  lemma UpdateAbsent(items: seq<InvoiceItem>, id: string, f: Field, v: Value)
    requires Fits(f, v)
    requires forall i :: 0 <= i < |items| ==> items[i].id != id
    ensures UpdateItems(items, id, f, v) == items
  {
  }

  /** Removing an id that is not in the list changes nothing. */
  lemma {:induction false} RemoveAbsent(items: seq<InvoiceItem>, id: string)
    requires forall i :: 0 <= i < |items| ==> items[i].id != id
    ensures RemoveItems(items, id) == items
  {
    if items != [] {
      RemoveAbsent(items[1..], id);
    }
  }

  /** Removal works piece by piece, so the kept items stay in their
      relative order. */
  lemma {:induction false} RemoveDistributes(a: seq<InvoiceItem>, b: seq<InvoiceItem>, id: string)
    ensures RemoveItems(a + b, id) == RemoveItems(a, id) + RemoveItems(b, id)
  {
    if a == [] {
      assert a + b == b;
    } else {
      assert (a + b)[0] == a[0];
      assert (a + b)[1..] == a[1..] + b;
      RemoveDistributes(a[1..], b, id);
      var ra, rb := RemoveItems(a[1..], id), RemoveItems(b, id);
      assert [a[0]] + (ra + rb) == ([a[0]] + ra) + rb;
    }
  }

  /** Removing twice is removing once. */
  lemma RemoveIdempotent(items: seq<InvoiceItem>, id: string)
    ensures RemoveItems(RemoveItems(items, id), id) == RemoveItems(items, id)
  {
    RemoveAbsent(RemoveItems(items, id), id);
  }

  /** Two lists that agree position by position on an amount have the same
      sum of it. */
  lemma {:induction false} SumPointwise(a: seq<InvoiceItem>, b: seq<InvoiceItem>, f: InvoiceItem -> real)
    requires |a| == |b|
    requires forall i :: 0 <= i < |a| ==> f(a[i]) == f(b[i])
    ensures Sum(a, f) == Sum(b, f)
  {
    if a != [] {
      SumPointwise(a[..|a| - 1], b[..|b| - 1], f);
    }
  }

  lemma SetLabelKeepsAmounts(item: InvoiceItem, f: Field, v: Value)
    requires (f == Id || f == Name) && Fits(f, v)
    ensures var r := Set(item, f, v);
      Base(r) == Base(item) && DiscountAmount(r) == DiscountAmount(item) &&
      GstAmount(r) == GstAmount(item)
  {
  }

  /** Renaming an item, or changing its id, leaves every total as it was. */
  lemma UpdateLabelKeepsTotals(items: seq<InvoiceItem>, id: string, f: Field, v: Value)
    requires f == Id || f == Name
    requires Fits(f, v)
    ensures InvoiceTotalsOf(UpdateItems(items, id, f, v)) == InvoiceTotalsOf(items)
  {
    var r := UpdateItems(items, id, f, v);
    forall i | 0 <= i < |items|
      ensures Base(r[i]) == Base(items[i]) && DiscountAmount(r[i]) == DiscountAmount(items[i])
      ensures GstAmount(r[i]) == GstAmount(items[i])
    {
      if items[i].id == id {
        SetLabelKeepsAmounts(items[i], f, v);
      }
    }
    SameAmountsSameTotals(r, items);
  }

  /** Two lists whose lines agree on base, discount and GST have the same
      totals. */
  lemma SameAmountsSameTotals(a: seq<InvoiceItem>, b: seq<InvoiceItem>)
    requires |a| == |b|
    requires forall i :: 0 <= i < |a| ==>
      Base(a[i]) == Base(b[i]) && DiscountAmount(a[i]) == DiscountAmount(b[i]) &&
      GstAmount(a[i]) == GstAmount(b[i])
    ensures InvoiceTotalsOf(a) == InvoiceTotalsOf(b)
  {
    SumPointwise(a, b, Base);
    SumPointwise(a, b, DiscountAmount);
    SumPointwise(a, b, GstAmount);
    SameRawSameTotals(a, b);
  }

  /** The hook's state. The two rates are held and can be set, but the
      totals are computed from the items alone. */
  class Calculator {
    var items: seq<InvoiceItem>
    var taxRate: real
    var discountRate: real

    /** useState([]), useState(0), useState(0). */
    constructor ()
      ensures items == [] && taxRate == 0.0 && discountRate == 0.0
    {
      items := [];
      taxRate := 0.0;
      discountRate := 0.0;
    }

    /** The memoised totals: calculateInvoiceTotals on the current items;
        the rates are passed to it but play no part. */
    method Totals() returns (totals: InvoiceTotals)
      ensures totals == InvoiceTotalsOf(items)
    {
      totals := CalculateInvoiceTotals(items);
    }

    /** addItem, with the fresh id as a parameter. */
    method AddItem(freshId: string)
      modifies this
      ensures items == AppendItem(old(items), freshId)
      ensures taxRate == old(taxRate) && discountRate == old(discountRate)
    {
      items := items + [BlankItem(freshId)];
    }

    method UpdateItem(id: string, f: Field, v: Value)
      requires Fits(f, v)
      modifies this
      ensures items == UpdateItems(old(items), id, f, v)
      ensures taxRate == old(taxRate) && discountRate == old(discountRate)
    {
      items := UpdateItems(items, id, f, v);
    }

    method RemoveItem(id: string)
      modifies this
      ensures items == RemoveItems(old(items), id)
      ensures taxRate == old(taxRate) && discountRate == old(discountRate)
    {
      items := RemoveItems(items, id);
    }

    /** setTaxRate: the items, and so the totals, are untouched. */
    method SetTaxRate(rate: real)
      modifies this
      ensures taxRate == rate
      ensures items == old(items) && discountRate == old(discountRate)
    {
      taxRate := rate;
    }

    /** setDiscountRate: the items, and so the totals, are untouched. */
    method SetDiscountRate(rate: real)
      modifies this
      ensures discountRate == rate
      ensures items == old(items) && taxRate == old(taxRate)
    {
      discountRate := rate;
    }
  }

  /** Adding a blank row and removing it again, by a fresh id, restores
      the list and the totals. */
  method AddThenRemove(editor: Calculator, freshId: string)
    requires forall i :: 0 <= i < |editor.items| ==> editor.items[i].id != freshId
    modifies editor
    ensures editor.items == old(editor.items)
  {
    editor.AddItem(freshId);
    RemoveDistributes(old(editor.items), [BlankItem(freshId)], freshId);
    RemoveAbsent(old(editor.items), freshId);
    editor.RemoveItem(freshId);
  }
}
