/**
 * The forward-tax totals of the on-screen preview (DocumentPreview.tsx) and
 * of the documents list (`calculateTotal` in Documents.tsx): every row is
 * `width * height * quantity * pricePerSqm` taken literally, in millimetres
 * squared and without the accessory price, then the discount is taken off
 * and `taxRate` percent is added on top.
 */
module ForwardTax {
  import opened Types
  import opened Money
  import TaxInclusive

  /** `item.width * item.height * item.quantity * item.pricePerSqm` */
  function RowTotal(i: ItemData): real {
    (i.width * i.height * i.quantity) as real * i.pricePerSqm
  }

  /** The row totals the preview table prints, in item order. */
  function RowTotals(items: seq<LineItem>): (r: seq<real>)
    ensures |r| == |items| && forall k :: 0 <= k < |items| ==> r[k] == RowTotal(items[k].data)
  {
    seq(|items|, k requires 0 <= k < |items| => RowTotal(items[k].data))
  }

  /** The `calculateSubtotal` reduce of the preview and of `calculateTotal`. */
  function Subtotal(items: seq<LineItem>): real
    decreases |items|
  {
    if items == [] then 0.0
    else Subtotal(items[..|items| - 1]) + RowTotal(items[|items| - 1].data)
  }

  /** `subtotal - discount` */
  function AfterDiscount(d: DocumentData): real {
    Subtotal(d.lineItems) - d.discount
  }

  /** `subtotalAfterDiscount * taxRate / 100` */
  function Tax(d: DocumentData): real {
    AfterDiscount(d) * d.taxRate / 100.0
  }

  /** `subtotalAfterDiscount + taxAmount`: the preview total, and the value
    * `calculateTotal` returns for the documents list, the receipt amounts
    * and the balance-payment guard. */
  function Total(d: DocumentData): real {
    AfterDiscount(d) + Tax(d)
  }

  /** The preview heading. */
  function Title(t: DocumentType): string {
    match t
    case Quotation => "QUOTATION"
    case Invoice => "INVOICE"
    case Receipt => "RECEIPT"
  }

  // ---------------------------------------------------------------------
  // Properties
  // ---------------------------------------------------------------------

  /** The rows of the preview table add up to its subtotal. */
  lemma {:induction false} RowsSumToSubtotal(items: seq<LineItem>)
    ensures Sum(RowTotals(items)) == Subtotal(items)
    decreases |items|
  {
    if items != [] {
      var init := items[..|items| - 1];
      RowsSumToSubtotal(init);
      assert RowTotals(items)[..|items| - 1] == RowTotals(init);
    }
  }

  /** The total is the discounted subtotal scaled by `1 + taxRate/100`. */
  lemma TotalClosedForm(d: DocumentData)
    ensures Total(d) == (Subtotal(d.lineItems) - d.discount) * (1.0 + d.taxRate / 100.0)
  {
  }

  /** Accessory prices never reach this total. */
  lemma {:induction false} SubtotalIgnoresAccessories(items: seq<LineItem>, other: seq<LineItem>)
    requires |items| == |other|
    requires forall k :: 0 <= k < |items| ==> items[k].data == other[k].data.(accessoryPrice := items[k].data.accessoryPrice)
    ensures Subtotal(items) == Subtotal(other)
    decreases |items|
  {
    if items != [] {
      SubtotalIgnoresAccessories(items[..|items| - 1], other[..|other| - 1]);
    }
  }

  /** Each row is the millimetre-squared figure: a million times the
    * area-based price of the printable document, accessory left out. */
  lemma RowIsMillionTimesAreaPrice(i: ItemData)
    ensures RowTotal(i) == 1000000.0 * (TaxInclusive.LineTotal(i) - AccessoryOrZero(i))
  {
    assert TaxInclusive.Area(i) * 1000000.0 == (i.width * i.height) as real;
    assert (i.width * i.height * i.quantity) as real == (i.width * i.height) as real * i.quantity as real;
  }

  /** Different types get different headings. */
  lemma TitlesDistinct(s: DocumentType, t: DocumentType)
    ensures Title(s) == Title(t) <==> s == t
  {
  }
}
