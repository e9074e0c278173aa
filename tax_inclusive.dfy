/**
 * The tax-inclusive totals of the printable document (generate-pdf-html.ts)
 * and of the dashboard: areas in square metres, each line priced with its
 * accessories, the discount taken off, and the pre-tax part recovered by
 * dividing by a fixed 1.15 whatever the document's tax rate.
 */
module TaxInclusive {
  import opened Types
  import opened Money

  /** `width * height / 1000000`: millimetres to square metres. */
  function Area(i: ItemData): real {
    (i.width * i.height) as real / 1000000.0
  }

  /** `area * quantity * pricePerSqm + (accessoryPrice || 0)` */
  function LineTotal(i: ItemData): real {
    Area(i) * i.quantity as real * i.pricePerSqm + AccessoryOrZero(i)
  }

  /** The `calculateSubtotal` reduce: for each item, the price of one unit
    * (`area * pricePerSqm`) times the quantity, then the accessory price. */
  function ItemsTotal(items: seq<LineItem>): real
    decreases |items|
  {
    if items == [] then 0.0
    else
      var item := items[|items| - 1].data;
      var priceForOne := Area(item) * item.pricePerSqm;
      ItemsTotal(items[..|items| - 1]) + priceForOne * item.quantity as real + AccessoryOrZero(item)
  }

  /** The line totals of a document, in item order. */
  function LineTotals(items: seq<LineItem>): (r: seq<real>)
    ensures |r| == |items| && forall k :: 0 <= k < |items| ==> r[k] == LineTotal(items[k].data)
  {
    seq(|items|, k requires 0 <= k < |items| => LineTotal(items[k].data))
  }

  /** `itemsTotal - discount`: the amount the customer pays, tax included. */
  function TotalWithTax(d: DocumentData): real {
    ItemsTotal(d.lineItems) - d.discount
  }

  /** `totalWithTax / 1.15` */
  function BackSubtotal(d: DocumentData): real {
    TotalWithTax(d) / 1.15
  }

  /** `totalWithTax - subtotal` */
  function TaxAmount(d: DocumentData): real {
    TotalWithTax(d) - BackSubtotal(d)
  }

  /** The heading of the printable document. */
  function DocumentTitle(t: DocumentType): string {
    match t
    case Quotation => "QUOTATION"
    case Invoice => "INVOICE"
    case Receipt => "RECEIPT"
  }

  /** The status badge of the printable document (by type only). */
  function StatusLabel(t: DocumentType): string {
    match t
    case Quotation => "Pending"
    case Invoice => "Sent"
    case Receipt => "Completed"
  }

  // ---------------------------------------------------------------------
  // Properties
  // ---------------------------------------------------------------------

  /** The items total is the sum of the printed line totals. */
  lemma {:induction false} ItemsTotalIsSumOfLineTotals(items: seq<LineItem>)
    ensures ItemsTotal(items) == Sum(LineTotals(items))
    decreases |items|
  {
    if items != [] {
      var init := items[..|items| - 1];
      ItemsTotalIsSumOfLineTotals(init);
      assert LineTotals(items)[..|items| - 1] == LineTotals(init);
      var item := items[|items| - 1].data;
      assert (Area(item) * item.pricePerSqm) * item.quantity as real == Area(item) * item.quantity as real * item.pricePerSqm;
    }
  }

  /** Adding an item adds its line total. */
  lemma ItemsTotalAppend(items: seq<LineItem>, x: LineItem)
    ensures ItemsTotal(items + [x]) == ItemsTotal(items) + LineTotal(x.data)
  {
    assert (items + [x])[..|items|] == items;
    var i := x.data;
    assert (Area(i) * i.pricePerSqm) * i.quantity as real == Area(i) * i.quantity as real * i.pricePerSqm;
  }

  /** With no items the total is minus the discount. */
  lemma NoItemsTotal(d: DocumentData)
    requires d.lineItems == []
    ensures TotalWithTax(d) == -d.discount
  {
  }

  /** The pre-tax part and the tax add back up to the tax-inclusive total,
    * and the tax is 15/115 of it. */
  lemma SubtotalPlusTax(d: DocumentData)
    ensures BackSubtotal(d) + TaxAmount(d) == TotalWithTax(d)
    ensures TaxAmount(d) * 1.15 == TotalWithTax(d) * 0.15
  {
  }

  /** The document's own tax rate plays no part in the printed figures. */
  lemma TaxRateIgnored(d: DocumentData, rate: real)
    ensures TotalWithTax(d.(taxRate := rate)) == TotalWithTax(d)
    ensures BackSubtotal(d.(taxRate := rate)) == BackSubtotal(d)
    ensures TaxAmount(d.(taxRate := rate)) == TaxAmount(d)
  {
  }

  /** Title and status label are defined for every type, and different types
    * get different titles. */
  lemma TitlesDistinct(s: DocumentType, t: DocumentType)
    ensures DocumentTitle(s) == DocumentTitle(t) <==> s == t
    ensures StatusLabel(s) == StatusLabel(t) <==> s == t
  {
  }
}
