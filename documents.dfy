/**
 * The documents screen (Documents.tsx): searching the list, deleting, and
 * the document lifecycle — a quotation converted to an invoice or to a
 * receipt, and a balance payment on a receipt that holds only a deposit.
 *
 * The pure parts (the converted record, the payment decision, the notes
 * text) are functions; the handlers are methods of `DocumentList`, which
 * holds the list the screen shows. Each handler receives the outcome of
 * its `api.saveDocument` / `api.deleteDocument` call as `saved` and
 * reports the record it handed to the store, if any.
 */
module Documents {
  import opened Text
  import opened Types
  import opened KeyedList
  import opened Money
  import Numbering
  import ForwardTax

  datatype TypeFilter = AllTypes | OnlyType(t: DocumentType)

  datatype PaymentMethod = Cash | Visa | Cheque

  /** How much of the total a receipt conversion records as paid. */
  datatype PaymentType = Full | Half | Custom

  function MethodName(m: PaymentMethod): string {
    match m
    case Cash => "CASH"
    case Visa => "VISA"
    case Cheque => "CHEQUE"
  }

  /** The record handed to the store, or none when a handler stopped before
    * calling it. */
  datatype StoreCall = NoCall | Call(doc: DocumentData)

  // ---------------------------------------------------------------------
  // Search
  // ---------------------------------------------------------------------

  predicate MatchesFilter(d: DocumentData, f: TypeFilter, term: string) {
    (f.AllTypes? || d.documentType == f.t) &&
    (MatchesIgnoringCase(d.documentNumber, term) || MatchesIgnoringCase(d.customer.name, term))
  }

  /** `filteredDocuments`: the type filter and the case-insensitive search
    * on number or customer name. */
  function FilteredDocuments(docs: seq<DocumentData>, f: TypeFilter, term: string): seq<DocumentData> {
    Filter(docs, d => MatchesFilter(d, f, term))
  }

  /** A document is listed exactly when it has the selected type (or the
    * filter is "all") and the term occurs in its number or its customer's
    * name, ignoring case; with "all" and an empty term the list is shown
    * whole and in order. */
  lemma FilteredDocumentsSpec(docs: seq<DocumentData>, f: TypeFilter, term: string)
    ensures forall d :: d in FilteredDocuments(docs, f, term) <==>
      d in docs && (f.AllTypes? || d.documentType == f.t) &&
      (Includes(Lower(d.documentNumber), Lower(term)) || Includes(Lower(d.customer.name), Lower(term)))
    ensures f.AllTypes? && term == "" ==> FilteredDocuments(docs, f, term) == docs
  {
    FilterMembers(docs, d => MatchesFilter(d, f, term));
    if f.AllTypes? && term == "" {
      forall i | 0 <= i < |docs| ensures MatchesFilter(docs[i], f, term) {
        EmptyTermMatchesEverything(docs[i].documentNumber);
      }
      FilterKeepsAll(docs, d => MatchesFilter(d, f, term));
    }
  }

  // ---------------------------------------------------------------------
  // Notes
  // ---------------------------------------------------------------------

  /** What `handleConvert` and the receipt conversion append: two line
    * breaks and the source number. */
  function ConvertedNote(number: string): string {
    "\n\nConverted from " + number
  }

  /** What the invoice conversion appends: the escape sequence written twice
    * in the template, so the notes receive a backslash and an `n`, twice,
    * instead of line breaks. */
  function LiteralConvertedNote(number: string): string {
    "\\n\\nConverted from " + number
  }

  /** The reference line, written only for card and cheque payments that
    * carry a reference. */
  function ReferenceLine(m: PaymentMethod, reference: string): string {
    if reference != "" && (m == Visa || m == Cheque) then
      "\n" + (if m == Visa then "Card No." else "Cheque No.") + ": " + reference
    else ""
  }

  /** The payment block of a receipt conversion. */
  function ReceiptPaymentInfo(m: PaymentMethod, reference: string, paid: real, total: real): string {
    "Payment Method: " + MethodName(m) + ReferenceLine(m, reference) +
    "\nAmount Paid: $" + Fixed2(paid) + "\nTotal: $" + Fixed2(total)
  }

  /** The block a balance payment appends; `dateLabel` is the locale date. */
  function BalancePaymentInfo(dateLabel: string, m: PaymentMethod, reference: string,
                              amount: real, newPaid: real, total: real): string {
    BalanceHeader(dateLabel) + BalanceLines(m, reference, amount, newPaid, total)
  }

  /** The lines under the header: method, reference, amount, running total. */
  function BalanceLines(m: PaymentMethod, reference: string, amount: real, newPaid: real, total: real): string {
    "\nPayment Method: " + MethodName(m) + ReferenceLine(m, reference) +
    "\nAmount Paid: $" + Fixed2(amount) +
    "\nTotal Paid: $" + Fixed2(newPaid) + " / $" + Fixed2(total)
  }

  /** The first line of a balance-payment block. */
  function BalanceHeader(dateLabel: string): string {
    "\n\nBalance Payment (" + dateLabel + ")"
  }

  /** The two conversion notes differ: one holds line breaks and no
    * backslash, the other backslashes and no line break. */
  lemma ConversionNotesDiffer(number: string)
    requires '\n' !in number && '\\' !in number
    ensures ConvertedNote(number)[..2] == "\n\n" && '\\' !in ConvertedNote(number)
    ensures LiteralConvertedNote(number)[..2] == "\\n" && '\n' !in LiteralConvertedNote(number)
    ensures ConvertedNote(number) != LiteralConvertedNote(number)
  {
    assert ConvertedNote(number)[0] == '\n';
    assert LiteralConvertedNote(number)[0] == '\\';
  }

  // ---------------------------------------------------------------------
  // Conversions
  // ---------------------------------------------------------------------

  /** The prefix `handleConvert` picks: INV for an invoice, REC otherwise. */
  function ConvertPrefix(t: DocumentType): string {
    if t == Invoice then "INV" else "REC"
  }

  /** The record `handleConvert` builds. */
  function Converted(docs: seq<DocumentData>, doc: DocumentData, newType: DocumentType, today: int): DocumentData {
    var n := Numbering.NextNumber(docs, newType);
    doc.(documentType := newType,
         documentNumber := ConvertPrefix(newType) + "-" + PadStart(NatToDigits(n), 3, '0'),
         date := today,
         notes := doc.notes + ConvertedNote(doc.documentNumber))
  }

  /** The record the invoice conversion builds. */
  function InvoiceFrom(docs: seq<DocumentData>, q: DocumentData, today: int): DocumentData {
    q.(documentType := Invoice,
       documentNumber := Numbering.NextDocumentNumber(docs, Invoice),
       date := today,
       notes := q.notes + LiteralConvertedNote(q.documentNumber))
  }

  /** The custom amount is refused when it is missing or not positive. */
  predicate CustomAmountInvalid(payType: PaymentType, custom: Option<real>) {
    payType == Custom && (custom.None? || custom.value <= 0.0)
  }

  /** The amount a receipt conversion records as paid. */
  function PaidAmount(payType: PaymentType, total: real, custom: Option<real>): real
    requires !CustomAmountInvalid(payType, custom)
  {
    match payType
    case Full => total
    case Half => total * 0.5
    case Custom => custom.value
  }

  /** The receipt `handleConvertToReceipt` builds, or `None` when it refuses
    * the custom amount. */
  function ReceiptFrom(docs: seq<DocumentData>, q: DocumentData, today: int, payType: PaymentType,
                       custom: Option<real>, m: PaymentMethod, reference: string): Option<DocumentData>
  {
    if CustomAmountInvalid(payType, custom) then None
    else
      var total := ForwardTax.Total(q);
      var paid := PaidAmount(payType, total, custom);
      Some(q.(documentType := Receipt,
              documentNumber := Numbering.NextDocumentNumber(docs, Receipt),
              date := today,
              notes := q.notes + ConvertedNote(q.documentNumber) + "\n" + ReceiptPaymentInfo(m, reference, paid, total),
              paymentAmount := Some(paid),
              paymentStatus := Some(if payType == Full then Completed else DepositMade)))
  }

  /** Everything a conversion does not set is copied from the source. */
  predicate KeepsContent(r: DocumentData, q: DocumentData) {
    r.customer == q.customer && r.lineItems == q.lineItems &&
    r.taxRate == q.taxRate && r.discount == q.discount
  }

  /** `handleConvert` to an invoice or a receipt numbers the copy with the
    * next number of that type; asked for a quotation it would still write
    * a REC prefix, over the quotation count. */
  lemma ConvertedSpec(docs: seq<DocumentData>, doc: DocumentData, newType: DocumentType, today: int)
    ensures var r := Converted(docs, doc, newType, today);
      && KeepsContent(r, doc)
      && r.paymentAmount == doc.paymentAmount && r.paymentStatus == doc.paymentStatus
      && r.documentType == newType && r.date == today
      && r.notes == doc.notes + ConvertedNote(doc.documentNumber)
      && (newType != Quotation ==> r.documentNumber == Numbering.NextDocumentNumber(docs, newType))
      && (newType == Quotation ==> r.documentNumber[..4] == "REC-")
  {
  }

  /** The invoice is the quotation with four fields changed: type, a fresh
    * invoice number, the date, and the notes extended by the source number;
    * its forward-tax total is the quotation's. */
  lemma InvoiceFromSpec(docs: seq<DocumentData>, q: DocumentData, today: int)
    ensures var r := InvoiceFrom(docs, q, today);
      && KeepsContent(r, q)
      && r.paymentAmount == q.paymentAmount && r.paymentStatus == q.paymentStatus
      && r.documentType == Invoice && r.date == today
      && r.notes == q.notes + LiteralConvertedNote(q.documentNumber)
      && r.documentNumber == Numbering.NextDocumentNumber(docs, Invoice)
      && (forall d :: d in docs && d.documentType == Invoice ==> d.documentNumber != r.documentNumber)
      && ForwardTax.Total(r) == ForwardTax.Total(q)
  {
    Numbering.NextNumberIsFresh(docs, Invoice);
  }

  /** The receipt conversion refuses exactly a missing or non-positive custom
    * amount. Otherwise the receipt records the full total, half of it, or
    * the custom amount without any upper bound, and it is `Completed`
    * exactly for a full payment. */
  lemma ReceiptFromSpec(docs: seq<DocumentData>, q: DocumentData, today: int, payType: PaymentType,
                        custom: Option<real>, m: PaymentMethod, reference: string)
    ensures var r := ReceiptFrom(docs, q, today, payType, custom, m, reference);
      && (r.None? <==> payType == Custom && (custom.None? || custom.value <= 0.0))
      && (r.Some? ==>
            && KeepsContent(r.value, q)
            && r.value.documentType == Receipt && r.value.date == today
            && r.value.documentNumber == Numbering.NextDocumentNumber(docs, Receipt)
            && q.notes + ConvertedNote(q.documentNumber) + "\n" <= r.value.notes
            && r.value.paymentAmount == Some(match payType
                                             case Full => ForwardTax.Total(q)
                                             case Half => ForwardTax.Total(q) / 2.0
                                             case Custom => custom.value)
            && (r.value.paymentStatus == Some(Completed) <==> payType == Full)
            && (r.value.paymentStatus == Some(DepositMade) <==> payType != Full))
  {
    var r := ReceiptFrom(docs, q, today, payType, custom, m, reference);
    if r.Some? {
      var prefix := q.notes + ConvertedNote(q.documentNumber) + "\n";
      assert r.value.notes == prefix + ReceiptPaymentInfo(m, reference, r.value.paymentAmount.value, ForwardTax.Total(q));
    }
  }

  // ---------------------------------------------------------------------
  // Balance payment
  // ---------------------------------------------------------------------

  /** `paymentAmount || 0` */
  function PaidSoFar(d: DocumentData): real {
    match d.paymentAmount
    case Some(p) => p
    case None => 0.0
  }

  datatype BalanceDecision = InvalidAmount | ExceedsBalance | Accept(newPaid: real, status: PaymentStatus)

  /** The checks of `handleBalancePayment`: a missing or non-positive
    * amount is refused, then the new paid total and the document total are
    * compared after rounding to cents. */
  function DecideBalance(receipt: DocumentData, amount: Option<real>): BalanceDecision {
    if amount.None? || amount.value <= 0.0 then InvalidAmount
    else
      var total := ForwardTax.Total(receipt);
      var newPaid := PaidSoFar(receipt) + amount.value;
      if Round2(newPaid) > Round2(total) then ExceedsBalance
      else Accept(newPaid, if Round2(newPaid) >= Round2(total) then Completed else DepositMade)
  }

  /** The receipt after an accepted balance payment. */
  function AfterBalance(receipt: DocumentData, amount: real, newPaid: real, status: PaymentStatus,
                        dateLabel: string, m: PaymentMethod, reference: string): DocumentData {
    receipt.(paymentAmount := Some(newPaid),
             paymentStatus := Some(status),
             notes := receipt.notes + BalancePaymentInfo(dateLabel, m, reference, amount, newPaid, ForwardTax.Total(receipt)))
  }

  /** The balance payment is refused for a missing or non-positive amount,
    * and refused as an overpayment exactly when the cent-rounded new paid
    * total is above the cent-rounded document total. An accepted payment
    * stores the unrounded sum, is `Completed` exactly when the two rounded
    * figures are equal, and never exceeds the total by a cent or more. */
  lemma DecideBalanceSpec(receipt: DocumentData, amount: Option<real>)
    ensures var r := DecideBalance(receipt, amount);
            var total := ForwardTax.Total(receipt);
      && (r == InvalidAmount <==> amount.None? || amount.value <= 0.0)
      && (r == ExceedsBalance <==>
            amount.Some? && amount.value > 0.0 && Round2(PaidSoFar(receipt) + amount.value) > Round2(total))
      && (r.Accept? ==>
            && r.newPaid == PaidSoFar(receipt) + amount.value
            && r.newPaid < total + 0.01
            && (r.status == Completed <==> Round2(r.newPaid) == Round2(total)))
  {
    var r := DecideBalance(receipt, amount);
    if r.Accept? {
      Round2NotAboveMeansWithinCent(r.newPaid, ForwardTax.Total(receipt));
    }
  }

  /** Paying exactly the remaining balance is accepted and completes the
    * receipt. */
  lemma PayingRemainderCompletes(receipt: DocumentData)
    requires PaidSoFar(receipt) < ForwardTax.Total(receipt)
    ensures DecideBalance(receipt, Some(ForwardTax.Total(receipt) - PaidSoFar(receipt)))
            == Accept(ForwardTax.Total(receipt), Completed)
  {
  }

  /** The accepted payment changes the paid amount, the status and the
    * notes, and nothing else; the old notes are kept in front. */
  lemma AfterBalanceSpec(receipt: DocumentData, amount: real, newPaid: real, status: PaymentStatus,
                         dateLabel: string, m: PaymentMethod, reference: string)
    ensures var r := AfterBalance(receipt, amount, newPaid, status, dateLabel, m, reference);
      && KeepsContent(r, receipt)
      && r.documentType == receipt.documentType && r.documentNumber == receipt.documentNumber
      && r.date == receipt.date
      && r.paymentAmount == Some(newPaid) && r.paymentStatus == Some(status)
      && receipt.notes + BalanceHeader(dateLabel) <= r.notes
  {
    var total := ForwardTax.Total(receipt);
    var rest := BalanceLines(m, reference, amount, newPaid, total);
    var head := receipt.notes + BalanceHeader(dateLabel);
    var r := AfterBalance(receipt, amount, newPaid, status, dateLabel, m, reference);
    assert r.notes == receipt.notes + BalancePaymentInfo(dateLabel, m, reference, amount, newPaid, total);
    ConcatAssoc(receipt.notes, BalanceHeader(dateLabel), rest);
    PrefixOfConcat(head, rest);
  }

  // ---------------------------------------------------------------------
  // What the list offers
  // ---------------------------------------------------------------------

  /** Only quotations show the two conversion buttons. */
  predicate OffersConversion(d: DocumentData) {
    d.documentType == Quotation
  }

  /** Only receipts holding a deposit show the balance button. */
  predicate OffersBalancePayment(d: DocumentData) {
    d.documentType == Receipt && d.paymentStatus == Some(DepositMade)
  }

  /** A fully paid receipt offers no balance payment and a partly paid one
    * does; no receipt offers a further conversion. */
  lemma ConversionOffers(docs: seq<DocumentData>, q: DocumentData, today: int, payType: PaymentType,
                         custom: Option<real>, m: PaymentMethod, reference: string)
    requires ReceiptFrom(docs, q, today, payType, custom, m, reference).Some?
    ensures var r := ReceiptFrom(docs, q, today, payType, custom, m, reference).value;
      && !OffersConversion(r)
      && (OffersBalancePayment(r) <==> payType != Full)
  {
  }

  /** A balance payment that completes the receipt removes the balance
    * button; one that does not keeps it. */
  lemma BalanceOffers(receipt: DocumentData, amount: real, newPaid: real, status: PaymentStatus,
                      dateLabel: string, m: PaymentMethod, reference: string)
    requires OffersBalancePayment(receipt)
    ensures OffersBalancePayment(AfterBalance(receipt, amount, newPaid, status, dateLabel, m, reference))
            <==> status == DepositMade
  {
  }

  /** A worked case: a quotation totalling 1000 converted at 50% records 500
    * as a deposit; a further 500 completes it; 600 would overpay. */
  lemma HalfThenBalance(docs: seq<DocumentData>, q: DocumentData, today: int, m: PaymentMethod, reference: string)
    requires ForwardTax.Total(q) == 1000.0
    ensures var r := ReceiptFrom(docs, q, today, Half, None, m, reference);
      && r.Some? && r.value.paymentAmount == Some(500.0) && r.value.paymentStatus == Some(DepositMade)
      && DecideBalance(r.value, Some(500.0)) == Accept(1000.0, Completed)
      && DecideBalance(r.value, Some(600.0)) == ExceedsBalance
  {
    ReceiptFromSpec(docs, q, today, Half, None, m, reference);
    var r := ReceiptFrom(docs, q, today, Half, None, m, reference).value;
    TotalFollowsContent(r, q);
    DepositOfHalf(r);
  }

  /** The forward-tax total depends only on the fields a conversion copies. */
  lemma TotalFollowsContent(r: DocumentData, q: DocumentData)
    requires KeepsContent(r, q)
    ensures ForwardTax.Total(r) == ForwardTax.Total(q)
  {
  }

  lemma DepositOfHalf(r: DocumentData)
    requires ForwardTax.Total(r) == 1000.0 && PaidSoFar(r) == 500.0
    ensures DecideBalance(r, Some(500.0)) == Accept(1000.0, Completed)
    ensures DecideBalance(r, Some(600.0)) == ExceedsBalance
  {
    Round2OfCents(100000);
    Round2OfCents(110000);
    assert 100000 as real / 100.0 == 1000.0;
    assert 110000 as real / 100.0 == 1100.0;
  }

  // ---------------------------------------------------------------------
  // The screen's handlers
  // ---------------------------------------------------------------------

  class DocumentList {
    var documents: seq<DocumentData>

    constructor(docs: seq<DocumentData>)
      ensures documents == docs
    {
      documents := docs;
    }

    /** `handleDelete`: after confirmation the store is asked to delete;
      * the list loses every document with that number only when it did. */
    method Delete(number: string, confirmed: bool, saved: bool) returns (deleted: bool)
      modifies this
      ensures deleted == (confirmed && saved)
      ensures documents == if deleted then RemoveKey(old(documents), number, NumberOf) else old(documents)
      ensures forall d :: d in documents <==> d in old(documents) && (deleted ==> d.documentNumber != number)
    {
      deleted := confirmed && saved;
      RemoveKeyMembers(documents, number, NumberOf);
      if deleted {
        documents := RemoveKey(documents, number, NumberOf);
      }
    }

    /** `handleConvert`: the copy is saved, then appended. */
    method Convert(doc: DocumentData, newType: DocumentType, today: int, saved: bool) returns (call: StoreCall)
      modifies this
      ensures call == Call(Converted(old(documents), doc, newType, today))
      ensures documents == if saved then old(documents) + [call.doc] else old(documents)
    {
      call := Call(Converted(documents, doc, newType, today));
      if saved {
        documents := documents + [call.doc];
      }
    }

    /** `handleConvertToInvoice`: with no quotation selected nothing happens;
      * otherwise the invoice is saved and appended, the quotation staying
      * where it was. */
    method ConvertToInvoice(source: Option<DocumentData>, today: int, saved: bool) returns (call: StoreCall)
      modifies this
      ensures source.None? ==> call == NoCall && documents == old(documents)
      ensures source.Some? ==> call == Call(InvoiceFrom(old(documents), source.value, today))
      ensures documents == if call.Call? && saved then old(documents) + [call.doc] else old(documents)
      ensures |documents| == |old(documents)| + (if call.Call? && saved then 1 else 0)
      ensures documents[..|old(documents)|] == old(documents)
    {
      if source.None? {
        return NoCall;
      }
      call := Call(InvoiceFrom(documents, source.value, today));
      if saved {
        documents := documents + [call.doc];
      }
    }

    /** `handleConvertToReceipt`: a refused custom amount stops before the
      * store is called; otherwise the receipt is saved and appended. */
    method ConvertToReceipt(source: Option<DocumentData>, payType: PaymentType, custom: Option<real>,
                            m: PaymentMethod, reference: string, today: int, saved: bool)
      returns (call: StoreCall)
      modifies this
      ensures source.None? || CustomAmountInvalid(payType, custom) ==> call == NoCall
      ensures source.Some? && !CustomAmountInvalid(payType, custom) ==>
                call == Call(ReceiptFrom(old(documents), source.value, today, payType, custom, m, reference).value)
      ensures documents == if call.Call? && saved then old(documents) + [call.doc] else old(documents)
    {
      if source.None? {
        return NoCall;
      }
      var r := ReceiptFrom(documents, source.value, today, payType, custom, m, reference);
      if r.None? {
        return NoCall;
      }
      call := Call(r.value);
      if saved {
        documents := documents + [call.doc];
      }
    }

    /** `handleBalancePayment`: a refused amount stops before the store is
      * called; otherwise the updated receipt is saved and then replaces,
      * in place, every document carrying its number. */
    method BalancePayment(receipt: Option<DocumentData>, amount: Option<real>, m: PaymentMethod,
                          reference: string, dateLabel: string, saved: bool)
      returns (call: StoreCall)
      modifies this
      ensures receipt.None? || !DecideBalance(receipt.value, amount).Accept? ==> call == NoCall
      ensures receipt.Some? && DecideBalance(receipt.value, amount).Accept? ==>
                var dec := DecideBalance(receipt.value, amount);
                call == Call(AfterBalance(receipt.value, amount.value, dec.newPaid, dec.status, dateLabel, m, reference))
      ensures documents == if call.Call? && saved
                           then ReplaceKey(old(documents), call.doc.documentNumber, call.doc, NumberOf)
                           else old(documents)
      ensures |documents| == |old(documents)|
      ensures forall i :: 0 <= i < |documents| ==> documents[i].documentNumber == old(documents)[i].documentNumber
      ensures forall i :: 0 <= i < |documents| && documents[i] != old(documents)[i] ==> call.Call? && documents[i] == call.doc
    {
      if receipt.None? {
        return NoCall;
      }
      var dec := DecideBalance(receipt.value, amount);
      if !dec.Accept? {
        return NoCall;
      }
      var updated := AfterBalance(receipt.value, amount.value, dec.newPaid, dec.status, dateLabel, m, reference);
      call := Call(updated);
      if saved {
        ReplaceKeySpec(documents, updated.documentNumber, updated, NumberOf);
        documents := ReplaceKey(documents, updated.documentNumber, updated, NumberOf);
      }
    }
  }
}
