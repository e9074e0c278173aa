/**
 * The dashboard (Dashboard.tsx): counts by type and status, the revenue
 * taken on receipts, the documents dated today, and the five most recent
 * documents with their displayed amount and status. Dates are day numbers
 * and `today` is the current day.
 */
module Dashboard {
  import opened Text
  import opened Types
  import opened KeyedList
  import TaxInclusive

  predicate IsType(d: DocumentData, t: DocumentType) { d.documentType == t }

  /** `documents.filter(doc => doc.documentType === t)` */
  function OfType(docs: seq<DocumentData>, t: DocumentType): seq<DocumentData> {
    Filter(docs, (d: DocumentData) => IsType(d, t))
  }

  /** The revenue filter: quotations and invoices are dropped, and so are
    * receipts whose status is `Pending`, which no receipt has. */
  predicate CountsAsRevenue(d: DocumentData) {
    d.documentType == Receipt
  }

  /** What one kept document adds: the amount paid when recorded, otherwise
    * its tax-inclusive total. */
  function RevenueOf(d: DocumentData): real {
    if d.documentType == Receipt && d.paymentAmount.Some? then d.paymentAmount.value
    else TaxInclusive.TotalWithTax(d)
  }

  /** The revenue reduce over a list already filtered. */
  function SumRevenue(docs: seq<DocumentData>): real
    decreases |docs|
  {
    if docs == [] then 0.0 else SumRevenue(docs[..|docs| - 1]) + RevenueOf(docs[|docs| - 1])
  }

  /** `totalRevenue` */
  function TotalRevenue(docs: seq<DocumentData>): real {
    SumRevenue(Filter(docs, CountsAsRevenue))
  }

  predicate IsCompleted(d: DocumentData) { d.paymentStatus == Some(Completed) }

  /** `completedReceipts` */
  function CompletedReceipts(docs: seq<DocumentData>): nat {
    |Filter(OfType(docs, Receipt), IsCompleted)|
  }

  /** The documents of a type dated today or later. */
  function RecentOfType(docs: seq<DocumentData>, t: DocumentType, today: int): seq<DocumentData> {
    Filter(OfType(docs, t), (d: DocumentData) => d.date >= today)
  }

  /** `receiptsCompletedToday` */
  function ReceiptsCompletedToday(docs: seq<DocumentData>, today: int): nat {
    |Filter(OfType(docs, Receipt), (d: DocumentData) => IsCompleted(d) && d.date >= today)|
  }

  // ---------------------------------------------------------------------
  // Recent documents
  // ---------------------------------------------------------------------

  /** Latest first. */
  predicate NewestFirst(s: seq<DocumentData>) {
    forall i, j :: 0 <= i < j < |s| ==> s[i].date >= s[j].date
  }

  /** Puts `x` before the first document not newer than it. */
  function Insert(x: DocumentData, s: seq<DocumentData>): seq<DocumentData>
    decreases |s|
  {
    if s == [] || x.date >= s[0].date then [x] + s else [s[0]] + Insert(x, s[1..])
  }

  /** The sort by date, latest first. */
  function SortNewestFirst(s: seq<DocumentData>): seq<DocumentData>
    decreases |s|
  {
    if s == [] then [] else Insert(s[0], SortNewestFirst(s[1..]))
  }

  /** The documents dated `day`, in list order. */
  function OnDay(s: seq<DocumentData>, day: int): seq<DocumentData> {
    Filter(s, (d: DocumentData) => d.date == day)
  }

  /** `recentDocuments`: the first five of the sorted list. */
  function RecentDocuments(docs: seq<DocumentData>): seq<DocumentData> {
    var sorted := SortNewestFirst(docs);
    if |sorted| <= 5 then sorted else sorted[..5]
  }

  /** The amount shown: the amount paid for a receipt that records one,
    * otherwise the tax-inclusive total. */
  function DisplayAmount(d: DocumentData): real {
    RevenueOf(d)
  }

  /** The status shown: by type, unless a receipt records its payment
    * status. */
  function StatusOf(d: DocumentData): string {
    if d.documentType == Receipt && d.paymentStatus.Some? then
      (if d.paymentStatus.value == Completed then "Completed" else "Deposit Made")
    else match d.documentType
      case Quotation => "Pending"
      case Invoice => "Sent"
      case Receipt => "Completed"
  }

  // ---------------------------------------------------------------------
  // Properties
  // ---------------------------------------------------------------------

  /** The three type counts partition the documents. */
  lemma {:induction false} CountsPartition(docs: seq<DocumentData>)
    ensures |OfType(docs, Quotation)| + |OfType(docs, Invoice)| + |OfType(docs, Receipt)| == |docs|
    decreases |docs|
  {
    if docs != [] {
      CountsPartition(docs[1..]);
    }
  }

  /** Filtering twice is filtering by both tests. */
  lemma {:induction false} FilterTwice(s: seq<DocumentData>, p: DocumentData -> bool, q: DocumentData -> bool, both: DocumentData -> bool)
    requires forall d :: both(d) == (p(d) && q(d))
    ensures Filter(Filter(s, p), q) == Filter(s, both)
    decreases |s|
  {
    if s != [] {
      FilterTwice(s[1..], p, q, both);
      var head := if p(s[0]) then [s[0]] else [];
      FilterConcat(head, Filter(s[1..], p), q);
    }
  }

  /** The completed count is the number of receipts whose status is
    * `Completed`, at most the number of receipts; those completed today
    * are among them. */
  lemma CompletedReceiptsSpec(docs: seq<DocumentData>, today: int)
    ensures CompletedReceipts(docs) == |Filter(docs, (d: DocumentData) => d.documentType == Receipt && d.paymentStatus == Some(Completed))|
    ensures CompletedReceipts(docs) <= |OfType(docs, Receipt)|
    ensures ReceiptsCompletedToday(docs, today) == |Filter(docs, (d: DocumentData) => d.documentType == Receipt && IsCompleted(d) && d.date >= today)|
  {
    FilterTwice(docs, (d: DocumentData) => IsType(d, Receipt), IsCompleted,
                (d: DocumentData) => d.documentType == Receipt && d.paymentStatus == Some(Completed));
    FilterTwice(docs, (d: DocumentData) => IsType(d, Receipt), (d: DocumentData) => IsCompleted(d) && d.date >= today,
                (d: DocumentData) => d.documentType == Receipt && IsCompleted(d) && d.date >= today);
  }

  lemma {:induction false} SumRevenueConcat(a: seq<DocumentData>, b: seq<DocumentData>)
    ensures SumRevenue(a + b) == SumRevenue(a) + SumRevenue(b)
    decreases |b|
  {
    if b == [] {
      assert a + b == a;
    } else {
      SumRevenueConcat(a, b[..|b| - 1]);
      assert (a + b)[..|a + b| - 1] == a + b[..|b| - 1];
    }
  }

  /** Only receipts bring revenue: a quotation or an invoice adds nothing,
    * a receipt adds its amount paid, or its tax-inclusive total when no
    * amount is recorded. */
  lemma RevenueAppend(docs: seq<DocumentData>, d: DocumentData)
    ensures d.documentType != Receipt ==> TotalRevenue(docs + [d]) == TotalRevenue(docs)
    ensures d.documentType == Receipt && d.paymentAmount.Some? ==>
              TotalRevenue(docs + [d]) == TotalRevenue(docs) + d.paymentAmount.value
    ensures d.documentType == Receipt && d.paymentAmount.None? ==>
              TotalRevenue(docs + [d]) == TotalRevenue(docs) + TaxInclusive.ItemsTotal(d.lineItems) - d.discount
  {
    FilterConcat(docs, [d], CountsAsRevenue);
    var kept := Filter(docs, CountsAsRevenue);
    var last := Filter([d], CountsAsRevenue);
    SumRevenueConcat(kept, last);
    if d.documentType == Receipt {
      assert last == [d];
      assert SumRevenue([d]) == RevenueOf(d) by { assert [d][..0] == []; }
    } else {
      assert last == [];
    }
  }

  /** The revenue of a list is the revenue of its receipts alone. */
  lemma RevenueOnlyReceipts(docs: seq<DocumentData>)
    ensures TotalRevenue(docs) == TotalRevenue(OfType(docs, Receipt))
  {
    FilterTwice(docs, (d: DocumentData) => IsType(d, Receipt), CountsAsRevenue, CountsAsRevenue);
  }

  lemma {:induction false} InsertMultiset(x: DocumentData, s: seq<DocumentData>)
    ensures multiset(Insert(x, s)) == multiset(s) + multiset{x}
    ensures |Insert(x, s)| == |s| + 1
    decreases |s|
  {
    if s != [] && x.date < s[0].date {
      InsertMultiset(x, s[1..]);
      assert s == [s[0]] + s[1..];
    }
  }

  /** Every document of `Insert(x, s)` is `x` or one of `s`. */
  lemma InsertMembers(x: DocumentData, s: seq<DocumentData>, k: nat)
    requires k < |Insert(x, s)|
    ensures Insert(x, s)[k] == x || Insert(x, s)[k] in s
  {
    InsertMultiset(x, s);
    assert Insert(x, s)[k] in multiset(Insert(x, s));
  }

  lemma {:induction false} InsertSpec(x: DocumentData, s: seq<DocumentData>)
    requires NewestFirst(s)
    ensures NewestFirst(Insert(x, s))
    ensures multiset(Insert(x, s)) == multiset(s) + multiset{x}
    ensures |Insert(x, s)| == |s| + 1
    decreases |s|
  {
    InsertMultiset(x, s);
    if s != [] && x.date < s[0].date {
      InsertSpec(x, s[1..]);
      var rest := Insert(x, s[1..]);
      forall k | 0 <= k < |rest| ensures s[0].date >= rest[k].date {
        InsertMembers(x, s[1..], k);
      }
      var r := Insert(x, s);
      assert r == [s[0]] + rest;
      forall i, j | 0 <= i < j < |r| ensures r[i].date >= r[j].date {
        if i == 0 {
          assert r[j] == rest[j - 1];
        } else {
          assert r[i] == rest[i - 1] && r[j] == rest[j - 1];
        }
      }
    }
  }

  /** The sort puts the latest first and loses or adds nothing. */
  lemma {:induction false} SortSpec(s: seq<DocumentData>)
    ensures NewestFirst(SortNewestFirst(s))
    ensures multiset(SortNewestFirst(s)) == multiset(s)
    ensures |SortNewestFirst(s)| == |s|
    decreases |s|
  {
    if s != [] {
      SortSpec(s[1..]);
      InsertSpec(s[0], SortNewestFirst(s[1..]));
      assert s == [s[0]] + s[1..];
    }
  }

  /** Inserting `x` adds it in front of the documents of its own date and
    * moves none of the others of that date. */
  lemma {:induction false} InsertOnDay(x: DocumentData, s: seq<DocumentData>, day: int)
    ensures OnDay(Insert(x, s), day) == (if x.date == day then [x] else []) + OnDay(s, day)
    decreases |s|
  {
    if s != [] && x.date < s[0].date {
      InsertOnDay(x, s[1..], day);
      assert x.date == day ==> s[0].date != day;
    }
  }

  /** The sort is stable: documents of the same date keep the order they
    * have in the list. */
  lemma {:induction false} SortStable(s: seq<DocumentData>, day: int)
    ensures OnDay(SortNewestFirst(s), day) == OnDay(s, day)
    decreases |s|
  {
    if s != [] {
      SortStable(s[1..], day);
      InsertOnDay(s[0], SortNewestFirst(s[1..]), day);
    }
  }

  /** The recent list holds at most five documents, as many as there are
    * when there are fewer, latest first, each from the list, and no
    * document left out is newer than one shown. */
  lemma RecentDocumentsSpec(docs: seq<DocumentData>)
    ensures var r := RecentDocuments(docs);
      && |r| == (if |docs| < 5 then |docs| else 5)
      && NewestFirst(r)
      && (forall d :: d in r ==> d in docs)
      && (forall i, j :: 0 <= i < |r| <= j < |SortNewestFirst(docs)| ==> r[i].date >= SortNewestFirst(docs)[j].date)
  {
    var sorted := SortNewestFirst(docs);
    SortSpec(docs);
    var r := RecentDocuments(docs);
    forall d | d in r ensures d in docs {
      assert d in multiset(sorted);
    }
  }

  /** Today's quotations (or invoices) are exactly the documents of that
    * type dated today or later, in list order, and no more than all of
    * that type. */
  lemma RecentOfTypeSpec(docs: seq<DocumentData>, t: DocumentType, today: int)
    ensures forall d :: d in RecentOfType(docs, t, today) <==> d in docs && d.documentType == t && d.date >= today
    ensures RecentOfType(docs, t, today) == Filter(docs, (d: DocumentData) => d.documentType == t && d.date >= today)
    ensures |RecentOfType(docs, t, today)| <= |OfType(docs, t)|
  {
    FilterMembers(docs, (d: DocumentData) => IsType(d, t));
    FilterMembers(OfType(docs, t), (d: DocumentData) => d.date >= today);
    FilterTwice(docs, (d: DocumentData) => IsType(d, t), (d: DocumentData) => d.date >= today,
                (d: DocumentData) => d.documentType == t && d.date >= today);
  }

  /** A document whose status is not its type's default is a receipt with a
    * recorded status, and the status always is one of four labels. */
  lemma StatusSpec(d: DocumentData)
    ensures StatusOf(d) in ["Pending", "Sent", "Completed", "Deposit Made"]
    ensures d.documentType == Quotation ==> StatusOf(d) == "Pending"
    ensures d.documentType == Invoice ==> StatusOf(d) == "Sent"
    ensures d.documentType == Receipt ==> (StatusOf(d) == "Deposit Made" <==> d.paymentStatus == Some(DepositMade))
    ensures DisplayAmount(d) != TaxInclusive.TotalWithTax(d) ==> d.documentType == Receipt && d.paymentAmount.Some?
  {
  }
}
