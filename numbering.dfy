/**
 * Document numbering. The same block is repeated in Documents.tsx (three
 * times) and App.tsx (four times): take the documents of one type, parse
 * the segment after the first `-` of each number, drop what does not parse,
 * add one to the largest (or start at 1), and print it as `PREFIX-NNN`.
 */
module Numbering {
  import opened Text
  import opened Types

  /** QT, INV or REC. */
  function Prefix(t: DocumentType): (p: string)
    ensures |p| >= 2 && '-' !in p
  {
    match t
    case Quotation => "QT"
    case Invoice => "INV"
    case Receipt => "REC"
  }

  /** `parseInt(number.split('-')[1])`, `None` standing for `NaN`. */
  function SuffixOf(number: string): Option<nat> {
    match SecondSegment(number)
    case None => None
    case Some(seg) => ParseLeadingInt(seg)
  }

  /** The parsed suffixes of the documents of type `t`, in list order, with
    * the unparsable ones dropped. */
  function ParsedSuffixes(docs: seq<DocumentData>, t: DocumentType): seq<nat>
    decreases |docs|
  {
    if docs == [] then []
    else
      var rest := ParsedSuffixes(docs[..|docs| - 1], t);
      var d := docs[|docs| - 1];
      if d.documentType == t && SuffixOf(d.documentNumber).Some?
      then rest + [SuffixOf(d.documentNumber).value]
      else rest
  }

  /** `Math.max(...xs)` */
  function MaxOf(xs: seq<nat>): (m: nat)
    requires xs != []
    ensures m in xs && forall i :: 0 <= i < |xs| ==> xs[i] <= m
    decreases |xs|
  {
    if |xs| == 1 then xs[0]
    else
      var m := MaxOf(xs[1..]);
      assert forall i :: 1 <= i < |xs| ==> xs[i] == xs[1..][i - 1];
      if xs[0] >= m then xs[0] else m
  }

  /** The next sequence number for type `t`. */
  function NextNumber(docs: seq<DocumentData>, t: DocumentType): nat {
    var xs := ParsedSuffixes(docs, t);
    if |xs| > 0 then MaxOf(xs) + 1 else 1
  }

  /** `prefix + '-' + n.toString().padStart(3, '0')` */
  function FormatNumber(t: DocumentType, n: nat): string {
    Prefix(t) + "-" + PadStart(NatToDigits(n), 3, '0')
  }

  /** The number the screens give a new or converted document of type `t`. */
  function NextDocumentNumber(docs: seq<DocumentData>, t: DocumentType): string {
    FormatNumber(t, NextNumber(docs, t))
  }

  // ---------------------------------------------------------------------
  // Properties
  // ---------------------------------------------------------------------

  /** A suffix is collected exactly when some document of type `t` carries it. */
  lemma {:induction false} ParsedSuffixesMembers(docs: seq<DocumentData>, t: DocumentType, k: nat)
    ensures k in ParsedSuffixes(docs, t) <==>
            exists d :: d in docs && d.documentType == t && SuffixOf(d.documentNumber) == Some(k)
    decreases |docs|
  {
    if docs != [] {
      var init := docs[..|docs| - 1];
      ParsedSuffixesMembers(init, t, k);
      assert docs == init + [docs[|docs| - 1]];
      assert forall d :: d in docs <==> d in init || d == docs[|docs| - 1];
    }
  }

  /** The next number is larger than every suffix already used by a
    * document of the same type. */
  lemma NextNumberExceedsUsed(docs: seq<DocumentData>, t: DocumentType, d: DocumentData)
    requires d in docs && d.documentType == t && SuffixOf(d.documentNumber).Some?
    ensures NextNumber(docs, t) > SuffixOf(d.documentNumber).value
  {
    ParsedSuffixesMembers(docs, t, SuffixOf(d.documentNumber).value);
  }

  /** The next number is 1 when no document of the type has a parsable
    * suffix, and otherwise one more than a suffix some document carries. */
  lemma NextNumberIsOnePlusMax(docs: seq<DocumentData>, t: DocumentType)
    ensures NextNumber(docs, t) == 1 <==>
            forall d :: d in docs && d.documentType == t ==> SuffixOf(d.documentNumber) in {None, Some(0)}
    ensures NextNumber(docs, t) > 1 ==>
            exists d :: d in docs && d.documentType == t && SuffixOf(d.documentNumber) == Some(NextNumber(docs, t) - 1)
  {
    var xs := ParsedSuffixes(docs, t);
    if |xs| > 0 {
      ParsedSuffixesMembers(docs, t, MaxOf(xs));
    }
    forall d | d in docs && d.documentType == t && SuffixOf(d.documentNumber).Some?
      ensures SuffixOf(d.documentNumber).value in xs
    {
      ParsedSuffixesMembers(docs, t, SuffixOf(d.documentNumber).value);
    }
  }

  /** The printed number is at least three digits and keeps every digit of
    * `n` (nothing is cut above 999). */
  lemma FormatKeepsDigits(t: DocumentType, n: nat)
    ensures var seg := PadStart(NatToDigits(n), 3, '0');
            && FormatNumber(t, n) == Prefix(t) + "-" + seg
            && |seg| >= 3
            && |seg| >= |NatToDigits(n)|
            && seg[|seg| - |NatToDigits(n)|..] == NatToDigits(n)
  {
  }

  /** The printed digits after the prefix contain no `-`. */
  lemma FormattedSegmentDashFree(t: DocumentType, n: nat)
    ensures var seg := PadStart(NatToDigits(n), 3, '0');
            FormatNumber(t, n) == Prefix(t) + "-" + seg && AllDigits(seg) && '-' !in seg
  {
    var digits := NatToDigits(n);
    var seg := PadStart(digits, 3, '0');
    assert seg == Repeat('0', |seg| - |digits|) + digits;
    LeadingZerosIgnored(|seg| - |digits|, digits);
    assert '-' !in seg by {
      forall i | 0 <= i < |seg| ensures seg[i] != '-' {
        assert IsDigit(seg[i]);
      }
    }
  }

  /** Parsing the printed number gives back the number. */
  lemma {:induction false} FormatThenParse(t: DocumentType, n: nat)
    ensures SuffixOf(FormatNumber(t, n)) == Some(n)
  {
    var digits := NatToDigits(n);
    var seg := PadStart(digits, 3, '0');
    var k := |seg| - |digits|;
    assert seg == Repeat('0', k) + digits;
    LeadingZerosIgnored(k, digits);
    assert AllDigits(seg);
    assert '-' !in seg by {
      forall i | 0 <= i < |seg| ensures seg[i] != '-' {
        assert IsDigit(seg[i]);
      }
    }
    SecondSegmentOfJoin(Prefix(t), seg);
    LeadingDigitsOfDigits(seg);
    DigitsRoundTrip(n);
  }

  /** The generated number is not the number of any document of that type
    * already in the list. */
  lemma NextNumberIsFresh(docs: seq<DocumentData>, t: DocumentType)
    ensures forall d :: d in docs && d.documentType == t ==> d.documentNumber != NextDocumentNumber(docs, t)
  {
    var n := NextNumber(docs, t);
    FormatThenParse(t, n);
    forall d | d in docs && d.documentType == t
      ensures d.documentNumber != NextDocumentNumber(docs, t)
    {
      if d.documentNumber == NextDocumentNumber(docs, t) {
        NextNumberExceedsUsed(docs, t, d);
      }
    }
  }

  /** Appending a document that carries the generated number advances the
    * next number by exactly one: successive conversions of one type get
    * consecutive numbers. */
  lemma NextNumberAdvances(docs: seq<DocumentData>, d: DocumentData)
    requires d.documentNumber == NextDocumentNumber(docs, d.documentType)
    ensures NextNumber(docs + [d], d.documentType) == NextNumber(docs, d.documentType) + 1
  {
    var t := d.documentType;
    var n := NextNumber(docs, t);
    FormatThenParse(t, n);
    var docs' := docs + [d];
    assert docs'[..|docs'| - 1] == docs;
    var xs := ParsedSuffixes(docs, t);
    assert ParsedSuffixes(docs', t) == xs + [n];
    var m := MaxOf(xs + [n]);
    assert n in xs + [n];
    assert m >= n;
    if |xs| > 0 {
      assert forall i :: 0 <= i < |xs| ==> xs[i] < n;
    }
  }

  /** Documents of other types never influence the number of type `t`. */
  lemma {:induction false} OtherTypesIgnored(docs: seq<DocumentData>, d: DocumentData, t: DocumentType)
    requires d.documentType != t
    ensures NextNumber(docs + [d], t) == NextNumber(docs, t)
  {
    var docs' := docs + [d];
    assert docs'[..|docs'| - 1] == docs;
  }

  // Worked cases.

  /** QT-001 and QT-003 give QT-004: gaps are not back-filled. */
  lemma GapIsNotBackfilled(a: DocumentData, b: DocumentData)
    requires a.documentType == Quotation && a.documentNumber == "QT-001"
    requires b.documentType == Quotation && b.documentNumber == "QT-003"
    ensures NextDocumentNumber([a, b], Quotation) == "QT-004"
  {
    assert [a, b][..1] == [a];
    assert [a][..0] == [];
    assert FormatNumber(Quotation, 1) == "QT-001" by { assert NatToDigits(1) == "1"; }
    assert FormatNumber(Quotation, 3) == "QT-003" by { assert NatToDigits(3) == "3"; }
    FormatThenParse(Quotation, 1);
    FormatThenParse(Quotation, 3);
    assert ParsedSuffixes([a], Quotation) == [1];
    assert ParsedSuffixes([a, b], Quotation) == [1, 3];
    assert NatToDigits(4) == "4";
  }

  /** With no invoices the first invoice number is INV-001. */
  lemma FirstInvoiceNumber(docs: seq<DocumentData>)
    requires forall d :: d in docs ==> d.documentType != Invoice
    ensures NextDocumentNumber(docs, Invoice) == "INV-001"
  {
    NextNumberIsOnePlusMax(docs, Invoice);
    assert NatToDigits(1) == "1";
  }
}
