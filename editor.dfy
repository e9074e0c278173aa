/**
 * The document editor state of the application shell (App.tsx): the type
 * being created, the form's document, the saved list and whether an
 * existing document is being edited, with the handlers that change them.
 * `stored` is the outcome of `api.saveDocument`; `today` stands for
 * `new Date()`.
 */
module Editor {
  import opened Text
  import opened Types
  import opened KeyedList
  import Numbering

  /** How `handleSaveDocument` ended. */
  datatype SaveResult =
    | MissingCustomerName   // refused before the store call
    | NoItems               // refused before the store call
    | StoreFailed           // the store call returned false
    | Updated               // editing: replaced in the list
    | DuplicateNumber       // new, but the number is already listed
    | Added                 // new: appended to the list

  /** The store is called once both checks pass. */
  predicate CallsStore(r: SaveResult) {
    r != MissingCustomerName && r != NoItems
  }

  /** The checks and branches of `handleSaveDocument`, in their order. */
  function SaveResultOf(doc: DocumentData, saved: seq<DocumentData>, editing: bool, stored: bool): SaveResult {
    if doc.customer.name == "" then MissingCustomerName
    else if doc.lineItems == [] then NoItems
    else if !stored then StoreFailed
    else if editing then Updated
    else if HasKey(saved, doc.documentNumber, NumberOf) then DuplicateNumber
    else Added
  }

  /** The saved list after `handleSaveDocument`. */
  function ListAfterSave(saved: seq<DocumentData>, doc: DocumentData, r: SaveResult): seq<DocumentData> {
    match r
    case Updated => ReplaceKey(saved, doc.documentNumber, doc, NumberOf)
    case Added => saved + [doc]
    case _ => saved
  }

  /** The form is reset after an update or an addition only. */
  predicate ResetsForm(r: SaveResult) {
    r == Updated || r == Added
  }

  /** The number `handleDocumentTypeChange` gives the form: the new prefix,
    * then the segment after the first `-`, or `001` when that is missing or
    * empty. */
  function SwapPrefix(number: string, t: DocumentType): string {
    var seg := match SecondSegment(number) case Some(s) => s case None => "";
    Numbering.Prefix(t) + "-" + (if seg == "" then "001" else seg)
  }

  // ---------------------------------------------------------------------
  // Properties
  // ---------------------------------------------------------------------

  /** Saving refuses, without calling the store, exactly a document with no
    * customer name or no items. With the store call failing, nothing
    * changes. An update keeps the length and every position's number; an
    * addition appends the document at the end; a duplicate number leaves
    * the list as it was although the store has already been written. */
  lemma SaveResultSpec(doc: DocumentData, saved: seq<DocumentData>, editing: bool, stored: bool)
    ensures var r := SaveResultOf(doc, saved, editing, stored);
            var after := ListAfterSave(saved, doc, r);
      && (CallsStore(r) <==> doc.customer.name != "" && doc.lineItems != [])
      && (r == StoreFailed <==> CallsStore(r) && !stored)
      && (!ResetsForm(r) ==> after == saved)
      && (r == Updated ==>
            |after| == |saved| &&
            forall i :: 0 <= i < |saved| ==> after[i].documentNumber == saved[i].documentNumber &&
                                             (saved[i].documentNumber != doc.documentNumber ==> after[i] == saved[i]))
      && (r == Added ==> after == saved + [doc] && |after| == |saved| + 1)
      && (r == DuplicateNumber <==> CallsStore(r) && stored && !editing && HasKey(saved, doc.documentNumber, NumberOf))
  {
    ReplaceKeySpec(saved, doc.documentNumber, doc, NumberOf);
  }

  /** A refused duplicate still overwrote the stored record with that
    * number: the local store's upsert now holds the new document in place
    * of the old one, while the list on screen keeps the old one. */
  lemma DuplicateOverwritesStore(doc: DocumentData, saved: seq<DocumentData>)
    requires SaveResultOf(doc, saved, false, true) == DuplicateNumber
    ensures ListAfterSave(saved, doc, DuplicateNumber) == saved
    ensures var store := UpsertFirst(saved, doc, NumberOf);
            |store| == |saved| && doc in store &&
            store[FirstIndex(saved, doc.documentNumber, NumberOf).value] == doc
  {
    UpsertFirstSpec(saved, doc, NumberOf);
  }

  /** The number a reset form receives is not used by any document of the
    * current type in the list it was computed from. */
  lemma ResetNumberIsFresh(after: seq<DocumentData>, t: DocumentType)
    ensures forall d :: d in after && d.documentType == t ==>
              d.documentNumber != EmptyDocument(t, Numbering.NextDocumentNumber(after, t), 0).documentNumber
  {
    Numbering.NextNumberIsFresh(after, t);
  }

  /** Adding the document the form proposed (its number the generated one,
    * its type the current one) moves the next number on by one. */
  lemma AddAdvancesNumber(doc: DocumentData, saved: seq<DocumentData>)
    requires doc.documentNumber == Numbering.NextDocumentNumber(saved, doc.documentType)
    requires SaveResultOf(doc, saved, false, true) == Added
    ensures Numbering.NextNumber(ListAfterSave(saved, doc, Added), doc.documentType)
            == Numbering.NextNumber(saved, doc.documentType) + 1
  {
    Numbering.NextNumberAdvances(saved, doc);
  }

  /** Changing the type of a number the editor produced gives the number
    * the other type would print. */
  lemma SwapPrefixOfFormatted(s: DocumentType, t: DocumentType, n: nat)
    ensures SwapPrefix(Numbering.FormatNumber(s, n), t) == Numbering.FormatNumber(t, n)
  {
    Numbering.FormattedSegmentDashFree(s, n);
    Numbering.FormattedSegmentDashFree(t, n);
    var seg := PadStart(NatToDigits(n), 3, '0');
    SecondSegmentOfJoin(Numbering.Prefix(s), seg);
  }

  /** A number without a `-` becomes the new prefix with `001`. */
  lemma SwapPrefixWithoutDash(number: string, t: DocumentType)
    requires '-' !in number
    ensures SwapPrefix(number, t) == Numbering.Prefix(t) + "-001"
  {
    AfterFirstDashNone(number);
  }

  /** Whenever the old number has a parsable suffix, the new number parses
    * to the same value. */
  lemma SwapPrefixKeepsSuffix(number: string, t: DocumentType)
    requires Numbering.SuffixOf(number).Some?
    ensures Numbering.SuffixOf(SwapPrefix(number, t)) == Numbering.SuffixOf(number)
  {
    var kept := SecondSegment(number).value;
    assert '-' !in kept;
    SecondSegmentOfJoin(Numbering.Prefix(t), kept);
  }

  // ---------------------------------------------------------------------
  // The editor
  // ---------------------------------------------------------------------

  class Editor {
    var documentType: DocumentType
    var documentData: DocumentData
    var savedDocuments: seq<DocumentData>
    var isEditing: bool

    /** The initial state: an empty quotation numbered QT-001. */
    constructor(today: int)
      ensures documentType == Quotation && documentData == EmptyDocument(Quotation, "QT-001", today)
      ensures savedDocuments == [] && !isEditing
    {
      documentType := Quotation;
      documentData := EmptyDocument(Quotation, "QT-001", today);
      savedDocuments := [];
      isEditing := false;
    }

    /** The end of `loadData`: the fetched list is kept and the form gets the
      * next quotation number, whatever type it holds. */
    method LoadDocuments(loaded: seq<DocumentData>)
      modifies this
      ensures savedDocuments == loaded
      ensures documentData == old(documentData).(documentNumber := Numbering.NextDocumentNumber(loaded, Quotation))
      ensures documentType == old(documentType) && isEditing == old(isEditing)
    {
      savedDocuments := loaded;
      documentData := documentData.(documentNumber := Numbering.NextDocumentNumber(loaded, Quotation));
    }

    /** `handleDocumentTypeChange` */
    method DocumentTypeChange(t: DocumentType)
      modifies this
      ensures documentType == t
      ensures documentData == old(documentData).(documentType := t, documentNumber := SwapPrefix(old(documentData).documentNumber, t))
      ensures savedDocuments == old(savedDocuments) && isEditing == old(isEditing)
    {
      documentType := t;
      documentData := documentData.(documentType := t, documentNumber := SwapPrefix(documentData.documentNumber, t));
    }

    /** `handleSaveDocument` */
    method SaveDocument(stored: bool, today: int) returns (r: SaveResult)
      modifies this
      ensures r == SaveResultOf(old(documentData), old(savedDocuments), old(isEditing), stored)
      ensures savedDocuments == ListAfterSave(old(savedDocuments), old(documentData), r)
      ensures ResetsForm(r) ==>
                documentData == EmptyDocument(documentType, Numbering.NextDocumentNumber(savedDocuments, documentType), today)
      ensures !ResetsForm(r) ==> documentData == old(documentData)
      ensures isEditing == (old(isEditing) && r != Updated)
      ensures documentType == old(documentType)
    {
      r := SaveResultOf(documentData, savedDocuments, isEditing, stored);
      savedDocuments := ListAfterSave(savedDocuments, documentData, r);
      if r == Updated {
        isEditing := false;
      }
      if ResetsForm(r) {
        documentData := EmptyDocument(documentType, Numbering.NextDocumentNumber(savedDocuments, documentType), today);
      }
    }

    /** `handleNewDocument`: an empty document of the current type with the
      * next number, editing switched off. */
    method NewDocument(today: int)
      modifies this
      ensures documentData == EmptyDocument(documentType, Numbering.NextDocumentNumber(savedDocuments, documentType), today)
      ensures !isEditing
      ensures documentType == old(documentType) && savedDocuments == old(savedDocuments)
    {
      documentData := EmptyDocument(documentType, Numbering.NextDocumentNumber(savedDocuments, documentType), today);
      isEditing := false;
    }

    /** `handleEditDocument` */
    method EditDocument(doc: DocumentData)
      modifies this
      ensures documentData == doc && documentType == doc.documentType && isEditing
      ensures savedDocuments == old(savedDocuments)
    {
      documentData := doc;
      documentType := doc.documentType;
      isEditing := true;
    }

    /** `handleCreateNew`: like a new document, for the given type. */
    method CreateNew(t: DocumentType, today: int)
      modifies this
      ensures documentType == t
      ensures documentData == EmptyDocument(t, Numbering.NextDocumentNumber(savedDocuments, t), today)
      ensures !isEditing && savedDocuments == old(savedDocuments)
    {
      documentType := t;
      documentData := EmptyDocument(t, Numbering.NextDocumentNumber(savedDocuments, t), today);
      isEditing := false;
    }

    /** The preview's Save button: save, then start a new document, whatever
      * the save did. The form always ends empty, numbered from the list as
      * the save left it, and editing is off. */
    method SaveButton(stored: bool, today: int) returns (r: SaveResult)
      modifies this
      ensures r == SaveResultOf(old(documentData), old(savedDocuments), old(isEditing), stored)
      ensures savedDocuments == ListAfterSave(old(savedDocuments), old(documentData), r)
      ensures documentType == old(documentType)
      ensures documentData == EmptyDocument(documentType, Numbering.NextDocumentNumber(savedDocuments, documentType), today)
      ensures !isEditing
    {
      r := SaveDocument(stored, today);
      NewDocument(today);
    }
  }
}
