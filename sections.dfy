/**
 * The list sections of the catalogue and customer screens (Products.tsx,
 * Styles.tsx, Customers.tsx). Every section handles its records the same
 * way: check the form, await the store, then append, replace by id or
 * filter out by id, and only when the store reported success. `saved` is
 * the store's answer, `confirmed` the answer to the delete confirmation and
 * `newId` stands for `Date.now().toString()`.
 */
module Sections {
  import opened Text
  import opened KeyedList

  /** How a handler ended. */
  datatype Outcome =
    | Rejected       // the form failed its check, or nothing was being edited
    | NotConfirmed   // the delete confirmation was declined
    | StoreFailed    // the store reported failure
    | Done           // the list was changed

  /** What tells one section from another: the record's key, the blank form,
    * the form an edit button fills in, the form's required-field check,
    * the record an add saves (form and new id) and the record an update
    * saves (form and the record being edited). A form is a record whose
    * key is not used. */
  datatype Handlers<!T> = Handlers(
    keyOf: T -> string,
    blank: T,
    formOf: T -> T,
    valid: T -> bool,
    withNewId: (T, string) -> T,
    withEdited: (T, T) -> T)

  /** The list after an add: the new record appended, on success only. */
  function AfterAdd<T>(items: seq<T>, added: T, saved: bool): seq<T> {
    if saved then items + [added] else items
  }

  /** The list after an update: every record with the edited id replaced by
    * the updated record, on success only. */
  function AfterUpdate<T>(items: seq<T>, id: string, updated: T, saved: bool, keyOf: T -> string): seq<T> {
    if saved then ReplaceKey(items, id, updated, keyOf) else items
  }

  /** The list after a delete: every record with the id filtered out, when
    * confirmed and on success only. */
  function AfterDelete<T>(items: seq<T>, id: string, confirmed: bool, saved: bool, keyOf: T -> string): seq<T> {
    if confirmed && saved then RemoveKey(items, id, keyOf) else items
  }

  // ---------------------------------------------------------------------
  // Properties
  // ---------------------------------------------------------------------

  /** An add appends exactly one record at the end and keeps the others;
    * a failed add changes nothing. */
  lemma AfterAddSpec<T>(items: seq<T>, added: T, saved: bool)
    ensures var r := AfterAdd(items, added, saved);
      && (saved ==> |r| == |items| + 1 && r[..|items|] == items && r[|items|] == added)
      && (!saved ==> r == items)
  {
  }

  /** An update keeps the length and every other record in place, puts the
    * updated record where the edited id was, and keeps every position's id
    * when the updated record carries the edited id; a failed update changes
    * nothing. */
  lemma AfterUpdateSpec<T>(items: seq<T>, id: string, updated: T, saved: bool, keyOf: T -> string)
    ensures var r := AfterUpdate(items, id, updated, saved, keyOf);
      && |r| == |items|
      && (saved ==>
            && (forall i :: 0 <= i < |items| && keyOf(items[i]) == id ==> r[i] == updated)
            && (forall i :: 0 <= i < |items| && keyOf(items[i]) != id ==> r[i] == items[i])
            && (keyOf(updated) == id ==> forall i :: 0 <= i < |items| ==> keyOf(r[i]) == keyOf(items[i])))
      && (!saved ==> r == items)
  {
    ReplaceKeySpec(items, id, updated, keyOf);
  }

  /** A confirmed, successful delete leaves no record with the id, keeps
    * every other record, and works piecewise (so the survivors keep their
    * order); otherwise nothing changes. */
  lemma AfterDeleteSpec<T>(items: seq<T>, more: seq<T>, id: string, confirmed: bool, saved: bool, keyOf: T -> string)
    ensures confirmed && saved ==>
      && !HasKey(AfterDelete(items, id, confirmed, saved, keyOf), id, keyOf)
      && (forall x :: x in AfterDelete(items, id, confirmed, saved, keyOf) <==> x in items && keyOf(x) != id)
      && AfterDelete(items + more, id, confirmed, saved, keyOf) == AfterDelete(items, id, confirmed, saved, keyOf) + AfterDelete(more, id, confirmed, saved, keyOf)
    ensures !(confirmed && saved) ==> AfterDelete(items, id, confirmed, saved, keyOf) == items
  {
    RemovedKeyAbsent(items, id, keyOf);
    RemoveKeyMembers(items, id, keyOf);
    RemoveKeyConcat(items, more, id, keyOf);
  }

  // ---------------------------------------------------------------------
  // A section
  // ---------------------------------------------------------------------

  /** One list of a screen with the record being edited and the form. */
  class Section<T> {
    var items: seq<T>
    var editing: Option<T>
    var form: T
    const h: Handlers<T>

    constructor(h: Handlers<T>, items: seq<T>)
      ensures this.h == h && this.items == items && editing.None? && form == h.blank
    {
      this.h := h;
      this.items := items;
      editing := None;
      form := h.blank;
    }

    /** The edit button: remembers the record and fills in the form. */
    method StartEdit(x: T)
      modifies this
      ensures editing == Some(x) && form == h.formOf(x)
      ensures items == old(items)
    {
      editing := Some(x);
      form := h.formOf(x);
    }

    /** An input of the form changes. */
    method ChangeForm(f: T)
      modifies this
      ensures form == f
      ensures items == old(items) && editing == old(editing)
    {
      form := f;
    }

    /** The cancel button: nothing is edited and the form is blank. */
    method Cancel()
      modifies this
      ensures editing.None? && form == h.blank
      ensures items == old(items)
    {
      editing := None;
      form := h.blank;
    }

    /** An add handler: a form failing its check is refused before the
      * store is called; on success the new record is appended and the form
      * cleared; on failure nothing changes. */
    method Add(newId: string, saved: bool) returns (o: Outcome)
      modifies this
      ensures o == (if !h.valid(old(form)) then Rejected else if !saved then StoreFailed else Done)
      ensures items == AfterAdd(old(items), h.withNewId(old(form), newId), o == Done)
      ensures form == (if o == Done then h.blank else old(form))
      ensures editing == old(editing)
    {
      if !h.valid(form) {
        return Rejected;
      }
      if !saved {
        return StoreFailed;
      }
      items := items + [h.withNewId(form, newId)];
      form := h.blank;
      o := Done;
    }

    /** An update handler: without a record being edited, or with a form
      * failing its check, nothing happens; on success every record with the
      * edited record's id is replaced, nothing is edited any more and the
      * form is cleared; on failure nothing changes. */
    method Update(saved: bool) returns (o: Outcome)
      modifies this
      ensures o == (if old(editing).None? || !h.valid(old(form)) then Rejected
                    else if !saved then StoreFailed else Done)
      ensures o == Done ==>
                items == AfterUpdate(old(items), h.keyOf(old(editing).value),
                                     h.withEdited(old(form), old(editing).value), true, h.keyOf)
                && editing.None? && form == h.blank
      ensures o != Done ==> items == old(items) && editing == old(editing) && form == old(form)
    {
      if editing.None? || !h.valid(form) {
        return Rejected;
      }
      var e := editing.value;
      if !saved {
        return StoreFailed;
      }
      items := ReplaceKey(items, h.keyOf(e), h.withEdited(form, e), h.keyOf);
      editing := None;
      form := h.blank;
      o := Done;
    }

    /** A delete handler: asks first, then filters out the id on success. */
    method Delete(id: string, confirmed: bool, saved: bool) returns (o: Outcome)
      modifies this
      ensures o == (if !confirmed then NotConfirmed else if !saved then StoreFailed else Done)
      ensures items == AfterDelete(old(items), id, confirmed, saved, h.keyOf)
      ensures editing == old(editing) && form == old(form)
    {
      if !confirmed {
        return NotConfirmed;
      }
      if !saved {
        return StoreFailed;
      }
      items := RemoveKey(items, id, h.keyOf);
      o := Done;
    }
  }
}
