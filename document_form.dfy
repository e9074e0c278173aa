/**
 * The document form (DocumentForm.tsx): the customer block, with saving a
 * typed-in customer to the customer list, and the line items, added,
 * replaced and removed through the add-item dialog. `newId` stands for
 * `Date.now().toString()` and `saved` for the outcome of
 * `api.saveCustomer`.
 */
module DocumentForm {
  import opened Text
  import opened Types
  import opened KeyedList
  import ForwardTax

  /** The customer inputs of the form. */
  datatype CustomerField = NameField | EmailField | PhoneField | AddressField

  function FieldOf(c: Customer, f: CustomerField): string {
    match f
    case NameField => c.name
    case EmailField => c.email
    case PhoneField => c.phone
    case AddressField => c.address
  }

  /** `{ ...customer, [field]: value }` */
  function WithField(c: Customer, f: CustomerField, value: string): Customer {
    match f
    case NameField => c.(name := value)
    case EmailField => c.(email := value)
    case PhoneField => c.(phone := value)
    case AddressField => c.(address := value)
  }

  /** The line items after the dialog's save: with an item being edited,
    * every item with its id becomes the dialog's data under that id;
    * otherwise one new item is appended. */
  function ItemsAfterAdd(items: seq<LineItem>, editing: Option<LineItem>, data: ItemData, newId: string): seq<LineItem> {
    match editing
    case Some(e) => ReplaceKey(items, e.id, LineItem(e.id, data), ItemId)
    case None => items + [LineItem(newId, data)]
  }

  /** `isNewCustomer`: a name is typed and no listed customer has the form
    * customer's id. */
  predicate IsNewCustomer(doc: DocumentData, customers: seq<Customer>) {
    Trim(doc.customer.name) != "" && FindFirst(customers, (c: Customer) => c.id == doc.customer.id).None?
  }

  /** The customer `handleSaveNewCustomer` creates: the typed details, a new
    * id and no orders yet. */
  function NewCustomer(typed: Customer, newId: string): Customer {
    Customer(newId, typed.name, typed.email, typed.phone, typed.address, 0, 0.0)
  }

  /** The dropdown of known customers: those whose name contains the typed
    * name, ignoring case. */
  function CustomerChoices(customers: seq<Customer>, typed: string): seq<Customer> {
    Filter(customers, (c: Customer) => Includes(Lower(c.name), Lower(typed)))
  }

  /** The area shown on an item card: `width * height`, not divided. */
  function DisplayedArea(i: ItemData): real {
    (i.width * i.height) as real
  }

  /** The line total shown on an item card. */
  function DisplayedLineTotal(i: ItemData): real {
    (i.width * i.height * i.quantity) as real * i.pricePerSqm
  }

  /** How `handleSaveNewCustomer` ended. */
  datatype CustomerSave = BlankName | SaveFailed | SavedCustomer(customer: Customer)

  // ---------------------------------------------------------------------
  // Properties
  // ---------------------------------------------------------------------

  /** Editing replaces the data of the edited item only, keeping its id,
    * the length and the order; adding appends exactly one item at the end
    * and keeps the others. */
  lemma ItemsAfterAddSpec(items: seq<LineItem>, editing: Option<LineItem>, data: ItemData, newId: string)
    ensures var r := ItemsAfterAdd(items, editing, data, newId);
      && (editing.Some? ==>
            && |r| == |items|
            && (forall i :: 0 <= i < |items| ==> r[i].id == items[i].id)
            && (forall i :: 0 <= i < |items| && items[i].id == editing.value.id ==> r[i].data == data)
            && (forall i :: 0 <= i < |items| && items[i].id != editing.value.id ==> r[i] == items[i]))
      && (editing.None? ==> |r| == |items| + 1 && r[..|items|] == items && r[|items|] == LineItem(newId, data))
  {
    if editing.Some? {
      ReplaceKeySpec(items, editing.value.id, LineItem(editing.value.id, data), ItemId);
    }
  }

  /** Removing an item drops every item with that id, keeps every other
    * one, and keeps the survivors in their order. */
  lemma RemoveLineItemSpec(items: seq<LineItem>, more: seq<LineItem>, id: string)
    ensures forall x :: x in RemoveKey(items, id, ItemId) <==> x in items && x.id != id
    ensures RemoveKey(items + more, id, ItemId) == RemoveKey(items, id, ItemId) + RemoveKey(more, id, ItemId)
    ensures !HasKey(items, id, ItemId) ==> RemoveKey(items, id, ItemId) == items
  {
    RemoveKeyMembers(items, id, ItemId);
    RemoveKeyConcat(items, more, id, ItemId);
    RemoveKeyLength(items, id, ItemId);
  }

  /** Changing one customer input changes that field and no other, and
    * never the id or the totals. */
  lemma WithFieldSpec(c: Customer, f: CustomerField, value: string)
    ensures FieldOf(WithField(c, f, value), f) == value
    ensures forall g :: g != f ==> FieldOf(WithField(c, f, value), g) == FieldOf(c, g)
    ensures var r := WithField(c, f, value);
            r.id == c.id && r.totalOrders == c.totalOrders && r.totalSpent == c.totalSpent
  {
  }

  /** The save-customer button shows exactly when a name is typed and no
    * listed customer has the form customer's id. */
  lemma IsNewCustomerSpec(doc: DocumentData, customers: seq<Customer>)
    ensures IsNewCustomer(doc, customers) <==>
              Trim(doc.customer.name) != "" && forall i :: 0 <= i < |customers| ==> customers[i].id != doc.customer.id
  {
  }

  /** Once saved and appended, the customer is no longer new. */
  lemma SavedCustomerNotNew(doc: DocumentData, customers: seq<Customer>, c: Customer)
    ensures !IsNewCustomer(doc.(customer := c), customers + [c])
  {
    assert (customers + [c])[|customers|].id == c.id;
  }

  /** The dropdown lists known customers only, and every one of them while
    * the name input is empty. */
  lemma CustomerChoicesSpec(customers: seq<Customer>, typed: string)
    ensures forall c :: c in CustomerChoices(customers, typed) <==> c in customers && Includes(Lower(c.name), Lower(typed))
    ensures typed == "" ==> CustomerChoices(customers, typed) == customers
  {
    FilterMembers(customers, (c: Customer) => Includes(Lower(c.name), Lower(typed)));
    if typed == "" {
      forall i | 0 <= i < |customers| ensures Includes(Lower(customers[i].name), Lower(typed)) {
        EmptyTermMatchesEverything(customers[i].name);
      }
      FilterKeepsAll(customers, (c: Customer) => Includes(Lower(c.name), Lower(typed)));
    }
  }

  /** The card's line total is the preview's row total: neither divides by
    * a million nor adds the accessory price; the card's area is the
    * dialog's square-metre area times a million. */
  lemma DisplayedFiguresSpec(i: ItemData)
    ensures DisplayedLineTotal(i) == ForwardTax.RowTotal(i)
    ensures DisplayedLineTotal(i) == DisplayedArea(i) * i.quantity as real * i.pricePerSqm
  {
    assert (i.width * i.height * i.quantity) as real == (i.width * i.height) as real * i.quantity as real;
  }

  // ---------------------------------------------------------------------
  // The form
  // ---------------------------------------------------------------------

  class Form {
    var documentData: DocumentData
    var customers: seq<Customer>
    var editingItem: Option<LineItem>

    constructor(doc: DocumentData, customers: seq<Customer>)
      ensures documentData == doc && this.customers == customers && editingItem.None?
    {
      documentData := doc;
      this.customers := customers;
      editingItem := None;
    }

    /** `updateCustomer` */
    method UpdateCustomer(f: CustomerField, value: string)
      modifies this
      ensures documentData == old(documentData).(customer := WithField(old(documentData).customer, f, value))
      ensures customers == old(customers) && editingItem == old(editingItem)
    {
      documentData := documentData.(customer := WithField(documentData.customer, f, value));
    }

    /** `handleCustomerSelect`: the whole customer record, id included. */
    method SelectCustomer(c: Customer)
      modifies this
      ensures documentData == old(documentData).(customer := c)
      ensures !IsNewCustomer(documentData, customers) || c !in customers
      ensures customers == old(customers) && editingItem == old(editingItem)
    {
      documentData := documentData.(customer := c);
      if c in customers {
        var i :| 0 <= i < |customers| && customers[i] == c;
        assert customers[i].id == c.id;
      }
    }

    /** `handleSaveNewCustomer`: a blank (whitespace-only) name is refused;
      * otherwise the new customer is saved and, on success, appended to the
      * list and put on the document. */
    method SaveNewCustomer(newId: string, saved: bool) returns (r: CustomerSave)
      modifies this
      ensures Trim(old(documentData).customer.name) == "" ==> r == BlankName
      ensures Trim(old(documentData).customer.name) != "" && !saved ==> r == SaveFailed
      ensures Trim(old(documentData).customer.name) != "" && saved ==>
                r == SavedCustomer(NewCustomer(old(documentData).customer, newId))
      ensures r.SavedCustomer? ==>
                customers == old(customers) + [r.customer] &&
                documentData == old(documentData).(customer := r.customer) &&
                r.customer.totalOrders == 0 && r.customer.totalSpent == 0.0 &&
                !IsNewCustomer(documentData, customers)
      ensures !r.SavedCustomer? ==> customers == old(customers) && documentData == old(documentData)
      ensures editingItem == old(editingItem)
    {
      if Trim(documentData.customer.name) == "" {
        return BlankName;
      }
      var c := NewCustomer(documentData.customer, newId);
      if !saved {
        return SaveFailed;
      }
      SavedCustomerNotNew(documentData, customers, c);
      customers := customers + [c];
      documentData := documentData.(customer := c);
      r := SavedCustomer(c);
    }

    /** `handleEditItem`: remembers the item the dialog edits. */
    method EditItem(item: LineItem)
      modifies this
      ensures editingItem == Some(item)
      ensures documentData == old(documentData) && customers == old(customers)
    {
      editingItem := Some(item);
    }

    /** `handleCloseModal`: forgets the edited item. */
    method CloseDialog()
      modifies this
      ensures editingItem.None?
      ensures documentData == old(documentData) && customers == old(customers)
    {
      editingItem := None;
    }

    /** `handleAddItem` */
    method AddItem(data: ItemData, newId: string)
      modifies this
      ensures documentData == old(documentData).(lineItems := ItemsAfterAdd(old(documentData).lineItems, old(editingItem), data, newId))
      ensures editingItem.None? && customers == old(customers)
    {
      documentData := documentData.(lineItems := ItemsAfterAdd(documentData.lineItems, editingItem, data, newId));
      editingItem := None;
    }

    /** `removeLineItem` */
    method RemoveLineItem(id: string)
      modifies this
      ensures documentData == old(documentData).(lineItems := RemoveKey(old(documentData).lineItems, id, ItemId))
      ensures !HasKey(documentData.lineItems, id, ItemId)
      ensures editingItem == old(editingItem) && customers == old(customers)
    {
      RemovedKeyAbsent(documentData.lineItems, id, ItemId);
      documentData := documentData.(lineItems := RemoveKey(documentData.lineItems, id, ItemId));
    }
  }
}
