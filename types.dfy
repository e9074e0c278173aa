/**
 * The records the application passes around (the interfaces at the top of
 * App.tsx). Money is exact (`real`), millimetre dimensions and quantities
 * are integers, and a document date is a day number so that dates compare
 * as the dashboard compares them.
 */
module Types {
  import opened Text

  datatype DocumentType = Quotation | Invoice | Receipt

  datatype PaymentStatus = Completed | DepositMade

  /** The kind of a line item; catalogue products use the first three. */
  datatype ItemKind = Window | Door | Balcony | Accessories

  function KindName(k: ItemKind): string {
    match k
    case Window => "window"
    case Door => "door"
    case Balcony => "balcony"
    case Accessories => "accessories"
  }

  datatype Customer = Customer(
    id: string,
    name: string,
    email: string,
    phone: string,
    address: string,
    totalOrders: int,
    totalSpent: real)

  /** A line item without its id (`Omit<LineItem, 'id'>`, the add-item form).
    * The optional option names are `""` when unset, which is how every
    * reader treats them (`item.colour || ''`). */
  datatype ItemData = ItemData(
    kind: ItemKind,
    width: int,
    height: int,
    quantity: int,
    pricePerSqm: real,
    description: string,
    colour: string,
    glass: string,
    style: string,
    accessories: string,
    accessoryPrice: Option<real>)

  datatype LineItem = LineItem(id: string, data: ItemData)

  datatype DocumentData = DocumentData(
    documentType: DocumentType,
    documentNumber: string,
    date: int,
    customer: Customer,
    lineItems: seq<LineItem>,
    taxRate: real,
    discount: real,
    notes: string,
    paymentAmount: Option<real>,
    paymentStatus: Option<PaymentStatus>)

  datatype Product = Product(
    id: string,
    name: string,
    kind: ItemKind,
    pricePerSqm: real,
    description: string,
    material: string,
    color: string)

  datatype Glass = Glass(
    id: string,
    name: string,
    glassType: string,
    thickness: real,
    pricePerSqm: real,
    description: string,
    specifications: string)

  datatype Style = Style(
    id: string,
    name: string,
    description: string,
    category: string,
    pricePerSqm: real)

  datatype Colour = Colour(
    id: string,
    name: string,
    description: string,
    hexCode: string,
    pricePerSqm: real)

  datatype Accessory = Accessory(
    id: string,
    name: string,
    description: string,
    price: real,
    accessoryType: string,
    specifications: string,
    category: string)

  // Keys used by the list operations and the local store.
  function NumberOf(d: DocumentData): string { d.documentNumber }
  function ItemId(i: LineItem): string { i.id }
  function CustomerId(c: Customer): string { c.id }
  function ProductId(p: Product): string { p.id }
  function GlassId(g: Glass): string { g.id }
  function StyleId(s: Style): string { s.id }
  function ColourId(c: Colour): string { c.id }
  function AccessoryId(a: Accessory): string { a.id }

  /** The blank customer of a fresh form. */
  const BlankCustomer := Customer("", "", "", "", "", 0, 0.0)

  /** The fresh form the editor resets to: blank customer, no items, tax
    * rate 15, no discount, empty notes, no payment fields. */
  function EmptyDocument(t: DocumentType, number: string, today: int): DocumentData {
    DocumentData(t, number, today, BlankCustomer, [], 15.0, 0.0, "", None, None)
  }

  /** `accessoryPrice || 0` */
  function AccessoryOrZero(d: ItemData): real {
    match d.accessoryPrice
    case Some(p) => p
    case None => 0.0
  }
}
