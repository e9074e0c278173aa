/**
 * The add-item dialog (AddItemModal.tsx): the per-line configuration
 * formula. The price per square metre is the selected product's base price
 * plus the first glass and the first style whose names match the chosen
 * options; the accessory price is the first matching accessory's unit price
 * times the quantity; the area is in square metres.
 */
module AddItem {
  import opened Text
  import opened Types
  import opened KeyedList
  import opened Money
  import TaxInclusive

  /** The catalogue lists the dialog receives. */
  datatype Catalog = Catalog(
    products: seq<Product>,
    glass: seq<Glass>,
    styles: seq<Style>,
    colours: seq<Colour>,
    accessories: seq<Accessory>)

  /** One option select changed (`handleDescriptionChange({ colour })` etc.). */
  datatype OptionChange =
    | ColourTo(colour: string)
    | GlassTo(glass: string)
    | StyleTo(style: string)
    | AccessoryTo(accessory: string)

  /** The form of a fresh dialog: a window, no size, one unit, no price, no
    * options and no accessory price. */
  const DefaultItem := ItemData(Window, 0, 0, 1, 0.0, "", "", "", "", "", None)

  // ---------------------------------------------------------------------
  // Option lists
  // ---------------------------------------------------------------------

  /** `availableProducts`: the products of the current type; none for the
    * accessories type. */
  function ProductChoices(products: seq<Product>, kind: ItemKind): seq<Product> {
    if kind == Accessories then [] else Filter(products, (p: Product) => p.kind == kind)
  }

  /** `availableAccessoriesForProduct`: all accessories, for the accessories
    * type only. */
  function AccessoryProductChoices(accessories: seq<Accessory>, kind: ItemKind): seq<Accessory> {
    if kind == Accessories then accessories else []
  }

  /** An accessory is offered for `Window & Door`, or for the category named
    * after the current type. */
  predicate AccessoryFits(a: Accessory, kind: ItemKind) {
    || a.category == "Window & Door"
    || (kind == Window && a.category == "Window")
    || (kind == Door && a.category == "Door")
    || (kind == Balcony && a.category == "Balcony")
  }

  /** `availableAccessories` */
  function AccessoryChoices(accessories: seq<Accessory>, kind: ItemKind): seq<Accessory> {
    Filter(accessories, (a: Accessory) => AccessoryFits(a, kind))
  }

  // ---------------------------------------------------------------------
  // Prices
  // ---------------------------------------------------------------------

  /** The price of the first glass with that name, 0 when there is none or
    * no glass is chosen. */
  function GlassSurcharge(glass: seq<Glass>, name: string): real {
    if name == "" then 0.0
    else match FindFirst(glass, (g: Glass) => g.name == name)
      case Some(g) => g.pricePerSqm
      case None => 0.0
  }

  /** The price of the first style with that name, 0 when there is none or
    * no style is chosen. */
  function StyleSurcharge(styles: seq<Style>, name: string): real {
    if name == "" then 0.0
    else match FindFirst(styles, (s: Style) => s.name == name)
      case Some(s) => s.pricePerSqm
      case None => 0.0
  }

  /** The first accessory with that name, when one is chosen. */
  function ChosenAccessory(accessories: seq<Accessory>, name: string): Option<Accessory> {
    if name == "" then None else FindFirst(accessories, (a: Accessory) => a.name == name)
  }

  /** `totalPrice`: the base price plus the glass and style surcharges. */
  function ConfiguredPrice(base: real, cat: Catalog, d: ItemData): real {
    base + GlassSurcharge(cat.glass, d.glass) + StyleSurcharge(cat.styles, d.style)
  }

  /** The accessory price for a quantity: unit price times quantity, 0 when
    * no accessory of that name exists. */
  function AccessoryTotal(accessories: seq<Accessory>, name: string, quantity: int): real {
    match ChosenAccessory(accessories, name)
    case Some(a) => a.price * quantity as real
    case None => 0.0
  }

  /** The product name that heads the description: the selected product's,
    * for every type but accessories. */
  function HeadName(products: seq<Product>, selected: string, kind: ItemKind): Option<string> {
    if selected == "" || kind == Accessories then None
    else match FindFirst(products, (p: Product) => p.id == selected)
      case Some(p) => Some(p.name)
      case None => None
  }

  predicate NonEmpty(s: string) { s != "" }

  /** The `parts` of the description: the head name, then the chosen
    * colour, glass, style and accessory, empty ones skipped. */
  /** The options in the order the description takes them. */
  function Options(d: ItemData): seq<string> {
    [d.colour, d.glass, d.style, d.accessories]
  }

  function DescriptionParts(head: Option<string>, d: ItemData): seq<string> {
    (if head.Some? then [head.value] else []) + Filter(Options(d), NonEmpty)
  }

  function Merge(d: ItemData, change: OptionChange): ItemData {
    match change
    case ColourTo(c) => d.(colour := c)
    case GlassTo(g) => d.(glass := g)
    case StyleTo(s) => d.(style := s)
    case AccessoryTo(a) => d.(accessories := a)
  }

  /** The form after `handleDescriptionChange`. */
  function AfterOptionChange(d: ItemData, change: OptionChange, base: real, selected: string, cat: Catalog): ItemData {
    var m := Merge(d, change);
    m.(description := JoinComma(DescriptionParts(HeadName(cat.products, selected, m.kind), m)),
       pricePerSqm := ConfiguredPrice(base, cat, m),
       accessoryPrice := Some(AccessoryTotal(cat.accessories, m.accessories, m.quantity)))
  }

  /** The form after the quantity input changes; `None` is an input
    * `parseInt` cannot read, which counts as 0. The accessory price is
    * recomputed when the chosen accessory exists and kept (0 when unset)
    * otherwise. */
  function AfterQuantityChange(d: ItemData, input: Option<int>, cat: Catalog): ItemData {
    var q := if input.Some? then input.value else 0;
    var chosen := ChosenAccessory(cat.accessories, d.accessories);
    var acc := if chosen.Some? then chosen.value.price * q as real else AccessoryOrZero(d);
    d.(quantity := q, accessoryPrice := Some(acc))
  }

  /** The description a product selection writes: name and material, then
    * the colour, glass and style the form held before the selection. */
  function ProductDescription(p: Product, before: ItemData): string {
    p.name + " - " + p.material
      + (if before.colour != "" then ", " + before.colour else "")
      + (if before.glass != "" then ", " + before.glass else "")
      + (if before.style != "" then ", " + before.style else "")
  }

  /** `calculateArea` before formatting: square metres. */
  function ItemArea(d: ItemData): real {
    (d.width * d.height) as real / 1000000.0
  }

  /** `calculateTotal` before formatting: the price of one unit times the
    * quantity, plus the accessory price. */
  function ItemTotal(d: ItemData): real {
    var priceForOne := ItemArea(d) * d.pricePerSqm;
    priceForOne * d.quantity as real + AccessoryOrZero(d)
  }

  // ---------------------------------------------------------------------
  // Properties
  // ---------------------------------------------------------------------

  /** Product choices are exactly the catalogue products of the current
    * type, and there are none for accessories; accessory choices are the
    * ones whose category is `Window & Door` or names the type. */
  lemma ChoicesSpec(cat: Catalog, kind: ItemKind)
    ensures forall p :: p in ProductChoices(cat.products, kind) <==> p in cat.products && kind != Accessories && p.kind == kind
    ensures forall a :: a in AccessoryChoices(cat.accessories, kind) <==> a in cat.accessories && AccessoryFits(a, kind)
    ensures forall a :: a in AccessoryProductChoices(cat.accessories, kind) <==> a in cat.accessories && kind == Accessories
    ensures forall a :: AccessoryFits(a, Accessories) <==> a.category == "Window & Door"
  {
    FilterMembers(cat.products, (p: Product) => p.kind == kind);
    FilterMembers(cat.accessories, (a: Accessory) => AccessoryFits(a, kind));
  }

  /** The glass surcharge is the price of the first glass whose name is the
    * chosen one, and 0 when no glass is chosen or none has that name. */
  lemma GlassSurchargeSpec(glass: seq<Glass>, name: string)
    ensures name == "" || (forall i :: 0 <= i < |glass| ==> glass[i].name != name) ==> GlassSurcharge(glass, name) == 0.0
    ensures forall i :: 0 <= i < |glass| && name != "" && glass[i].name == name &&
                        (forall j :: 0 <= j < i ==> glass[j].name != name) ==>
                        GlassSurcharge(glass, name) == glass[i].pricePerSqm
  {
    forall i | 0 <= i < |glass| && name != "" && glass[i].name == name && (forall j :: 0 <= j < i ==> glass[j].name != name)
      ensures GlassSurcharge(glass, name) == glass[i].pricePerSqm
    {
      FindFirstIsFirstMatch(glass, (g: Glass) => g.name == name, i);
    }
  }

  /** The style surcharge is the price of the first style whose name is the
    * chosen one, and 0 when no style is chosen or none has that name. */
  lemma StyleSurchargeSpec(styles: seq<Style>, name: string)
    ensures name == "" || (forall i :: 0 <= i < |styles| ==> styles[i].name != name) ==> StyleSurcharge(styles, name) == 0.0
    ensures forall i :: 0 <= i < |styles| && name != "" && styles[i].name == name &&
                        (forall j :: 0 <= j < i ==> styles[j].name != name) ==>
                        StyleSurcharge(styles, name) == styles[i].pricePerSqm
  {
    forall i | 0 <= i < |styles| && name != "" && styles[i].name == name && (forall j :: 0 <= j < i ==> styles[j].name != name)
      ensures StyleSurcharge(styles, name) == styles[i].pricePerSqm
    {
      FindFirstIsFirstMatch(styles, (s: Style) => s.name == name, i);
    }
  }

  /** After any option change the price per square metre is the base price
    * plus the glass and style surcharges of the options now chosen, and
    * the colour never enters it. */
  lemma OptionPriceSpec(d: ItemData, change: OptionChange, base: real, selected: string, cat: Catalog, c1: string, c2: string)
    ensures var r := AfterOptionChange(d, change, base, selected, cat);
      r.pricePerSqm == base + GlassSurcharge(cat.glass, r.glass) + StyleSurcharge(cat.styles, r.style)
    ensures AfterOptionChange(d, ColourTo(c1), base, selected, cat).pricePerSqm
         == AfterOptionChange(d, ColourTo(c2), base, selected, cat).pricePerSqm
  {
  }

  /** The accessory price is linear in the quantity and uses the first
    * accessory of the chosen name; a quantity change agrees with an option
    * change when that accessory exists, and otherwise keeps the previous
    * price. */
  lemma AccessoryPriceSpec(d: ItemData, input: Option<int>, cat: Catalog)
    ensures forall q :: AccessoryTotal(cat.accessories, d.accessories, q) == AccessoryTotal(cat.accessories, d.accessories, 1) * q as real
    ensures var r := AfterQuantityChange(d, input, cat);
      && r.quantity == (if input.Some? then input.value else 0)
      && (ChosenAccessory(cat.accessories, d.accessories).Some? ==>
            r.accessoryPrice == Some(AccessoryTotal(cat.accessories, d.accessories, r.quantity)))
      && (ChosenAccessory(cat.accessories, d.accessories).None? ==>
            r.accessoryPrice == Some(AccessoryOrZero(d)))
      && r.(quantity := d.quantity, accessoryPrice := d.accessoryPrice) == d
  {
    var r := AfterQuantityChange(d, input, cat);
    if ChosenAccessory(cat.accessories, d.accessories).Some? {
      var a := ChosenAccessory(cat.accessories, d.accessories).value;
      assert r.accessoryPrice.value == a.price * r.quantity as real;
      assert AccessoryTotal(cat.accessories, d.accessories, r.quantity) == a.price * r.quantity as real;
    }
  }

  /** The description lists the head name first, then only chosen
    * (non-empty) options. Option `k`, when chosen, sits right after the head
    * and the chosen options before it, so chosen options keep the order
    * colour, glass, style, accessory; there are as many parts after the
    * head as chosen options. */
  lemma DescriptionPartsSpec(head: Option<string>, d: ItemData)
    ensures |DescriptionParts(head, d)| <= 5
    ensures head.Some? ==> DescriptionParts(head, d)[0] == head.value
    ensures |DescriptionParts(head, d)| == (if head.Some? then 1 else 0) + |Filter(Options(d), NonEmpty)|
    ensures forall i :: (if head.Some? then 1 else 0) <= i < |DescriptionParts(head, d)| ==>
      DescriptionParts(head, d)[i] != "" && DescriptionParts(head, d)[i] in Options(d)
    ensures forall k :: 0 <= k < 4 && Options(d)[k] != "" ==>
      var at := (if head.Some? then 1 else 0) + |Filter(Options(d)[..k], NonEmpty)|;
      at < |DescriptionParts(head, d)| && DescriptionParts(head, d)[at] == Options(d)[k]
    ensures forall k1, k2 :: 0 <= k1 < k2 < 4 && Options(d)[k1] != "" ==>
      |Filter(Options(d)[..k1], NonEmpty)| < |Filter(Options(d)[..k2], NonEmpty)|
    ensures head.None? && d.colour == "" && d.glass == "" && d.style == "" && d.accessories == "" ==>
      DescriptionParts(head, d) == []
  {
    var opts := Options(d);
    var tail := Filter(opts, NonEmpty);
    var parts := DescriptionParts(head, d);
    var off := if head.Some? then 1 else 0;
    FilterMembers(opts, NonEmpty);
    FilterOrder(opts, NonEmpty);
    assert parts == parts[..off] + tail;
    forall i | off <= i < |parts| ensures parts[i] != "" && parts[i] in opts {
      assert parts[i] == tail[i - off] && tail[i - off] in tail;
    }
    if head.None? && d.colour == "" && d.glass == "" && d.style == "" && d.accessories == "" {
      if tail != [] { assert tail[0] in tail; }
    }
  }

  /** The `", "` join: nothing for no parts, the part itself for one, and
    * each further part added after a comma and a space. */
  lemma JoinCommaSpec(a: string, b: string, parts: seq<string>)
    ensures JoinComma([]) == "" && JoinComma([a]) == a
    ensures JoinComma([a, b]) == a + ", " + b
    ensures parts != [] ==> JoinComma(parts + [b]) == JoinComma(parts) + ", " + b
  {
    assert [a, b][1..] == [b];
    if parts != [] {
      JoinCommaSnoc(parts, b);
    }
  }

  lemma {:induction false} JoinCommaSnoc(parts: seq<string>, b: string)
    requires parts != []
    ensures JoinComma(parts + [b]) == JoinComma(parts) + ", " + b
    decreases |parts|
  {
    var all := parts + [b];
    assert all[0] == parts[0] && all[1..] == parts[1..] + [b];
    if |parts| == 1 {
      assert all[1..] == [b];
    } else {
      JoinCommaSnoc(parts[1..], b);
    }
  }

  /** The dialog's total is the printable document's line total: formula
    * (a) and formula (b) agree line by line. */
  lemma ItemTotalIsLineTotal(d: ItemData)
    ensures ItemTotal(d) == TaxInclusive.LineTotal(d)
    ensures ItemArea(d) == TaxInclusive.Area(d)
  {
    assert (ItemArea(d) * d.pricePerSqm) * d.quantity as real == ItemArea(d) * d.quantity as real * d.pricePerSqm;
  }

  /** The base price is not restored when an item is reopened: with no
    * glass or style surcharge, a colour change on a reopened item prices it
    * at whatever base the dialog still holds (0 on a fresh dialog), not at
    * the item's own price. */
  lemma StaleBase(d: ItemData, c: string, selected: string, cat: Catalog)
    requires d.glass == "" && d.style == ""
    ensures AfterOptionChange(d, ColourTo(c), 0.0, selected, cat).pricePerSqm == 0.0
  {
  }

  // ---------------------------------------------------------------------
  // The dialog
  // ---------------------------------------------------------------------

  class ItemDialog {
    var formData: ItemData
    var selectedProductId: string
    var basePrice: real

    constructor()
      ensures formData == DefaultItem && selectedProductId == "" && basePrice == 0.0
    {
      formData := DefaultItem;
      selectedProductId := "";
      basePrice := 0.0;
    }

    /** Opening: the edited item's fields without its accessory price, or
      * the defaults; no product is selected and the base price is left as
      * it was. */
    method Open(editing: Option<ItemData>)
      modifies this
      ensures editing.Some? ==> formData == editing.value.(accessoryPrice := None)
      ensures editing.None? ==> formData == DefaultItem
      ensures selectedProductId == "" && basePrice == old(basePrice)
    {
      formData := if editing.Some? then editing.value.(accessoryPrice := None) else DefaultItem;
      selectedProductId := "";
    }

    /** `handleProductSelect`: an accessory (for the accessories type) sets
      * the price and the description; a product sets the price, the
      * colour, the description and the base price. An unknown or empty id
      * only changes the selection. */
    method SelectProduct(id: string, cat: Catalog)
      modifies this
      ensures selectedProductId == id
      ensures var acc := FindFirst(cat.accessories, (a: Accessory) => a.id == id);
              var prod := FindFirst(cat.products, (p: Product) => p.id == id);
        && (id != "" && old(formData).kind == Accessories && acc.Some? ==>
              formData == old(formData).(pricePerSqm := acc.value.price,
                                        description := acc.value.name + " - " + acc.value.accessoryType)
              && basePrice == old(basePrice))
        && (id != "" && old(formData).kind != Accessories && prod.Some? ==>
              formData == old(formData).(pricePerSqm := prod.value.pricePerSqm, colour := prod.value.color,
                                        description := ProductDescription(prod.value, old(formData)))
              && basePrice == prod.value.pricePerSqm)
        && (id == "" || (old(formData).kind == Accessories && acc.None?) || (old(formData).kind != Accessories && prod.None?) ==>
              formData == old(formData) && basePrice == old(basePrice))
    {
      selectedProductId := id;
      if id != "" {
        if formData.kind == Accessories {
          var acc := FindFirst(cat.accessories, (a: Accessory) => a.id == id);
          if acc.Some? {
            formData := formData.(pricePerSqm := acc.value.price,
                                  description := acc.value.name + " - " + acc.value.accessoryType);
          }
        } else {
          var prod := FindFirst(cat.products, (p: Product) => p.id == id);
          if prod.Some? {
            formData := formData.(pricePerSqm := prod.value.pricePerSqm, colour := prod.value.color,
                                  description := ProductDescription(prod.value, formData));
            basePrice := prod.value.pricePerSqm;
          }
        }
      }
    }

    /** `handleDescriptionChange` */
    method ChangeOption(change: OptionChange, cat: Catalog)
      modifies this
      ensures formData == AfterOptionChange(old(formData), change, basePrice, selectedProductId, cat)
      ensures selectedProductId == old(selectedProductId) && basePrice == old(basePrice)
    {
      formData := AfterOptionChange(formData, change, basePrice, selectedProductId, cat);
    }

    /** `handleTypeChange`: the type changes and the product selection is
      * cleared; nothing else. */
    method ChangeType(kind: ItemKind)
      modifies this
      ensures formData == old(formData).(kind := kind)
      ensures selectedProductId == "" && basePrice == old(basePrice)
    {
      formData := formData.(kind := kind);
      selectedProductId := "";
    }

    /** The width, height and price inputs: an unreadable input counts as
      * 0 (`parseFloat(value) || 0`); nothing is recomputed. */
    method ChangeWidth(input: Option<int>)
      modifies this
      ensures formData == old(formData).(width := if input.Some? then input.value else 0)
      ensures selectedProductId == old(selectedProductId) && basePrice == old(basePrice)
    {
      formData := formData.(width := if input.Some? then input.value else 0);
    }

    method ChangeHeight(input: Option<int>)
      modifies this
      ensures formData == old(formData).(height := if input.Some? then input.value else 0)
      ensures selectedProductId == old(selectedProductId) && basePrice == old(basePrice)
    {
      formData := formData.(height := if input.Some? then input.value else 0);
    }

    method ChangePrice(price: Option<real>)
      modifies this
      ensures formData == old(formData).(pricePerSqm := if price.Some? then price.value else 0.0)
      ensures selectedProductId == old(selectedProductId) && basePrice == old(basePrice)
    {
      formData := formData.(pricePerSqm := if price.Some? then price.value else 0.0);
    }

    /** The quantity input. */
    method ChangeQuantity(input: Option<int>, cat: Catalog)
      modifies this
      ensures formData == AfterQuantityChange(old(formData), input, cat)
      ensures selectedProductId == old(selectedProductId) && basePrice == old(basePrice)
    {
      formData := AfterQuantityChange(formData, input, cat);
    }
  }
}
