/**
 * The catalogue screen (Products.tsx): aluminium products, glass and
 * accessories, each a `Sections.Section` with its own form. None of the
 * three forms has a required-field check. A form (`Omit<X, 'id'>`) is the
 * record itself with an unused id; fields a form never sets are empty.
 */
module Products {
  import opened Text
  import opened Types
  import opened KeyedList
  import opened Sections

  // ---------------------------------------------------------------------
  // Forms and the records saved from them
  // ---------------------------------------------------------------------

  const BlankProductForm := Product("", "", Window, 0.0, "", "", "")
  const BlankGlassForm := Glass("", "", "", 0.0, 0.0, "", "")
  const BlankAccessoryForm := Accessory("", "", "", 0.0, "", "", "Both")

  /** `handleEdit` copies every field of the product into the form. */
  function ProductFormOf(p: Product): Product {
    p.(id := "")
  }

  /** `handleEditGlass` copies the name, type, thickness and price only. */
  function GlassFormOf(g: Glass): Glass {
    BlankGlassForm.(name := g.name, glassType := g.glassType, thickness := g.thickness, pricePerSqm := g.pricePerSqm)
  }

  /** `handleEditAccessory` copies every field of the accessory. */
  function AccessoryFormOf(a: Accessory): Accessory {
    a.(id := "")
  }

  /** Add saves `{ ...form, id: newId }`; update saves
    * `{ ...form, id: edited.id }`. */
  const ProductHandlers: Handlers<Product> :=
    Handlers(ProductId, BlankProductForm, ProductFormOf, (f: Product) => true,
             (f: Product, id: string) => f.(id := id), (f: Product, e: Product) => f.(id := e.id))

  const GlassHandlers: Handlers<Glass> :=
    Handlers(GlassId, BlankGlassForm, GlassFormOf, (f: Glass) => true,
             (f: Glass, id: string) => f.(id := id), (f: Glass, e: Glass) => f.(id := e.id))

  const AccessoryHandlers: Handlers<Accessory> :=
    Handlers(AccessoryId, BlankAccessoryForm, AccessoryFormOf, (f: Accessory) => true,
             (f: Accessory, id: string) => f.(id := id), (f: Accessory, e: Accessory) => f.(id := e.id))

  // ---------------------------------------------------------------------
  // Search
  // ---------------------------------------------------------------------

  predicate ProductMatches(p: Product, term: string) {
    MatchesIgnoringCase(p.name, term) || MatchesIgnoringCase(KindName(p.kind), term) || MatchesIgnoringCase(p.material, term)
  }

  predicate GlassMatches(g: Glass, term: string) {
    MatchesIgnoringCase(g.name, term) || MatchesIgnoringCase(g.glassType, term) || MatchesIgnoringCase(g.specifications, term)
  }

  predicate AccessoryMatches(a: Accessory, term: string) {
    MatchesIgnoringCase(a.name, term) || MatchesIgnoringCase(a.accessoryType, term) || MatchesIgnoringCase(a.specifications, term)
  }

  /** `filteredProducts` */
  function FilteredProducts(products: seq<Product>, term: string): seq<Product> {
    Filter(products, (p: Product) => ProductMatches(p, term))
  }

  /** `filteredGlass` */
  function FilteredGlass(glass: seq<Glass>, term: string): seq<Glass> {
    Filter(glass, (g: Glass) => GlassMatches(g, term))
  }

  /** `filteredAccessories` */
  function FilteredAccessories(accessories: seq<Accessory>, term: string): seq<Accessory> {
    Filter(accessories, (a: Accessory) => AccessoryMatches(a, term))
  }

  // ---------------------------------------------------------------------
  // Properties
  // ---------------------------------------------------------------------

  /** An added record carries the new id and the form's other fields; an
    * updated record carries the edited record's id and the form's other
    * fields. The same holds for glass and accessories. */
  lemma SavedRecordsSpec(f: Product, e: Product, g: Glass, ge: Glass, a: Accessory, ae: Accessory, newId: string)
    ensures var n := ProductHandlers.withNewId(f, newId); n.id == newId && n.(id := f.id) == f
    ensures var u := ProductHandlers.withEdited(f, e); u.id == e.id && u.(id := f.id) == f
    ensures var n := GlassHandlers.withNewId(g, newId); n.id == newId && n.(id := g.id) == g
    ensures var u := GlassHandlers.withEdited(g, ge); u.id == ge.id && u.(id := g.id) == g
    ensures var n := AccessoryHandlers.withNewId(a, newId); n.id == newId && n.(id := a.id) == a
    ensures var u := AccessoryHandlers.withEdited(a, ae); u.id == ae.id && u.(id := a.id) == a
  {
  }

  /** Saving an edit without touching the form writes back the same product
    * or accessory. */
  lemma EditRoundTrip(p: Product, a: Accessory)
    ensures ProductHandlers.withEdited(ProductHandlers.formOf(p), p) == p
    ensures AccessoryHandlers.withEdited(AccessoryHandlers.formOf(a), a) == a
  {
  }

  /** Not so for glass: the edit form drops the description and the
    * specifications, so an untouched edit writes back the same glass exactly
    * when both are empty, and otherwise saves them empty. */
  lemma GlassEditDropsText(g: Glass)
    ensures GlassHandlers.withEdited(GlassHandlers.formOf(g), g) == g <==> g.description == "" && g.specifications == ""
    ensures var u := GlassHandlers.withEdited(GlassHandlers.formOf(g), g);
            u.description == "" && u.specifications == "" &&
            u.(description := g.description, specifications := g.specifications) == g
  {
  }

  /** A product is listed exactly when the lower-cased term occurs in its
    * lower-cased name, type or material; an empty term lists everything. */
  lemma FilteredProductsSpec(products: seq<Product>, term: string)
    ensures forall p :: p in FilteredProducts(products, term) <==>
              p in products &&
              (Includes(Lower(p.name), Lower(term)) || Includes(Lower(KindName(p.kind)), Lower(term)) || Includes(Lower(p.material), Lower(term)))
    ensures term == "" ==> FilteredProducts(products, term) == products
  {
    var keep := (p: Product) => ProductMatches(p, term);
    FilterMembers(products, keep);
    if term == "" {
      forall i | 0 <= i < |products| ensures keep(products[i]) {
        EmptyTermMatchesEverything(products[i].name);
      }
      FilterKeepsAll(products, keep);
    }
  }

  /** A glass is listed exactly when the term occurs, ignoring case, in its
    * name, type or specifications; an empty term lists everything. */
  lemma FilteredGlassSpec(glass: seq<Glass>, term: string)
    ensures forall g :: g in FilteredGlass(glass, term) <==>
              g in glass &&
              (Includes(Lower(g.name), Lower(term)) || Includes(Lower(g.glassType), Lower(term)) || Includes(Lower(g.specifications), Lower(term)))
    ensures term == "" ==> FilteredGlass(glass, term) == glass
  {
    var keep := (g: Glass) => GlassMatches(g, term);
    FilterMembers(glass, keep);
    if term == "" {
      forall i | 0 <= i < |glass| ensures keep(glass[i]) {
        EmptyTermMatchesEverything(glass[i].name);
      }
      FilterKeepsAll(glass, keep);
    }
  }

  /** An accessory is listed exactly when the term occurs, ignoring case, in
    * its name, type or specifications; an empty term lists everything. */
  lemma FilteredAccessoriesSpec(accessories: seq<Accessory>, term: string)
    ensures forall a :: a in FilteredAccessories(accessories, term) <==>
              a in accessories &&
              (Includes(Lower(a.name), Lower(term)) || Includes(Lower(a.accessoryType), Lower(term)) || Includes(Lower(a.specifications), Lower(term)))
    ensures term == "" ==> FilteredAccessories(accessories, term) == accessories
  {
    var keep := (a: Accessory) => AccessoryMatches(a, term);
    FilterMembers(accessories, keep);
    if term == "" {
      forall i | 0 <= i < |accessories| ensures keep(accessories[i]) {
        EmptyTermMatchesEverything(accessories[i].name);
      }
      FilterKeepsAll(accessories, keep);
    }
  }
}
