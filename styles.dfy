/**
 * The style and colour screen (Styles.tsx): two `Sections.Section`s whose
 * forms have required fields, their searches, and the summary counts of
 * window and door styles.
 */
module Styles {
  import opened Text
  import opened Types
  import opened KeyedList
  import opened Sections

  // ---------------------------------------------------------------------
  // Forms and the records saved from them
  // ---------------------------------------------------------------------

  const BlankStyleForm := Style("", "", "", "Window", 0.0)
  const BlankColourForm := Colour("", "", "", "#000000", 0.0)

  /** `startEditStyle` copies every field of the style into the form. */
  function StyleFormOf(s: Style): Style {
    s.(id := "")
  }

  /** `startEditColour` copies every field of the colour into the form. */
  function ColourFormOf(c: Colour): Colour {
    c.(id := "")
  }

  /** A style needs a name and a category. */
  predicate StyleFormValid(f: Style) {
    f.name != "" && f.category != ""
  }

  /** A colour needs a name. */
  predicate ColourFormValid(f: Colour) {
    f.name != ""
  }

  /** Add saves `{ id: newId, ...form }`; edit saves
    * `{ id: edited.id, ...form }`. */
  const StyleHandlers: Handlers<Style> :=
    Handlers(StyleId, BlankStyleForm, StyleFormOf, StyleFormValid,
             (f: Style, id: string) => f.(id := id), (f: Style, e: Style) => f.(id := e.id))

  const ColourHandlers: Handlers<Colour> :=
    Handlers(ColourId, BlankColourForm, ColourFormOf, ColourFormValid,
             (f: Colour, id: string) => f.(id := id), (f: Colour, e: Colour) => f.(id := e.id))

  // ---------------------------------------------------------------------
  // Search and counts
  // ---------------------------------------------------------------------

  predicate StyleMatches(s: Style, term: string) {
    MatchesIgnoringCase(s.name, term) || MatchesIgnoringCase(s.category, term) || MatchesIgnoringCase(s.description, term)
  }

  predicate ColourMatches(c: Colour, term: string) {
    MatchesIgnoringCase(c.name, term) || MatchesIgnoringCase(c.description, term) || MatchesIgnoringCase(c.hexCode, term)
  }

  /** `filteredStyles` */
  function FilteredStyles(styles: seq<Style>, term: string): seq<Style> {
    Filter(styles, (s: Style) => StyleMatches(s, term))
  }

  /** `filteredColours` */
  function FilteredColours(colours: seq<Colour>, term: string): seq<Colour> {
    Filter(colours, (c: Colour) => ColourMatches(c, term))
  }

  /** The number of styles of exactly one category. */
  function CategoryCount(styles: seq<Style>, category: string): nat {
    |Filter(styles, (s: Style) => s.category == category)|
  }

  /** The "Window Styles" summary. */
  function WindowStyleCount(styles: seq<Style>): nat {
    |Filter(styles, (s: Style) => s.category == "Window" || s.category == "Both")|
  }

  /** The "Door Styles" summary. */
  function DoorStyleCount(styles: seq<Style>): nat {
    |Filter(styles, (s: Style) => s.category == "Door" || s.category == "Both")|
  }

  // ---------------------------------------------------------------------
  // Properties
  // ---------------------------------------------------------------------

  /** The blank forms are refused; a style form passes exactly when it has
    * a name and a category, a colour form exactly when it has a name; the
    * form an edit button fills in passes exactly when the record did. */
  lemma ValidationSpec(f: Style, g: Colour, s: Style, c: Colour)
    ensures !StyleHandlers.valid(BlankStyleForm) && !ColourHandlers.valid(BlankColourForm)
    ensures StyleHandlers.valid(f) <==> f.name != "" && f.category != ""
    ensures ColourHandlers.valid(g) <==> g.name != ""
    ensures StyleHandlers.valid(StyleHandlers.formOf(s)) <==> s.name != "" && s.category != ""
    ensures ColourHandlers.valid(ColourHandlers.formOf(c)) <==> c.name != ""
  {
  }

  /** Added records carry the new id, edited ones the edited record's id,
    * and both carry the form's other fields; an untouched edit writes back
    * the same record. */
  lemma SavedRecordsSpec(f: Style, e: Style, g: Colour, ge: Colour, newId: string)
    ensures var n := StyleHandlers.withNewId(f, newId); n.id == newId && n.(id := f.id) == f
    ensures var u := StyleHandlers.withEdited(f, e); u.id == e.id && u.(id := f.id) == f
    ensures var n := ColourHandlers.withNewId(g, newId); n.id == newId && n.(id := g.id) == g
    ensures var u := ColourHandlers.withEdited(g, ge); u.id == ge.id && u.(id := g.id) == g
    ensures StyleHandlers.withEdited(StyleHandlers.formOf(e), e) == e
    ensures ColourHandlers.withEdited(ColourHandlers.formOf(ge), ge) == ge
  {
  }

  /** A style is listed exactly when the term occurs, ignoring case, in its
    * name, category or description; an empty term lists everything. */
  lemma FilteredStylesSpec(styles: seq<Style>, term: string)
    ensures forall s :: s in FilteredStyles(styles, term) <==>
              s in styles &&
              (Includes(Lower(s.name), Lower(term)) || Includes(Lower(s.category), Lower(term)) || Includes(Lower(s.description), Lower(term)))
    ensures term == "" ==> FilteredStyles(styles, term) == styles
  {
    var keep := (s: Style) => StyleMatches(s, term);
    FilterMembers(styles, keep);
    if term == "" {
      forall i | 0 <= i < |styles| ensures keep(styles[i]) {
        EmptyTermMatchesEverything(styles[i].name);
      }
      FilterKeepsAll(styles, keep);
    }
  }

  /** A colour is listed exactly when the term occurs, ignoring case, in its
    * name, description or hex code; an empty term lists everything. */
  lemma FilteredColoursSpec(colours: seq<Colour>, term: string)
    ensures forall c :: c in FilteredColours(colours, term) <==>
              c in colours &&
              (Includes(Lower(c.name), Lower(term)) || Includes(Lower(c.description), Lower(term)) || Includes(Lower(c.hexCode), Lower(term)))
    ensures term == "" ==> FilteredColours(colours, term) == colours
  {
    var keep := (c: Colour) => ColourMatches(c, term);
    FilterMembers(colours, keep);
    if term == "" {
      forall i | 0 <= i < |colours| ensures keep(colours[i]) {
        EmptyTermMatchesEverything(colours[i].name);
      }
      FilterKeepsAll(colours, keep);
    }
  }

  /** A `Both` style is counted under windows and under doors: each summary
    * is its own category plus `Both`, so the two summaries together exceed
    * the styles of those three categories by the `Both` styles, and
    * neither exceeds the total. */
  lemma {:induction false} StyleCountsSpec(styles: seq<Style>)
    ensures WindowStyleCount(styles) == CategoryCount(styles, "Window") + CategoryCount(styles, "Both")
    ensures DoorStyleCount(styles) == CategoryCount(styles, "Door") + CategoryCount(styles, "Both")
    ensures CategoryCount(styles, "Window") + CategoryCount(styles, "Door") + CategoryCount(styles, "Both") <= |styles|
    ensures WindowStyleCount(styles) <= |styles| && DoorStyleCount(styles) <= |styles|
    decreases |styles|
  {
    if styles != [] {
      StyleCountsSpec(styles[1..]);
    }
  }
}
