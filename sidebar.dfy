/** The filter sidebar (`FilterSidebar`): one radio group per filter whose
    options are the enum values, where choosing the selected option clears
    the filter and choosing another replaces it, and a Reset control. */
module Sidebar {
  import opened Wrappers
  import opened Locations
  import opened QueryEngine
  import opened Store

  /** `selected === v ? null : v`, the value handed to the setter. */
  function Toggle<T(==)>(selected: Option<T>, v: T): (r: Option<T>)
    ensures r.None? <==> selected == Some(v)
    ensures r.Some? ==> r.value == v
  {
    if selected == Some(v) then None else Some(v)
  }

  /** Choosing the same option twice restores a selection of that option,
      and clears every other starting selection, `null` included. */
  lemma ToggleTwice<T>(selected: Option<T>, v: T)
    ensures Toggle(Toggle(selected, v), v) == (if selected == Some(v) then selected else None)
  {
  }

  /** The price options `['low', 'medium', 'high']`. */
  function PriceOptions(): seq<PriceRange> {
    [Low, Medium, High]
  }

  /** The type, cuisine and district groups list `AllLocationTypes`,
      `AllCuisines` and `AllDistricts` (each member once, see their facts
      lemmas); the price group offers each band once, as 'low', 'medium',
      'high'. */
  lemma PriceOptionsFacts()
    ensures forall p: PriceRange :: p in PriceOptions()
    ensures |PriceOptions()| == 3
    ensures forall i, j :: 0 <= i < j < 3 ==> PriceOptions()[i] != PriceOptions()[j]
    ensures [PriceOptions()[0].Value(), PriceOptions()[1].Value(), PriceOptions()[2].Value()]
            == ["low", "medium", "high"]
  {
    forall p: PriceRange ensures p in PriceOptions() {
      match p
      case Low => assert PriceOptions()[0] == p;
      case Medium => assert PriceOptions()[1] == p;
      case High => assert PriceOptions()[2] == p;
    }
  }

  /** The label of a price option: '$' for 'low', '$$' for 'medium' and
      '$$$' for anything else. */
  function PriceSymbol(price: string): (r: string)
    ensures 1 <= |r| <= 3
    ensures forall i :: 0 <= i < |r| ==> r[i] == '$'
    ensures |r| == 1 <==> price == "low"
    ensures |r| == 2 <==> price == "medium"
  {
    if price == "low" then "$" else if price == "medium" then "$$" else "$$$"
  }

  /** The number of '$' signs grows with the price band, in the order the
      price sort uses. */
  lemma PriceSymbolOrder(p: PriceRange)
    ensures |PriceSymbol(p.Value())| == PriceOrder(p) + 1
  {
  }

  // ---------------------------------------------------------------------
  // The radio handlers on the store

  /** A type option's `onChange`. */
  method ChooseType(store: LocationStore, t: LocationType, now: int)
    modifies store
    ensures store.Inputs() == old(store.Inputs()).(sel := old(store.CurrentSelection()).(locType := Toggle(old(store.selectedType), t)))
    ensures store.filteredLocations == Expected(store.Inputs(), now)
  {
    store.SetSelectedType(Toggle(store.selectedType, t), now);
  }

  /** A cuisine option's `onChange`. */
  method ChooseCuisine(store: LocationStore, c: Cuisine, now: int)
    modifies store
    ensures store.Inputs() == old(store.Inputs()).(sel := old(store.CurrentSelection()).(cuisine := Toggle(old(store.selectedCuisine), c)))
    ensures store.filteredLocations == Expected(store.Inputs(), now)
  {
    store.SetSelectedCuisine(Toggle(store.selectedCuisine, c), now);
  }

  /** A district option's `onChange`. */
  method ChooseDistrict(store: LocationStore, d: District, now: int)
    modifies store
    ensures store.Inputs() == old(store.Inputs()).(sel := old(store.CurrentSelection()).(district := Toggle(old(store.selectedDistrict), d)))
    ensures store.filteredLocations == Expected(store.Inputs(), now)
  {
    store.SetSelectedDistrict(Toggle(store.selectedDistrict, d), now);
  }

  /** A price option's `onChange`. */
  method ChoosePrice(store: LocationStore, p: PriceRange, now: int)
    modifies store
    ensures store.Inputs() == old(store.Inputs()).(sel := old(store.CurrentSelection()).(price := Toggle(old(store.priceRange), p)))
    ensures store.filteredLocations == Expected(store.Inputs(), now)
  {
    store.SetPriceRange(Toggle(store.priceRange, p), now);
  }

  /** The Reset button. */
  method Reset(store: LocationStore, now: int)
    modifies store
    ensures store.Inputs() == old(store.Inputs()).(sel := NoSelection, sortBy := None)
    ensures store.filteredLocations == Expected(store.Inputs(), now)
  {
    store.ResetFilters(now);
  }

  /** Choosing a type option keeps only records of that type, and choosing
      it again lifts the type filter. */
  lemma ChooseTypeEffect(inputs: StoreInputs, t: LocationType, now: int, l: Location)
    ensures var chosen := inputs.sel.(locType := Toggle(inputs.sel.locType, t));
      && (inputs.sel.locType != Some(t) ==>
            (l in Expected(inputs.(sel := chosen), now) ==> l.locType == t.Value()))
      && (inputs.sel.locType == Some(t) ==> chosen.locType.None?)
  {
    var chosen := inputs.sel.(locType := Toggle(inputs.sel.locType, t));
    QueryMembership(chosen, inputs.sortBy, inputs.locations, inputs.submissions, now, l);
  }
}
