/** The filter store (`useLocationStore`): the curated list, the raw
    submissions, the current selection and the filtered result, with a
    setter per field that recomputes the result. */
module Store {
  import opened Wrappers
  import opened Text
  import opened Seqs
  import opened Sorting
  import opened Locations
  import opened Conversion
  import opened QueryEngine

  /** What the result depends on: the lists and the selection. */
  datatype StoreInputs = StoreInputs(
    locations: seq<Location>,
    submissions: seq<Submission>,
    sel: Selection,
    sortBy: Option<SortKey>)

  /** The result the store must show for `inputs` at time `now`. */
  function Expected(inputs: StoreInputs, now: int): seq<Location> {
    Query(inputs.sel, inputs.sortBy, inputs.locations, inputs.submissions, now)
  }

  /** `userSubmissions.filter(approved).map(convertSubmissionToLocation)`. */
  method ConvertApproved(subs: seq<Submission>, now: int) returns (converted: seq<Location>)
    ensures converted == ConvertAll(Filter(IsApproved, subs), now)
  {
    var approved := Filter(IsApproved, subs);
    converted := [];
    var i := 0;
    while i < |approved|
      invariant 0 <= i <= |approved|
      invariant converted == ConvertAll(approved[..i], now)
    {
      var loc := ConvertSubmissionToLocation(approved[i], now);
      MapSeqSnoc(sub => Converted(sub, now), approved, i);
      converted := converted + [loc];
      i := i + 1;
    }
    assert approved[..i] == approved;
  }

  /** The five successive `filtered = filtered.filter(...)` steps of
      `applyFilters`, each skipped when its selection is empty. */
  method FilterSelection(sel: Selection, merged: seq<Location>) returns (filtered: seq<Location>)
    ensures filtered == Filtered(sel, merged)
  {
    filtered := merged;
    FilterAll(l => MatchesFirst(sel, 0, l), merged);
    if sel.locType.Some? {
      var t := sel.locType.value;
      filtered := Filter((l: Location) => l.locType == t.Value(), filtered);
      FilterFilter(l => MatchesFirst(sel, 0, l), (l: Location) => l.locType == t.Value(), l => MatchesFirst(sel, 1, l), merged);
    } else {
      FilterExt(l => MatchesFirst(sel, 0, l), l => MatchesFirst(sel, 1, l), merged);
    }
    if sel.cuisine.Some? {
      var c := sel.cuisine.value;
      filtered := Filter(l => CuisineMatch(c, l), filtered);
      FilterFilter(l => MatchesFirst(sel, 1, l), l => CuisineMatch(c, l), l => MatchesFirst(sel, 2, l), merged);
    } else {
      FilterExt(l => MatchesFirst(sel, 1, l), l => MatchesFirst(sel, 2, l), merged);
    }
    if sel.district.Some? {
      var d := Lower(sel.district.value.Value());
      filtered := Filter((l: Location) => Contains(Lower(l.fullAddress), d), filtered);
      FilterFilter(l => MatchesFirst(sel, 2, l), (l: Location) => Contains(Lower(l.fullAddress), d), l => MatchesFirst(sel, 3, l), merged);
    } else {
      FilterExt(l => MatchesFirst(sel, 2, l), l => MatchesFirst(sel, 3, l), merged);
    }
    if sel.price.Some? {
      var p := sel.price.value;
      filtered := Filter((l: Location) => l.priceRange == p, filtered);
      FilterFilter(l => MatchesFirst(sel, 3, l), (l: Location) => l.priceRange == p, l => MatchesFirst(sel, 4, l), merged);
    } else {
      FilterExt(l => MatchesFirst(sel, 3, l), l => MatchesFirst(sel, 4, l), merged);
    }
    if sel.searchTerm != "" {
      var term := Lower(sel.searchTerm);
      filtered := Filter(l => SearchHit(term, l), filtered);
      FilterFilter(l => MatchesFirst(sel, 4, l), l => SearchHit(term, l), l => MatchesFirst(sel, 5, l), merged);
    } else {
      FilterExt(l => MatchesFirst(sel, 4, l), l => MatchesFirst(sel, 5, l), merged);
    }
    FilterExt(l => MatchesFirst(sel, 5, l), l => Matches(sel, l), merged);
  }

  class LocationStore {
    var locations: seq<Location>
    var userSubmissions: seq<Submission>
    var filteredLocations: seq<Location>
    var searchTerm: string
    var selectedType: Option<LocationType>
    var selectedCuisine: Option<Cuisine>
    var selectedDistrict: Option<District>
    var priceRange: Option<PriceRange>
    var sortBy: Option<SortKey>

    function CurrentSelection(): Selection
      reads this
    {
      Selection(searchTerm, selectedType, selectedCuisine, selectedDistrict, priceRange)
    }

    function Inputs(): StoreInputs
      reads this
    {
      StoreInputs(locations, userSubmissions, CurrentSelection(), sortBy)
    }

    /** The initial state: empty lists, empty search term, nothing
        selected. */
    constructor ()
      ensures Inputs() == StoreInputs([], [], NoSelection, None)
      ensures filteredLocations == []
    {
      locations := [];
      userSubmissions := [];
      filteredLocations := [];
      searchTerm := "";
      selectedType := None;
      selectedCuisine := None;
      selectedDistrict := None;
      priceRange := None;
      sortBy := None;
    }

    /** `applyFilters`; `now` is the current time the conversion uses for
        submissions without a creation time. */
    method ApplyFilters(now: int)
      modifies this
      ensures Inputs() == old(Inputs())
      ensures filteredLocations == Expected(Inputs(), now)
    {
      var sel := CurrentSelection();
      var converted := ConvertApproved(userSubmissions, now);
      var filtered := FilterSelection(sel, locations + converted);

      if sortBy.Some? {
        var a := new Location[|filtered|](k requires 0 <= k < |filtered| => filtered[k]);
        assert a[..] == filtered;
        SortInPlace(a, Cmp(sortBy.value));
        filtered := a[..];
      }
      filteredLocations := filtered;
    }

    method SetLocations(ls: seq<Location>, now: int)
      modifies this
      ensures Inputs() == old(Inputs()).(locations := ls)
      ensures filteredLocations == Expected(Inputs(), now)
    {
      locations := ls;
      ApplyFilters(now);
    }

    method SetUserSubmissions(subs: seq<Submission>, now: int)
      modifies this
      ensures Inputs() == old(Inputs()).(submissions := subs)
      ensures filteredLocations == Expected(Inputs(), now)
    {
      userSubmissions := subs;
      ApplyFilters(now);
    }

    method SetSearchTerm(term: string, now: int)
      modifies this
      ensures Inputs() == old(Inputs()).(sel := old(CurrentSelection()).(searchTerm := term))
      ensures filteredLocations == Expected(Inputs(), now)
    {
      searchTerm := term;
      ApplyFilters(now);
    }

    method SetSelectedType(t: Option<LocationType>, now: int)
      modifies this
      ensures Inputs() == old(Inputs()).(sel := old(CurrentSelection()).(locType := t))
      ensures filteredLocations == Expected(Inputs(), now)
    {
      selectedType := t;
      ApplyFilters(now);
    }

    method SetSelectedCuisine(c: Option<Cuisine>, now: int)
      modifies this
      ensures Inputs() == old(Inputs()).(sel := old(CurrentSelection()).(cuisine := c))
      ensures filteredLocations == Expected(Inputs(), now)
    {
      selectedCuisine := c;
      ApplyFilters(now);
    }

    method SetSelectedDistrict(d: Option<District>, now: int)
      modifies this
      ensures Inputs() == old(Inputs()).(sel := old(CurrentSelection()).(district := d))
      ensures filteredLocations == Expected(Inputs(), now)
    {
      selectedDistrict := d;
      ApplyFilters(now);
    }

    method SetPriceRange(p: Option<PriceRange>, now: int)
      modifies this
      ensures Inputs() == old(Inputs()).(sel := old(CurrentSelection()).(price := p))
      ensures filteredLocations == Expected(Inputs(), now)
    {
      priceRange := p;
      ApplyFilters(now);
    }

    method SetSortBy(key: Option<SortKey>, now: int)
      modifies this
      ensures Inputs() == old(Inputs()).(sortBy := key)
      ensures filteredLocations == Expected(Inputs(), now)
    {
      sortBy := key;
      ApplyFilters(now);
    }

    /** `resetFilters`: clears the search term, the four selections and the
        sort key, and keeps both lists. */
    method ResetFilters(now: int)
      modifies this
      ensures Inputs() == old(Inputs()).(sel := NoSelection, sortBy := None)
      ensures filteredLocations == Expected(Inputs(), now)
    {
      searchTerm := "";
      selectedType := None;
      selectedCuisine := None;
      selectedDistrict := None;
      priceRange := None;
      sortBy := None;
      ApplyFilters(now);
    }
  }

  /** After a reset the store shows the whole working list in merge order. */
  lemma ResetShowsEverything(inputs: StoreInputs, now: int)
    requires inputs.sel == NoSelection && inputs.sortBy == None
    ensures Expected(inputs, now) == Merge(inputs.locations, inputs.submissions, now)
  {
    NoSelectionKeepsAll(inputs.locations, inputs.submissions, now);
  }
}
