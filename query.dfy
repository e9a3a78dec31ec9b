/** The query `applyFilters` computes: approved submissions are converted
    and appended to the curated list, up to five conjunctive clauses are
    applied, and the result is optionally sorted. This module states that
    query as functions; the store's methods are proved equal to it. */
module QueryEngine {
  import opened Wrappers
  import opened Text
  import opened Seqs
  import opened Sorting
  import opened Locations
  import opened Conversion

  // ---------------------------------------------------------------------
  // Selection and clauses

  /** The store's current selection; `None` is the source's `null`. */
  datatype Selection = Selection(
    searchTerm: string,
    locType: Option<LocationType>,
    cuisine: Option<Cuisine>,
    district: Option<District>,
    price: Option<PriceRange>)

  /** The selection `resetFilters` restores. */
  const NoSelection := Selection("", None, None, None, None)

  predicate TypeClause(sel: Selection, l: Location) {
    sel.locType.None? || l.locType == sel.locType.value.Value()
  }

  /** The cuisine test: the `cuisine` field equals the value, or some
      feature equals it ignoring case. */
  predicate CuisineMatch(c: Cuisine, l: Location) {
    l.cuisine == Some(c.Value())
    || exists i :: 0 <= i < |l.features| && Lower(l.features[i]) == Lower(c.Value())
  }

  predicate CuisineClause(sel: Selection, l: Location) {
    sel.cuisine.None? || CuisineMatch(sel.cuisine.value, l)
  }

  predicate DistrictClause(sel: Selection, l: Location) {
    sel.district.None? || Contains(Lower(l.fullAddress), Lower(sel.district.value.Value()))
  }

  predicate PriceClause(sel: Selection, l: Location) {
    sel.price.None? || l.priceRange == sel.price.value
  }

  /** The lower-cased `term` occurs in the lower-cased name, address or
      description. */
  predicate SearchHit(term: string, l: Location) {
    Contains(Lower(l.name), term) || Contains(Lower(l.fullAddress), term)
    || (l.description.Some? && Contains(Lower(l.description.value), term))
  }

  /** The search clause is active for every non-empty term, whitespace
      included. */
  predicate SearchClause(sel: Selection, l: Location) {
    sel.searchTerm == "" || SearchHit(Lower(sel.searchTerm), l)
  }

  /** A record survives the filters iff it passes every active clause. */
  predicate Matches(sel: Selection, l: Location) {
    TypeClause(sel, l) && CuisineClause(sel, l) && DistrictClause(sel, l)
    && PriceClause(sel, l) && SearchClause(sel, l)
  }

  // ---------------------------------------------------------------------
  // Merge

  predicate IsApproved(sub: Submission) { sub.status == "approved" }

  function ConvertAll(subs: seq<Submission>, now: int): (r: seq<Location>)
    ensures |r| == |subs|
    ensures forall i :: 0 <= i < |subs| ==> r[i] == Converted(subs[i], now)
  {
    MapSeq(sub => Converted(sub, now), subs)
  }

  /** The working list: the curated records followed by the converted
      approved submissions. */
  function Merge(locations: seq<Location>, subs: seq<Submission>, now: int): seq<Location> {
    locations + ConvertAll(Filter(IsApproved, subs), now)
  }

  // ---------------------------------------------------------------------
  // Sorting

  /** `sortBy`: 'name', 'rating' or 'priceRange'. */
  datatype SortKey = ByName | ByRating | ByPrice

  /** `localeCompare` as plain lexicographic order on characters. */
  function StrCompare(a: string, b: string): (r: int)
    ensures -1 <= r <= 1
  {
    if a == [] && b == [] then 0
    else if a == [] then -1
    else if b == [] then 1
    else if a[0] < b[0] then -1
    else if a[0] > b[0] then 1
    else StrCompare(a[1..], b[1..])
  }

  /** `rating || 0`. */
  function RatingOf(l: Location): int {
    if l.rating.Some? then l.rating.value else 0
  }

  function PriceOrder(p: PriceRange): int {
    match p
    case Low => 0
    case Medium => 1
    case High => 2
  }

  /** The comparator passed to `sort`: negative when `a` goes first. */
  function Compare(key: SortKey, a: Location, b: Location): int {
    match key
    case ByName => StrCompare(a.name, b.name)
    case ByRating => RatingOf(b) - RatingOf(a)
    case ByPrice => PriceOrder(a.priceRange) - PriceOrder(b.priceRange)
  }

  /** The comparator as the function value handed to `sort`. */
  function Cmp(key: SortKey): (Location, Location) -> int {
    (a: Location, b: Location) => Compare(key, a, b)
  }

  /** The records of `s` passing every active clause, in order. */
  function Filtered(sel: Selection, s: seq<Location>): seq<Location> {
    Filter(l => Matches(sel, l), s)
  }

  /** The first `n` clauses, in the order `applyFilters` applies them. */
  predicate MatchesFirst(sel: Selection, n: nat, l: Location) {
    (n < 1 || TypeClause(sel, l)) && (n < 2 || CuisineClause(sel, l)) && (n < 3 || DistrictClause(sel, l))
    && (n < 4 || PriceClause(sel, l)) && (n < 5 || SearchClause(sel, l))
  }

  /** The whole query of `applyFilters`. */
  function Query(sel: Selection, sortBy: Option<SortKey>, locations: seq<Location>,
                 subs: seq<Submission>, now: int): seq<Location>
  {
    var filtered := Filtered(sel, Merge(locations, subs, now));
    if sortBy.Some? then SortBy(Cmp(sortBy.value), filtered) else filtered
  }

  // ---------------------------------------------------------------------
  // The comparator is a total preorder

  lemma {:induction false} StrCompareAntisymmetric(a: string, b: string)
    ensures StrCompare(a, b) == -StrCompare(b, a)
  {
    if a != [] && b != [] && a[0] == b[0] {
      StrCompareAntisymmetric(a[1..], b[1..]);
    }
  }

  lemma {:induction false} StrCompareZero(a: string, b: string)
    ensures StrCompare(a, b) == 0 <==> a == b
  {
    if a != [] && b != [] && a[0] == b[0] {
      StrCompareZero(a[1..], b[1..]);
      assert a == [a[0]] + a[1..] && b == [b[0]] + b[1..];
    }
  }

  lemma {:induction false} StrCompareTransitive(a: string, b: string, c: string)
    requires StrCompare(a, b) <= 0 && StrCompare(b, c) <= 0
    ensures StrCompare(a, c) <= 0
  {
    if a != [] && b != [] && c != [] && a[0] == b[0] && b[0] == c[0] {
      StrCompareTransitive(a[1..], b[1..], c[1..]);
    }
  }

  /** Swapping the arguments negates the comparator. */
  lemma CompareAntisymmetric(key: SortKey, a: Location, b: Location)
    ensures Compare(key, a, b) == -Compare(key, b, a)
  {
    if key == ByName {
      StrCompareAntisymmetric(a.name, b.name);
    }
  }

  /** The comparator's order is transitive. */
  lemma CompareTransitive(key: SortKey, a: Location, b: Location, c: Location)
    requires Compare(key, a, b) <= 0 && Compare(key, b, c) <= 0
    ensures Compare(key, a, c) <= 0
  {
    if key == ByName {
      StrCompareTransitive(a.name, b.name, c.name);
    }
  }

  /** Records that compare equal compare the same way against any other. */
  lemma CompareTie(key: SortKey, a: Location, b: Location, c: Location)
    requires Compare(key, a, b) == 0
    ensures Compare(key, a, c) == Compare(key, b, c)
  {
    if key == ByName {
      StrCompareZero(a.name, b.name);
    }
  }

  /** Each sort key's comparator is a total preorder: what the sort's
      ordering and stability lemmas need. */
  lemma CmpTotalPreorder(key: SortKey)
    ensures Antisymmetric(Cmp(key)) && Transitive(Cmp(key)) && TieConsistent(Cmp(key))
  {
    forall a, b ensures Cmp(key)(a, b) == -Cmp(key)(b, a) {
      CompareAntisymmetric(key, a, b);
    }
    forall a, b, c | Cmp(key)(a, b) <= 0 && Cmp(key)(b, c) <= 0 ensures Cmp(key)(a, c) <= 0 {
      CompareTransitive(key, a, b, c);
    }
    forall a, b, c | Cmp(key)(a, b) == 0 ensures Cmp(key)(a, c) == Cmp(key)(b, c) {
      CompareTie(key, a, b, c);
    }
  }

  // ---------------------------------------------------------------------
  // Properties of the query

  /** The working list is the curated records followed by one converted
      record per approved submission: nothing is merged away by id. */
  lemma MergeShape(locations: seq<Location>, subs: seq<Submission>, now: int)
    ensures |Merge(locations, subs, now)| == |locations| + |Filter(IsApproved, subs)|
    ensures Merge(locations, subs, now)[..|locations|] == locations
  {
  }

  /** A record is in the working list iff it is curated or the conversion
      of an approved submission. */
  lemma MergeMembership(locations: seq<Location>, subs: seq<Submission>, now: int, l: Location)
    ensures l in Merge(locations, subs, now) <==>
      l in locations || exists sub :: sub in subs && IsApproved(sub) && l == Converted(sub, now)
  {
    if l in Merge(locations, subs, now) && l !in locations {
      MergedIsConverted(locations, subs, now, l);
    }
    if exists sub :: sub in subs && IsApproved(sub) && l == Converted(sub, now) {
      var sub :| sub in subs && IsApproved(sub) && l == Converted(sub, now);
      ConvertedIsMerged(locations, subs, now, sub);
    }
  }

  lemma MergedIsConverted(locations: seq<Location>, subs: seq<Submission>, now: int, l: Location)
    requires l in Merge(locations, subs, now) && l !in locations
    ensures exists sub :: sub in subs && IsApproved(sub) && l == Converted(sub, now)
  {
    var approved := Filter(IsApproved, subs);
    var c := ConvertAll(approved, now);
    assert l in c;
    var i :| 0 <= i < |c| && c[i] == l;
    assert approved[i] in approved;
  }

  lemma ConvertedIsMerged(locations: seq<Location>, subs: seq<Submission>, now: int, sub: Submission)
    requires sub in subs && IsApproved(sub)
    ensures Converted(sub, now) in Merge(locations, subs, now)
  {
    var approved := Filter(IsApproved, subs);
    assert sub in approved;
    var i :| 0 <= i < |approved| && approved[i] == sub;
    assert Merge(locations, subs, now)[|locations| + i] == Converted(sub, now);
  }

  /** A record is in the result iff it is in the working list and passes
      every active clause. */
  lemma QueryMembership(sel: Selection, sortBy: Option<SortKey>, locations: seq<Location>,
                        subs: seq<Submission>, now: int, l: Location)
    ensures l in Query(sel, sortBy, locations, subs, now) <==>
      l in Merge(locations, subs, now) && Matches(sel, l)
  {
    var filtered := Filtered(sel, Merge(locations, subs, now));
    if sortBy.Some? {
      SortByPermutes(Cmp(sortBy.value), filtered);
      assert l in SortBy(Cmp(sortBy.value), filtered) <==> l in multiset(filtered);
    }
  }

  /** Without a sort key the result keeps the working list's order. */
  lemma QueryUnsortedKeepsOrder(sel: Selection, locations: seq<Location>, subs: seq<Submission>, now: int)
    ensures IsSubsequence(Query(sel, None, locations, subs, now), Merge(locations, subs, now))
  {
    FilterIsSubsequence(l => Matches(sel, l), Merge(locations, subs, now));
  }

  /** With a sort key the result is an ordered, stable permutation of the
      filtered list. */
  lemma QuerySorted(sel: Selection, key: SortKey, locations: seq<Location>, subs: seq<Submission>,
                    now: int, x: Location)
    ensures var filtered := Filtered(sel, Merge(locations, subs, now));
      var r := Query(sel, Some(key), locations, subs, now);
      && SortedBy(Cmp(key), r)
      && multiset(r) == multiset(filtered)
      && Ties(Cmp(key), x, r) == Ties(Cmp(key), x, filtered)
  {
    var filtered := Filtered(sel, Merge(locations, subs, now));
    CmpTotalPreorder(key);
    SortBySorted(Cmp(key), filtered);
    SortByPermutes(Cmp(key), filtered);
    SortByStable(Cmp(key), x, filtered);
  }

  /** The empty selection without a sort key returns the working list. */
  lemma NoSelectionKeepsAll(locations: seq<Location>, subs: seq<Submission>, now: int)
    ensures Query(NoSelection, None, locations, subs, now) == Merge(locations, subs, now)
  {
    FilterAll(l => Matches(NoSelection, l), Merge(locations, subs, now));
  }

  /** A converted submission passes a cuisine clause only through its
      features: exactly when one of its raw tags lower-cases to the
      cuisine value. */
  lemma ConvertedCuisineMatch(sub: Submission, now: int, c: Cuisine)
    ensures CuisineMatch(c, Converted(sub, now)) <==>
      exists x :: x in CandidateFeatures(sub.userInput) && Lower(x) == c.Value()
  {
    if CuisineMatch(c, Converted(sub, now)) {
      CuisineMatchHasTag(sub, now, c);
    }
    if exists x :: x in CandidateFeatures(sub.userInput) && Lower(x) == c.Value() {
      var x :| x in CandidateFeatures(sub.userInput) && Lower(x) == c.Value();
      TagGivesCuisineMatch(sub, now, c, x);
    }
  }

  lemma CuisineMatchHasTag(sub: Submission, now: int, c: Cuisine)
    requires CuisineMatch(c, Converted(sub, now))
    ensures exists x :: x in CandidateFeatures(sub.userInput) && Lower(x) == c.Value()
  {
    var l := Converted(sub, now);
    ConvertedCuisineNeverEnum(sub, now, c);
    CuisineValuesLowerCase(c);
    LowerOfLowerCase(c.Value());
    var i :| 0 <= i < |l.features| && Lower(l.features[i]) == Lower(c.Value());
    FeaturesFromCandidates(sub.userInput, l.features[i]);
    var x :| x in CandidateFeatures(sub.userInput) && TitleCase(x) == l.features[i];
    TitleCaseLowerEquivalent(x);
  }

  lemma TagGivesCuisineMatch(sub: Submission, now: int, c: Cuisine, x: string)
    requires x in CandidateFeatures(sub.userInput) && Lower(x) == c.Value()
    ensures CuisineMatch(c, Converted(sub, now))
  {
    var l := Converted(sub, now);
    CuisineValuesLowerCase(c);
    LowerOfLowerCase(c.Value());
    FeaturesFromCandidates(sub.userInput, TitleCase(x));
    TitleCaseLowerEquivalent(x);
    var i :| 0 <= i < |l.features| && l.features[i] == TitleCase(x);
  }

  /** The search term is not trimmed: a single space still filters out a
      record with no space in its name, address and description. */
  lemma BlankSearchStillFilters(sel: Selection, l: Location)
    requires sel.searchTerm == " "
    requires ' ' !in l.name && ' ' !in l.fullAddress && l.description.None?
    ensures !SearchClause(sel, l)
  {
    assert Lower(" ") == " ";
    CaseCharFacts(' ');
    assert ' ' !in Lower(l.name) by {
      forall i | 0 <= i < |l.name| ensures Lower(l.name)[i] != ' ' {
        CaseCharFacts(l.name[i]);
      }
    }
    assert ' ' !in Lower(l.fullAddress) by {
      forall i | 0 <= i < |l.fullAddress| ensures Lower(l.fullAddress)[i] != ' ' {
        CaseCharFacts(l.fullAddress[i]);
      }
    }
    NotContainsByChar(Lower(l.name), " ", ' ');
    NotContainsByChar(Lower(l.fullAddress), " ", ' ');
  }
}
