/** The card's presentation rules: the price shown when a record has none,
    and `getTagStyle`, which picks one of six badge styles for a feature
    tag by the first keyword group its normalised text mentions. */
module LocationCard {
  import opened Wrappers
  import opened Text
  import opened Locations

  // ---------------------------------------------------------------------
  // Price

  /** `location.priceRange || 'medium'`. */
  function DisplayPrice(p: Option<PriceRange>): (r: PriceRange)
    ensures p.Some? ==> r == p.value
    ensures p.None? ==> r == Medium
  {
    p.GetOr(Medium)
  }

  /** The labels of `priceRangeMap`. */
  function PriceLabel(p: PriceRange): string {
    match p
    case Low => "Budget-friendly"
    case Medium => "Moderate"
    case High => "High-end"
  }

  /** Each price level has its own label, and a record without a level is
      labelled 'Moderate'. */
  lemma PriceLabelsDistinct(p: PriceRange, q: PriceRange)
    ensures PriceLabel(p) == PriceLabel(q) <==> p == q
    ensures PriceLabel(DisplayPrice(None)) == "Moderate"
  {
  }

  // ---------------------------------------------------------------------
  // Tag styles

  /** The six outcomes of `getTagStyle`, in the order it tests them. */
  datatype TagCategory = CuisineTag | FoodTypeTag | ServiceTag | AmbianceTag | SpecialTag | DefaultTag {

    /** The colour of the category's badge. */
    function Colour(): (r: string)
      ensures |r| >= 4
    {
      match this
      case CuisineTag => "blue"
      case FoodTypeTag => "green"
      case ServiceTag => "purple"
      case AmbianceTag => "pink"
      case SpecialTag => "teal"
      case DefaultTag => "gray"
    }

    /** The class string returned for the category, e.g.
        "bg-blue-200 text-blue-900 border border-blue-300". */
    function ClassName(): string {
      var c := Colour();
      "bg-" + c + "-200 text-" + c + "-900 border border-" + c + "-300"
    }

    /** Position of the category's test in the chain. */
    function Rank(): nat {
      match this
      case CuisineTag => 0
      case FoodTypeTag => 1
      case ServiceTag => 2
      case AmbianceTag => 3
      case SpecialTag => 4
      case DefaultTag => 5
    }
  }

  /** `feature.toLowerCase().replace(/-/g, ' ')`. */
  function NormalizeFeature(feature: string): (r: string)
    ensures |r| == |feature|
    ensures '-' !in r && IsLowerCase(r)
  {
    LowerIsLowerCase(feature);
    ReplaceChar(Lower(feature), '-', ' ')
  }

  predicate MentionsCuisine(n: string) {
    Contains(n, "vietnamese") || Contains(n, "chinese") || Contains(n, "japanese")
    || Contains(n, "korean") || Contains(n, "thai") || Contains(n, "american")
    || Contains(n, "italian") || Contains(n, "french") || Contains(n, "mexican")
  }

  predicate MentionsFoodType(n: string) {
    Contains(n, "pizza") || Contains(n, "burger") || Contains(n, "seafood") || Contains(n, "bbq")
    || Contains(n, "grill") || Contains(n, "steak") || Contains(n, "sushi") || Contains(n, "ramen")
    || Contains(n, "pho") || Contains(n, "banh mi") || Contains(n, "wings")
  }

  predicate MentionsService(n: string) {
    Contains(n, "dine in") || Contains(n, "takeaway") || Contains(n, "delivery")
    || Contains(n, "reservation") || Contains(n, "breakfast")
  }

  predicate MentionsAmbiance(n: string) {
    Contains(n, "fine dining") || Contains(n, "casual") || Contains(n, "bistro")
    || Contains(n, "street food") || Contains(n, "rooftop") || Contains(n, "steakhouse")
    || Contains(n, "wine")
  }

  predicate MentionsSpecial(n: string) {
    Contains(n, "ny style") || Contains(n, "american style")
  }

  /** The if/return chain on the normalised text. */
  function Classify(n: string): TagCategory {
    if MentionsCuisine(n) then CuisineTag
    else if MentionsFoodType(n) then FoodTypeTag
    else if MentionsService(n) then ServiceTag
    else if MentionsAmbiance(n) then AmbianceTag
    else if MentionsSpecial(n) then SpecialTag
    else DefaultTag
  }

  /** `getTagStyle`. */
  function TagStyle(feature: string): string {
    Classify(NormalizeFeature(feature)).ClassName()
  }

  // ---------------------------------------------------------------------
  // Properties

  /** Whether the text passes the test of category `k` (the default
      passes always). */
  predicate Hits(n: string, k: TagCategory) {
    match k
    case CuisineTag => MentionsCuisine(n)
    case FoodTypeTag => MentionsFoodType(n)
    case ServiceTag => MentionsService(n)
    case AmbianceTag => MentionsAmbiance(n)
    case SpecialTag => MentionsSpecial(n)
    case DefaultTag => true
  }

  /** First match: the chosen category is the one whose test passes while
      every test before it fails. */
  lemma ClassifyFirstHit(n: string, k: TagCategory)
    ensures Classify(n) == k <==> Hits(n, k) && forall j: TagCategory :: j.Rank() < k.Rank() ==> !Hits(n, j)
  {
    if Hits(n, k) && forall j: TagCategory :: j.Rank() < k.Rank() ==> !Hits(n, j) {
      assert k.Rank() > 0 ==> !Hits(n, CuisineTag);
      assert k.Rank() > 1 ==> !Hits(n, FoodTypeTag);
      assert k.Rank() > 2 ==> !Hits(n, ServiceTag);
      assert k.Rank() > 3 ==> !Hits(n, AmbianceTag);
      assert k.Rank() > 4 ==> !Hits(n, SpecialTag);
    }
  }

  /** Every feature gets one of six distinct class strings. */
  lemma ClassNamesDistinct(a: TagCategory, b: TagCategory)
    ensures a.ClassName() == b.ClassName() <==> a == b
  {
    assert a.ClassName()[3] == a.Colour()[0] && a.ClassName()[5] == a.Colour()[2];
    assert b.ClassName()[3] == b.Colour()[0] && b.ClassName()[5] == b.Colour()[2];
  }

  /** A feature gets the gray default style exactly when its normalised
      text mentions no keyword of any group. */
  lemma DefaultStyleIffNoKeyword(feature: string)
    ensures var n := NormalizeFeature(feature);
      TagStyle(feature) == DefaultTag.ClassName() <==>
        !MentionsCuisine(n) && !MentionsFoodType(n) && !MentionsService(n)
        && !MentionsAmbiance(n) && !MentionsSpecial(n)
  {
    ClassNamesDistinct(Classify(NormalizeFeature(feature)), DefaultTag);
  }

  /** The style ignores ASCII case and treats '-' like a space. */
  lemma TagStyleNormalised(a: string, b: string)
    requires |a| == |b|
    requires forall i :: 0 <= i < |a| ==> LowerChar(a[i]) == LowerChar(b[i])
                                          || (a[i] in " -" && b[i] in " -")
    ensures TagStyle(a) == TagStyle(b)
  {
    var na := NormalizeFeature(a);
    var nb := NormalizeFeature(b);
    forall i | 0 <= i < |a| ensures na[i] == nb[i] {
      CaseCharFacts(a[i]);
      CaseCharFacts(b[i]);
    }
    assert na == nb;
  }

  /** A text mentioning 'american' always gets the cuisine style, so the
      special test is passed only through 'ny style'. */
  lemma SpecialOnlyByNyStyle(n: string)
    ensures Classify(n) == SpecialTag ==> Contains(n, "ny style")
    ensures Contains(n, "american style") ==> Classify(n) == CuisineTag
  {
    if Contains(n, "american style") {
      assert StartsWith("american style", "american");
      StartsWithContains("american style", "american");
      ContainsTransitive(n, "american style", "american");
    }
  }

  /** A text mentioning 'steakhouse' mentions 'steak', so it never gets the
      ambiance style. */
  lemma SteakhouseNotAmbiance(n: string)
    requires Contains(n, "steakhouse")
    ensures Classify(n) == CuisineTag || Classify(n) == FoodTypeTag
  {
    assert StartsWith("steakhouse", "steak");
    StartsWithContains("steakhouse", "steak");
    ContainsTransitive(n, "steakhouse", "steak");
  }

  /** 'Dine-in' normalises to 'dine in' and gets the service style. */
  lemma DineInIsService()
    ensures NormalizeFeature("Dine-in") == "dine in"
    ensures TagStyle("Dine-in") == ServiceTag.ClassName()
  {
    NormalizeLiteral("Dine-in", "dine in");
    DineInClassified();
  }

  /** The normalised text is computed character by character. */
  lemma NormalizeLiteral(feature: string, n: string)
    requires |feature| == |n|
    requires forall i :: 0 <= i < |n| ==> n[i] == (if LowerChar(feature[i]) == '-' then ' ' else LowerChar(feature[i]))
    ensures NormalizeFeature(feature) == n
  {
    assert forall i :: 0 <= i < |n| ==> Lower(feature)[i] == LowerChar(feature[i]);
  }

  lemma DineInClassified()
    ensures Classify("dine in") == ServiceTag
  {
    NotCuisine("dine in", ['v', 'c', 'j', 'k', 't', 'a', 't', 'f', 'm']);
    DineInNotFoodType();
    ContainsSelf("dine in");
  }

  /** No keyword of `keys` occurs in `n` when each has a character, given
      at the same position of `missing`, that `n` lacks. */
  lemma NoKeywordOccurs(n: string, keys: seq<string>, missing: seq<char>)
    requires |missing| == |keys|
    requires forall i :: 0 <= i < |keys| ==> missing[i] in keys[i] && missing[i] !in n
    ensures forall i :: 0 <= i < |keys| ==> !Contains(n, keys[i])
  {
    forall i | 0 <= i < |keys| ensures !Contains(n, keys[i]) {
      NotContainsByChar(n, keys[i], missing[i]);
    }
  }

  /** No cuisine test passes on a text that lacks, for each cuisine
      keyword in turn, the character at the same position of `missing`;
      'dine in' and 'steakhouse' are two such texts. */
  lemma NotCuisine(n: string, missing: seq<char>)
    requires |missing| == 9
    requires forall i :: 0 <= i < 9 ==> missing[i] !in n
    requires missing[0] in "vietnamese" && missing[1] in "chinese" && missing[2] in "japanese"
    requires missing[3] in "korean" && missing[4] in "thai" && missing[5] in "american"
    requires missing[6] in "italian" && missing[7] in "french" && missing[8] in "mexican"
    ensures !MentionsCuisine(n)
  {
    var keys := ["vietnamese", "chinese", "japanese", "korean", "thai", "american", "italian", "french", "mexican"];
    assert keys[0] == "vietnamese" && keys[1] == "chinese" && keys[2] == "japanese";
    assert keys[3] == "korean" && keys[4] == "thai" && keys[5] == "american";
    assert keys[6] == "italian" && keys[7] == "french" && keys[8] == "mexican";
    NoKeywordOccurs(n, keys, missing);
    assert !Contains(n, keys[0]) && !Contains(n, keys[1]) && !Contains(n, keys[2]);
    assert !Contains(n, keys[3]) && !Contains(n, keys[4]) && !Contains(n, keys[5]);
    assert !Contains(n, keys[6]) && !Contains(n, keys[7]) && !Contains(n, keys[8]);
  }

  /** Each food-type keyword has a character that 'dine in' lacks. */
  lemma DineInNotFoodType()
    ensures !MentionsFoodType("dine in")
  {
    var keys := ["pizza", "burger", "seafood", "bbq", "grill", "steak", "sushi", "ramen", "pho", "banh mi", "wings"];
    NoKeywordOccurs("dine in", keys, ['p', 'b', 's', 'b', 'g', 's', 's', 'r', 'p', 'b', 'w']);
    assert !Contains("dine in", keys[0]) && !Contains("dine in", keys[1]) && !Contains("dine in", keys[2]);
    assert !Contains("dine in", keys[3]) && !Contains("dine in", keys[4]) && !Contains("dine in", keys[5]);
    assert !Contains("dine in", keys[6]) && !Contains("dine in", keys[7]) && !Contains("dine in", keys[8]);
    assert !Contains("dine in", keys[9]) && !Contains("dine in", keys[10]);
  }

  /** 'Steakhouse' gets the food-type style, not the ambiance one. */
  lemma SteakhouseIsFoodType()
    ensures TagStyle("Steakhouse") == FoodTypeTag.ClassName()
  {
    NormalizeLiteral("Steakhouse", "steakhouse");
    SteakhouseClassified();
  }

  lemma SteakhouseClassified()
    ensures Classify("steakhouse") == FoodTypeTag
  {
    NotCuisine("steakhouse", ['v', 'c', 'j', 'r', 'i', 'm', 'i', 'f', 'm']);
    ContainsSelf("steakhouse");
    SteakhouseNotAmbiance("steakhouse");
  }

  /** 'American Style' gets the cuisine style, not the special one. */
  lemma AmericanStyleIsCuisine()
    ensures TagStyle("American Style") == CuisineTag.ClassName()
  {
    NormalizeLiteral("American Style", "american style");
    ContainsSelf("american style");
    SpecialOnlyByNyStyle("american style");
  }
}
