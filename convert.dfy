/** The store's conversion of a community submission into a `Location`
    (`convertSubmissionToLocation` with its helpers `normalizeCuisine` and
    `generateFeatures`). */
module Conversion {
  import opened Wrappers
  import opened Text
  import opened Seqs
  import opened Locations

  // ---------------------------------------------------------------------
  // Submissions

  /** A Firestore timestamp. */
  datatype Timestamp = Timestamp(seconds: int, nanoseconds: int)

  datatype PlaceData = PlaceData(
    name: string,
    address: string,
    phone: Option<string>,
    website: Option<string>,
    district: Option<string>,
    googleMapsUrl: Option<string>)

  datatype UserInput = UserInput(
    submitterName: string,
    category: string,
    cuisine: Option<string>,
    comments: Option<string>,
    cuisines: Option<seq<string>>)

  /** A submission document. `createdAt` may be missing (the source reads it
      with `?.`); `votes`/`votedBy` are the untyped fields the converter
      reads through `as any`. */
  datatype Submission = Submission(
    id: string,
    placeData: PlaceData,
    userInput: UserInput,
    status: string,
    createdAt: Option<Timestamp>,
    votes: Option<int>,
    votedBy: Option<seq<string>>)

  // ---------------------------------------------------------------------
  // Cuisine normalisation

  /** `normalizeCuisine`: absent or empty gives no cuisine, anything else is
      capitalised (first character upper-cased, the rest lower-cased). */
  function NormalizeCuisine(o: Option<string>): (r: Option<string>)
    ensures r.Some? <==> Truthy(o)
    ensures r.Some? ==> |r.value| == |o.value| && !IsLowerAscii(r.value[0])
    ensures r.Some? ==> Lower(r.value) == Lower(o.value)
    ensures r.Some? ==> r.value[0] == UpperChar(o.value[0])
    ensures r.Some? ==> forall i :: 0 < i < |r.value| ==> r.value[i] == LowerChar(o.value[i])
  {
    if !Truthy(o) then None
    else
      var w := o.value;
      assert forall i :: 0 < i < |w| ==> Capitalize(w)[i] == LowerChar(w[i]) by {
        forall i | 0 < i < |w| ensures Capitalize(w)[i] == LowerChar(w[i]) {
          assert Capitalize(w)[i] == Capitalize(w)[1..][i - 1];
        }
      }
      assert Lower(Capitalize(w)) == Lower(w) by {
        forall i | 0 <= i < |w| ensures Lower(Capitalize(w))[i] == Lower(w)[i] {
          CaseCharFacts(w[i]);
        }
      }
      Some(Capitalize(w))
  }

  /** Only the first letter stays capital: 'VIETNAMESE' becomes
      'Vietnamese', so no converted cuisine is all capitals. */
  lemma NormalizeCuisineExample()
    ensures NormalizeCuisine(Some("VIETNAMESE")) == Some("Vietnamese")
  {
    var w := "VIETNAMESE";
    var r := NormalizeCuisine(Some(w)).value;
    assert |r| == 10;
    forall i | 0 <= i < 10 ensures r[i] == "Vietnamese"[i] {
      assert i > 0 ==> r[i] == LowerChar(w[i]);
    }
    assert r == "Vietnamese";
  }

  /** `cuisines?.[0] || cuisine`. */
  function PrimaryCuisine(input: UserInput): Option<string> {
    if input.cuisines.Some? && |input.cuisines.value| > 0 && input.cuisines.value[0] != ""
    then Some(input.cuisines.value[0])
    else input.cuisine
  }

  // ---------------------------------------------------------------------
  // Feature generation

  /** `features.push(tag)` when the test `hit` succeeds. */
  function Push(s: seq<string>, hit: bool, tag: string): seq<string> {
    if hit then s + [tag] else s
  }

  predicate MentionsTakeaway(lc: string) {
    Contains(lc, "takeaway") || Contains(lc, "take away") || Contains(lc, "take-away")
  }

  predicate MentionsWifi(lc: string) {
    Contains(lc, "wifi") || Contains(lc, "wi-fi")
  }

  /** The list `s` after the keyword scan of the lower-cased comments `lc`,
      pushing in the order the source tests. */
  function PushKeywordTags(s: seq<string>, lc: string): seq<string> {
    var s1 := Push(s, Contains(lc, "delivery"), "Delivery");
    var s2 := Push(s1, MentionsTakeaway(lc), "Takeaway");
    var s3 := Push(s2, Contains(lc, "breakfast"), "Breakfast");
    var s4 := Push(s3, Contains(lc, "lunch"), "Lunch");
    var s5 := Push(s4, Contains(lc, "dinner"), "Dinner");
    var s6 := Push(s5, MentionsWifi(lc), "WiFi");
    var s7 := Push(s6, Contains(lc, "parking"), "Parking");
    Push(s7, Contains(lc, "reservation"), "Reservation")
  }

  // ---------------------------------------------------------------------
  // The keyword scan as a table

  /** One keyword test of `generateFeatures`: the tag pushed when the
      lower-cased comments contain any of the keywords. */
  datatype KeywordRule = KeywordRule(keywords: seq<string>, tag: string)

  /** The keyword tests, in the order `generateFeatures` makes them. */
  function KeywordRules(): (r: seq<KeywordRule>)
    ensures |r| == 8
  {
    [ KeywordRule(["delivery"], "Delivery"),
      KeywordRule(["takeaway", "take away", "take-away"], "Takeaway"),
      KeywordRule(["breakfast"], "Breakfast"),
      KeywordRule(["lunch"], "Lunch"),
      KeywordRule(["dinner"], "Dinner"),
      KeywordRule(["wifi", "wi-fi"], "WiFi"),
      KeywordRule(["parking"], "Parking"),
      KeywordRule(["reservation"], "Reservation") ]
  }

  /** `lc` contains at least one of the keywords. */
  predicate MentionsAny(lc: string, keywords: seq<string>) {
    exists i :: 0 <= i < |keywords| && Contains(lc, keywords[i])
  }

  /** The tags of the rules whose keywords `lc` mentions, in rule order. */
  function RuleTags(rules: seq<KeywordRule>, lc: string): (r: seq<string>)
    ensures |r| <= |rules|
  {
    if rules == [] then []
    else
      var init := RuleTags(rules[..|rules| - 1], lc);
      var last := rules[|rules| - 1];
      if MentionsAny(lc, last.keywords) then init + [last.tag] else init
  }

  /** A tag is produced exactly when some rule carrying it is mentioned. */
  lemma {:induction false} RuleTagsMembership(rules: seq<KeywordRule>, lc: string, x: string)
    ensures x in RuleTags(rules, lc) <==>
      exists k :: 0 <= k < |rules| && rules[k].tag == x && MentionsAny(lc, rules[k].keywords)
  {
    if rules != [] {
      var n := |rules| - 1;
      var init := rules[..n];
      RuleTagsMembership(init, lc, x);
      if exists k :: 0 <= k < |rules| && rules[k].tag == x && MentionsAny(lc, rules[k].keywords) {
        var k :| 0 <= k < |rules| && rules[k].tag == x && MentionsAny(lc, rules[k].keywords);
        if k < n {
          assert init[k] == rules[k];
        }
      }
      if x in RuleTags(init, lc) {
        var k :| 0 <= k < |init| && init[k].tag == x && MentionsAny(lc, init[k].keywords);
        assert rules[k] == init[k];
      }
    }
  }

  lemma RuleTagsStep(rules: seq<KeywordRule>, k: nat, lc: string)
    requires k < |rules|
    ensures RuleTags(rules[..k + 1], lc) ==
      RuleTags(rules[..k], lc) + (if MentionsAny(lc, rules[k].keywords) then [rules[k].tag] else [])
  {
    assert rules[..k + 1][..k] == rules[..k];
  }

  lemma PushRuleStep(s: seq<string>, t: seq<string>, rules: seq<KeywordRule>, k: nat, lc: string, hit: bool, tag: string)
    requires k < |rules| && t == s + RuleTags(rules[..k], lc)
    requires hit == MentionsAny(lc, rules[k].keywords) && tag == rules[k].tag
    ensures Push(t, hit, tag) == s + RuleTags(rules[..k + 1], lc)
  {
    RuleTagsStep(rules, k, lc);
  }

  lemma MentionsOne(lc: string, a: string)
    ensures MentionsAny(lc, [a]) <==> Contains(lc, a)
  {
    if Contains(lc, a) { assert Contains(lc, [a][0]); }
  }

  lemma MentionsTwo(lc: string, a: string, b: string)
    ensures MentionsAny(lc, [a, b]) <==> Contains(lc, a) || Contains(lc, b)
  {
    if Contains(lc, a) { assert Contains(lc, [a, b][0]); }
    if Contains(lc, b) { assert Contains(lc, [a, b][1]); }
  }

  lemma MentionsThree(lc: string, a: string, b: string, c: string)
    ensures MentionsAny(lc, [a, b, c]) <==> Contains(lc, a) || Contains(lc, b) || Contains(lc, c)
  {
    if Contains(lc, a) { assert Contains(lc, [a, b, c][0]); }
    if Contains(lc, b) { assert Contains(lc, [a, b, c][1]); }
    if Contains(lc, c) { assert Contains(lc, [a, b, c][2]); }
  }

  /** The eight keyword tests append to the list exactly the tags of the
      rules the comments mention, in rule order. */
  lemma KeywordScanByRules(s: seq<string>, lc: string)
    ensures PushKeywordTags(s, lc) == s + RuleTags(KeywordRules(), lc)
  {
    ScanByRules(s, lc, KeywordRules());
  }

  /** KeywordScanByRules for any table with the same eight entries; kept
      apart so that the table literal is not unfolded inside `RuleTags`. */
  lemma ScanByRules(s: seq<string>, lc: string, R: seq<KeywordRule>)
    requires |R| == 8
    requires R[0] == KeywordRule(["delivery"], "Delivery")
    requires R[1] == KeywordRule(["takeaway", "take away", "take-away"], "Takeaway")
    requires R[2] == KeywordRule(["breakfast"], "Breakfast")
    requires R[3] == KeywordRule(["lunch"], "Lunch")
    requires R[4] == KeywordRule(["dinner"], "Dinner")
    requires R[5] == KeywordRule(["wifi", "wi-fi"], "WiFi")
    requires R[6] == KeywordRule(["parking"], "Parking")
    requires R[7] == KeywordRule(["reservation"], "Reservation")
    ensures PushKeywordTags(s, lc) == s + RuleTags(R, lc)
  {
    MentionsOne(lc, "delivery");
    MentionsThree(lc, "takeaway", "take away", "take-away");
    MentionsOne(lc, "breakfast");
    MentionsOne(lc, "lunch");
    MentionsOne(lc, "dinner");
    MentionsTwo(lc, "wifi", "wi-fi");
    MentionsOne(lc, "parking");
    MentionsOne(lc, "reservation");
    assert R[..0] == [];
    assert s == s + RuleTags(R[..0], lc);
    var s1 := Push(s, Contains(lc, "delivery"), "Delivery");
    PushRuleStep(s, s, R, 0, lc, Contains(lc, "delivery"), "Delivery");
    var s2 := Push(s1, MentionsTakeaway(lc), "Takeaway");
    PushRuleStep(s, s1, R, 1, lc, MentionsTakeaway(lc), "Takeaway");
    var s3 := Push(s2, Contains(lc, "breakfast"), "Breakfast");
    PushRuleStep(s, s2, R, 2, lc, Contains(lc, "breakfast"), "Breakfast");
    var s4 := Push(s3, Contains(lc, "lunch"), "Lunch");
    PushRuleStep(s, s3, R, 3, lc, Contains(lc, "lunch"), "Lunch");
    var s5 := Push(s4, Contains(lc, "dinner"), "Dinner");
    PushRuleStep(s, s4, R, 4, lc, Contains(lc, "dinner"), "Dinner");
    var s6 := Push(s5, MentionsWifi(lc), "WiFi");
    PushRuleStep(s, s5, R, 5, lc, MentionsWifi(lc), "WiFi");
    var s7 := Push(s6, Contains(lc, "parking"), "Parking");
    PushRuleStep(s, s6, R, 6, lc, Contains(lc, "parking"), "Parking");
    PushRuleStep(s, s7, R, 7, lc, Contains(lc, "reservation"), "Reservation");
    assert R[..8] == R;
  }

  /** The list `generateFeatures` has built before the keyword scan: the
      category unless it lower-cases to 'restaurant'; the whole `cuisines`
      array when present, otherwise the single non-empty cuisine; then
      'Dine-in'. */
  function BaseFeatures(input: UserInput): seq<string> {
    var s0 := if Lower(input.category) != "restaurant" then [input.category] else [];
    var s1 := if input.cuisines.Some? then s0 + input.cuisines.value
              else if Truthy(input.cuisine) then s0 + [input.cuisine.value]
              else s0;
    s1 + ["Dine-in"]
  }

  /** The list `generateFeatures` builds before deduplication: the base
      tags, then the keyword tags of non-empty comments. */
  function CandidateFeatures(input: UserInput): seq<string> {
    if Truthy(input.comments) then PushKeywordTags(BaseFeatures(input), Lower(input.comments.value))
    else BaseFeatures(input)
  }

  function MapTitleCase(s: seq<string>): (r: seq<string>)
    ensures |r| == |s|
    ensures forall i :: 0 <= i < |s| ==> r[i] == TitleCase(s[i])
  {
    if s == [] then [] else [TitleCase(s[0])] + MapTitleCase(s[1..])
  }

  /** The features of a converted submission: duplicates removed from the
      raw list, then every word title-cased. */
  function Features(input: UserInput): seq<string> {
    MapTitleCase(Dedup(CandidateFeatures(input)))
  }

  /** `generateFeatures`: pushes the tags one by one into a local array,
      then removes duplicates and title-cases. */
  method GenerateFeatures(sub: Submission) returns (features: seq<string>)
    ensures features == Features(sub.userInput)
  {
    var input := sub.userInput;
    features := [];
    if Lower(input.category) != "restaurant" {
      features := features + [input.category];
    }
    if input.cuisines.Some? {
      features := features + input.cuisines.value;
    } else if Truthy(input.cuisine) {
      features := features + [input.cuisine.value];
    }
    features := features + ["Dine-in"];
    assert features == BaseFeatures(input);
    if Truthy(input.comments) {
      KeywordScanByRules(features, Lower(input.comments.value));
      features := PushKeywordFeatures(features, Lower(input.comments.value));
    }
    assert features == CandidateFeatures(input);
    features := MapTitleCase(Dedup(features));
  }

  /** The keyword scan of `generateFeatures` over the lower-cased comments
      `c`: it appends the tags of the rules `c` mentions, in rule order. */
  method PushKeywordFeatures(init: seq<string>, c: string) returns (features: seq<string>)
    ensures features == init + RuleTags(KeywordRules(), c)
  {
    features := init;
    if Contains(c, "delivery") { features := features + ["Delivery"]; }
    if MentionsTakeaway(c) { features := features + ["Takeaway"]; }
    if Contains(c, "breakfast") { features := features + ["Breakfast"]; }
    if Contains(c, "lunch") { features := features + ["Lunch"]; }
    if Contains(c, "dinner") { features := features + ["Dinner"]; }
    if MentionsWifi(c) { features := features + ["WiFi"]; }
    if Contains(c, "parking") { features := features + ["Parking"]; }
    if Contains(c, "reservation") { features := features + ["Reservation"]; }
    assert features == PushKeywordTags(init, c);
    KeywordScanByRules(init, c);
  }

  // ---------------------------------------------------------------------
  // The converted record

  /** Milliseconds for `submittedAt`: the creation time when its seconds
      are non-zero, `now` otherwise. */
  function SubmittedAt(createdAt: Option<Timestamp>, now: int): int {
    if createdAt.Some? && createdAt.value.seconds != 0 then createdAt.value.seconds * 1000 else now
  }

  /** The record literal of `convertSubmissionToLocation`; `now` is the
      current time in milliseconds. */
  function Converted(sub: Submission, now: int): Location {
    var place := sub.placeData;
    var input := sub.userInput;
    Location(
      id := sub.id,
      name := OrElseStr(place.name, "Unnamed Location"),
      locType := Lower(input.category),
      cuisine := NormalizeCuisine(PrimaryCuisine(input)),
      fullAddress := OrElseStr(place.address, "Address not provided"),
      googleMapsUrl := OrElse(place.googleMapsUrl, ""),
      features := Features(input),
      priceRange := Medium,
      website := if Truthy(place.website) then Some(Website(place.website.value, "Visit Website")) else None,
      contact := if Truthy(place.phone)
                 then Some(Contact(place.phone, None, Some(KeepPhoneChars(place.phone.value))))
                 else None,
      description := if Truthy(input.comments) then input.comments else None,
      rating := None,
      submittedAt := Some(SubmittedAt(sub.createdAt, now)),
      suggestedBy := Some(OrElseStr(input.submitterName, "Anonymous")),
      votes := Some(sub.votes.GetOr(0)),
      votedBy := Some(sub.votedBy.GetOr([])))
  }

  /** `convertSubmissionToLocation`. */
  method ConvertSubmissionToLocation(sub: Submission, now: int) returns (loc: Location)
    ensures loc == Converted(sub, now)
  {
    var features := GenerateFeatures(sub);
    var place := sub.placeData;
    var input := sub.userInput;
    var website: Option<Website> := None;
    if Truthy(place.website) {
      website := Some(Website(place.website.value, "Visit Website"));
    }
    var contact: Option<Contact> := None;
    if Truthy(place.phone) {
      contact := Some(Contact(place.phone, None, Some(KeepPhoneChars(place.phone.value))));
    }
    loc := Location(
      id := sub.id,
      name := OrElseStr(place.name, "Unnamed Location"),
      locType := Lower(input.category),
      cuisine := NormalizeCuisine(PrimaryCuisine(input)),
      fullAddress := OrElseStr(place.address, "Address not provided"),
      googleMapsUrl := OrElse(place.googleMapsUrl, ""),
      features := features,
      priceRange := Medium,
      website := website,
      contact := contact,
      description := if Truthy(input.comments) then input.comments else None,
      rating := None,
      submittedAt := Some(SubmittedAt(sub.createdAt, now)),
      suggestedBy := Some(OrElseStr(input.submitterName, "Anonymous")),
      votes := Some(sub.votes.GetOr(0)),
      votedBy := Some(sub.votedBy.GetOr([])));
  }

  // ---------------------------------------------------------------------
  // Properties of the conversion

  /** The shape every converted record has: the place's name, address and
      the submitter's name, or 'Unnamed Location', 'Address not provided'
      and 'Anonymous' when those are empty; the lower-cased category as the
      type; medium price; a contact exactly when a phone was given, whose
      clickable form is the phone with all but digits and '+' removed; a
      website exactly when one was given, linking to the given URL; the
      comments as the description when they are non-empty, else none; a time stamp always; the votes, or 0, and
      the voters, or none, of the submission. */
  lemma ConvertedShape(sub: Submission, now: int)
    ensures var r := Converted(sub, now);
      var place := sub.placeData;
      var input := sub.userInput;
      && r.id == sub.id
      && (place.name == "" ==> r.name == "Unnamed Location")
      && (place.name != "" ==> r.name == place.name)
      && (place.address == "" ==> r.fullAddress == "Address not provided")
      && (place.address != "" ==> r.fullAddress == place.address)
      && (input.submitterName == "" ==> r.suggestedBy == Some("Anonymous"))
      && (input.submitterName != "" ==> r.suggestedBy == Some(input.submitterName))
      && r.name != "" && r.fullAddress != ""
      && r.suggestedBy.Some? && r.suggestedBy.value != ""
      && r.locType == Lower(input.category)
      && IsLowerCase(r.locType) && |r.locType| == |input.category|
      && r.priceRange == Medium
      && r.rating.None?
      && (place.googleMapsUrl.None? ==> r.googleMapsUrl == "")
      && (place.googleMapsUrl.Some? ==> r.googleMapsUrl == place.googleMapsUrl.value)
      && (r.contact.Some? <==> Truthy(place.phone))
      && (r.contact.Some? ==>
            && r.contact.value.phone == place.phone
            && r.contact.value.email.None?
            && r.contact.value.phoneClickable == Some(KeepPhoneChars(place.phone.value))
            && forall i :: 0 <= i < |r.contact.value.phoneClickable.value| ==>
                 IsPhoneChar(r.contact.value.phoneClickable.value[i]))
      && (r.website.Some? <==> Truthy(sub.placeData.website))
      && (r.website.Some? ==> r.website.value.url == place.website.value)
      && (r.website.Some? ==> r.website.value.caption == "Visit Website")
      && (Truthy(input.comments) ==> r.description == input.comments)
      && (!Truthy(input.comments) ==> r.description.None?)
      && (r.description.Some? ==> r.description.value != "")
      && r.submittedAt.Some?
      && (sub.votes.None? ==> r.votes == Some(0))
      && (sub.votes.Some? ==> r.votes == sub.votes)
      && (sub.votedBy.None? ==> r.votedBy == Some([]))
      && (sub.votedBy.Some? ==> r.votedBy == sub.votedBy)
  {
    LowerIsLowerCase(sub.userInput.category);
    if Truthy(sub.placeData.phone) {
      var k := KeepPhoneChars(sub.placeData.phone.value);
      assert forall i :: 0 <= i < |k| ==> k[i] in k;
    }
  }

  /** The converted time stamp: seconds times 1000 when the creation time
      has non-zero seconds, otherwise the current time. */
  lemma SubmittedAtFallback(sub: Submission, now: int)
    ensures sub.createdAt.None? || sub.createdAt.value.seconds == 0 ==>
      Converted(sub, now).submittedAt == Some(now)
    ensures sub.createdAt.Some? && sub.createdAt.value.seconds != 0 ==>
      Converted(sub, now).submittedAt == Some(sub.createdAt.value.seconds * 1000)
  {
  }

  /** A converted cuisine is never one of the `Cuisine` values: it is
      capitalised while they are all lower-case. */
  lemma ConvertedCuisineNeverEnum(sub: Submission, now: int, c: Cuisine)
    ensures Converted(sub, now).cuisine != Some(c.Value())
  {
    CuisineValueStartsLower(c);
  }

  /** The converted cuisine is `cuisines[0]` capitalised when that is a
      non-empty string, otherwise `cuisine` capitalised. */
  lemma ConvertedCuisineSource(sub: Submission, now: int)
    ensures var input := sub.userInput;
      var r := Converted(sub, now).cuisine;
      if input.cuisines.Some? && |input.cuisines.value| > 0 && input.cuisines.value[0] != ""
      then r == Some(Capitalize(input.cuisines.value[0]))
      else (r.Some? <==> Truthy(input.cuisine)) && (r.Some? ==> r.value == Capitalize(input.cuisine.value))
  {
  }

  /** A feature is the title case of some raw tag, and every raw tag
      appears title-cased. */
  lemma FeaturesFromCandidates(input: UserInput, f: string)
    ensures f in Features(input) <==> exists x :: x in CandidateFeatures(input) && TitleCase(x) == f
  {
    DedupTitleCaseMembership(CandidateFeatures(input), f);
  }

  lemma DedupTitleCaseMembership(c: seq<string>, f: string)
    ensures f in MapTitleCase(Dedup(c)) <==> exists x :: x in c && TitleCase(x) == f
  {
    var d := Dedup(c);
    var r := MapTitleCase(d);
    if f in r {
      var i :| 0 <= i < |r| && r[i] == f;
      assert d[i] in c;
    }
    if exists x :: x in c && TitleCase(x) == f {
      var x :| x in c && TitleCase(x) == f;
      assert x in d;
      var i :| 0 <= i < |d| && d[i] == x;
      assert r[i] == f;
    }
  }

  lemma DineInTitleCase()
    ensures TitleCase("Dine-in") == "Dine-in"
  {
    TitleCaseIsCaseFrom("Dine-in");
    forall i | 0 <= i < 7 ensures CaseFrom("Dine-in", true)[i] == "Dine-in"[i] {
      CaseFromAt("Dine-in", true, i);
    }
  }

  lemma PushKeeps(s: seq<string>, hit: bool, tag: string, x: string)
    requires x in s
    ensures x in Push(s, hit, tag)
  {
  }

  /** The keyword scan only appends: every base tag is still there. */
  lemma BaseInCandidates(input: UserInput, x: string)
    requires x in BaseFeatures(input)
    ensures x in CandidateFeatures(input)
  {
    if Truthy(input.comments) {
      var lc := Lower(input.comments.value);
      var s := BaseFeatures(input);
      var s1 := Push(s, Contains(lc, "delivery"), "Delivery");
      PushKeeps(s, Contains(lc, "delivery"), "Delivery", x);
      var s2 := Push(s1, MentionsTakeaway(lc), "Takeaway");
      PushKeeps(s1, MentionsTakeaway(lc), "Takeaway", x);
      var s3 := Push(s2, Contains(lc, "breakfast"), "Breakfast");
      PushKeeps(s2, Contains(lc, "breakfast"), "Breakfast", x);
      var s4 := Push(s3, Contains(lc, "lunch"), "Lunch");
      PushKeeps(s3, Contains(lc, "lunch"), "Lunch", x);
      var s5 := Push(s4, Contains(lc, "dinner"), "Dinner");
      PushKeeps(s4, Contains(lc, "dinner"), "Dinner", x);
      var s6 := Push(s5, MentionsWifi(lc), "WiFi");
      PushKeeps(s5, MentionsWifi(lc), "WiFi", x);
      var s7 := Push(s6, Contains(lc, "parking"), "Parking");
      PushKeeps(s6, Contains(lc, "parking"), "Parking", x);
      PushKeeps(s7, Contains(lc, "reservation"), "Reservation", x);
    }
  }

  /** 'Dine-in' is always among the features. */
  lemma DineInAlways(input: UserInput)
    ensures "Dine-in" in Features(input)
  {
    DineInTitleCase();
    var base := BaseFeatures(input);
    assert base[|base| - 1] == "Dine-in";
    BaseInCandidates(input, "Dine-in");
    FeaturesFromCandidates(input, "Dine-in");
  }

  /** Any category other than 'restaurant' (ignoring case) appears,
      title-cased, among the features. */
  lemma CategoryIsFeature(input: UserInput)
    requires Lower(input.category) != "restaurant"
    ensures TitleCase(input.category) in Features(input)
  {
    assert BaseFeatures(input)[0] == input.category;
    BaseInCandidates(input, input.category);
    FeaturesFromCandidates(input, TitleCase(input.category));
  }

  /** Every entry of `cuisines`, or else the single non-empty `cuisine`,
      appears title-cased among the features. */
  lemma CuisinesAreFeatures(input: UserInput, x: string)
    requires if input.cuisines.Some? then x in input.cuisines.value
             else Truthy(input.cuisine) && x == input.cuisine.value
    ensures TitleCase(x) in Features(input)
  {
    assert x in BaseFeatures(input);
    BaseInCandidates(input, x);
    FeaturesFromCandidates(input, TitleCase(x));
  }

  /** Title case never yields 'WiFi': the third character follows a
      non-space and is lower-cased. */
  lemma TitleCaseNeverWiFi(x: string)
    ensures TitleCase(x) != "WiFi"
  {
    TitleCaseIsCaseFrom(x);
    var t := CaseFrom(x, true);
    if t == "WiFi" {
      CaseFromAt(x, true, 1);
      CaseFromAt(x, true, 2);
    }
  }

  /** The 'WiFi' tag the keyword scan pushes can never survive title
      casing as written: it always comes out as 'Wifi'. */
  lemma NoCamelCaseWiFi(input: UserInput)
    ensures "WiFi" !in Features(input)
  {
    if "WiFi" in Features(input) {
      FeaturesFromCandidates(input, "WiFi");
      var x :| x in CandidateFeatures(input) && TitleCase(x) == "WiFi";
      TitleCaseNeverWiFi(x);
    }
  }

  lemma WiFiTitleCase()
    ensures TitleCase("WiFi") == "Wifi"
  {
    TitleCaseIsCaseFrom("WiFi");
    forall i | 0 <= i < 4 ensures CaseFrom("WiFi", true)[i] == "Wifi"[i] {
      CaseFromAt("WiFi", true, i);
    }
  }

  /** A comment mentioning 'wifi' or 'wi-fi' in any case gives the feature
      'Wifi'. */
  lemma WifiKeyword(input: UserInput)
    requires Truthy(input.comments) && MentionsWifi(Lower(input.comments.value))
    ensures "Wifi" in Features(input)
  {
    WiFiTitleCase();
    assert "WiFi" in CandidateFeatures(input);
    FeaturesFromCandidates(input, "Wifi");
  }

  /** A word without spaces that starts with a capital and has no other
      capital is its own title case. */
  lemma CapitalWordTitleCase(w: string)
    requires |w| > 0 && IsUpperAscii(w[0])
    requires forall i :: 0 < i < |w| ==> w[i] != ' ' && !IsUpperAscii(w[i])
    ensures TitleCase(w) == w
  {
    TitleCaseIsCaseFrom(w);
    forall i | 0 <= i < |w| ensures CaseFrom(w, true)[i] == w[i] {
      CaseFromAt(w, true, i);
    }
  }

  /** Title casing leaves every rule's tag alone except 'WiFi', which
      becomes 'Wifi'. */
  lemma RuleTagTitleCase(k: nat)
    requires k < |KeywordRules()|
    ensures TitleCase(KeywordRules()[k].tag) == if k == 5 then "Wifi" else KeywordRules()[k].tag
  {
    if k == 0 { CapitalWordTitleCase("Delivery"); }
    else if k == 1 { CapitalWordTitleCase("Takeaway"); }
    else if k == 2 { CapitalWordTitleCase("Breakfast"); }
    else if k == 3 { CapitalWordTitleCase("Lunch"); }
    else if k == 4 { CapitalWordTitleCase("Dinner"); }
    else if k == 5 { WiFiTitleCase(); }
    else if k == 6 { CapitalWordTitleCase("Parking"); }
    else { CapitalWordTitleCase("Reservation"); }
  }

  /** Comments mentioning, in any case, any keyword of a rule give that
      rule's tag, title-cased, among the features: 'Delivery', 'Takeaway',
      'Breakfast', 'Lunch', 'Dinner', 'Wifi', 'Parking', 'Reservation'. */
  lemma KeywordFeature(input: UserInput, k: nat)
    requires k < |KeywordRules()|
    requires Truthy(input.comments) && MentionsAny(Lower(input.comments.value), KeywordRules()[k].keywords)
    ensures TitleCase(KeywordRules()[k].tag) in Features(input)
    ensures (if k == 5 then "Wifi" else KeywordRules()[k].tag) in Features(input)
  {
    var lc := Lower(input.comments.value);
    var tag := KeywordRules()[k].tag;
    KeywordScanByRules(BaseFeatures(input), lc);
    RuleTagsMembership(KeywordRules(), lc, tag);
    assert tag in CandidateFeatures(input);
    FeaturesFromCandidates(input, TitleCase(tag));
    RuleTagTitleCase(k);
  }

  /** The features are exactly the title-cased base tags, together with
      the title-cased tags of the rules that non-empty comments mention. */
  lemma FeaturesByRules(input: UserInput, f: string)
    ensures f in Features(input) <==>
      (exists x :: x in BaseFeatures(input) && TitleCase(x) == f)
      || (Truthy(input.comments) &&
          exists k :: 0 <= k < |KeywordRules()| && TitleCase(KeywordRules()[k].tag) == f
            && MentionsAny(Lower(input.comments.value), KeywordRules()[k].keywords))
  {
    var base := BaseFeatures(input);
    FeaturesFromCandidates(input, f);
    if Truthy(input.comments) {
      var lc := Lower(input.comments.value);
      var R := KeywordRules();
      KeywordScanByRules(base, lc);
      assert CandidateFeatures(input) == base + RuleTags(R, lc);
      if f in Features(input) {
        var x :| x in CandidateFeatures(input) && TitleCase(x) == f;
        if x !in base {
          RuleTagsMembership(R, lc, x);
        }
      }
      if exists k :: 0 <= k < |R| && TitleCase(R[k].tag) == f && MentionsAny(lc, R[k].keywords) {
        var k :| 0 <= k < |R| && TitleCase(R[k].tag) == f && MentionsAny(lc, R[k].keywords);
        KeywordFeature(input, k);
      }
    }
  }

  /** Deduplication runs before title casing, so tags differing only in
      case both survive: a cuisine 'dine-in' next to the default 'Dine-in'
      gives 'Dine-in' twice. */
  lemma CaseVariantsBothSurvive()
    ensures Features(UserInput("", "restaurant", None, None, Some(["dine-in"]))) == ["Dine-in", "Dine-in"]
  {
    var raw := ["dine-in", "Dine-in"];
    CaseVariantsCandidates();
    assert Dedup(raw) == raw by {
      assert raw[0] != raw[1];
      DedupOfDistinct(raw);
    }
    CaseVariantsTitleCase();
  }

  lemma CaseVariantsCandidates()
    ensures CandidateFeatures(UserInput("", "restaurant", None, None, Some(["dine-in"]))) == ["dine-in", "Dine-in"]
  {
    var input := UserInput("", "restaurant", None, None, Some(["dine-in"]));
    assert Lower("restaurant") == "restaurant";
    assert BaseFeatures(input) == ["dine-in", "Dine-in"];
  }

  lemma CaseVariantsTitleCase()
    ensures MapTitleCase(["dine-in", "Dine-in"]) == ["Dine-in", "Dine-in"]
  {
    DineInTitleCase();
    LowerDineInTitleCase();
  }

  lemma LowerDineInTitleCase()
    ensures TitleCase("dine-in") == "Dine-in"
  {
    TitleCaseIsCaseFrom("dine-in");
    forall i | 0 <= i < 7 ensures CaseFrom("dine-in", true)[i] == "Dine-in"[i] {
      CaseFromAt("dine-in", true, i);
    }
  }
}
