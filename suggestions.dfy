/** The second converter, `addApprovedSuggestionToLocations`: the record it
    builds from an approved suggestion before writing it to the locations
    collection. It differs from the store's converter: no title-casing, no
    keyword tags, a 'restaurant' default type and the raw timestamp. */
module Suggestions {
  import opened Wrappers
  import opened Text
  import opened Locations
  import opened Conversion

  /** The object `locationData`. Fields the source adds by a conditional
      spread are `None` when the spread adds nothing; `submittedAt` is the
      submission's timestamp object itself, or null. */
  datatype LocationData = LocationData(
    id: string,
    name: string,
    locType: string,
    cuisine: Option<string>,
    fullAddress: string,
    googleMapsUrl: string,
    features: seq<string>,
    priceRange: PriceRange,
    contact: Option<Contact>,
    website: Option<Website>,
    description: Option<string>,
    submittedAt: Option<Timestamp>,
    suggestedBy: string,
    votes: int,
    votedBy: seq<string>)

  /** `cuisine ? [cuisine, 'Dine-in'] : ['Dine-in']`. */
  function SuggestionFeatures(cuisine: Option<string>): (r: seq<string>)
    ensures 1 <= |r| <= 2 && r[|r| - 1] == "Dine-in"
    ensures |r| == 2 <==> Truthy(cuisine)
    ensures |r| == 2 ==> r[0] == cuisine.value
  {
    if Truthy(cuisine) then [cuisine.value, "Dine-in"] else ["Dine-in"]
  }

  /** `category?.toLowerCase() || 'restaurant'` (a missing category is the
      empty string here; both are falsy). */
  function SuggestionType(category: string): (r: string)
    ensures IsLowerCase(r) && r != ""
    ensures category != "" ==> r == Lower(category)
    ensures category == "" ==> r == "restaurant"
  {
    LowerIsLowerCase(category);
    OrElseStr(Lower(category), "restaurant")
  }

  /** The record built from the suggestion document `docId` with data `sub`:
      the document id, the lower-cased category or 'restaurant', the cuisine
      as given and no cuisine when it is empty, the cuisine and 'Dine-in' as
      features, medium price and no votes. */
  function SuggestionToLocation(docId: string, sub: Submission): (r: LocationData)
    ensures r.id == docId
    ensures r.priceRange == Medium && r.votes == 0 && r.votedBy == []
    ensures r.contact.Some? <==> Truthy(sub.placeData.phone)
    ensures r.website.Some? <==> Truthy(sub.placeData.website)
    ensures r.description.Some? <==> Truthy(sub.userInput.comments)
    ensures r.cuisine.Some? <==> Truthy(sub.userInput.cuisine)
    ensures Truthy(sub.userInput.cuisine) ==> r.cuisine == sub.userInput.cuisine
    ensures r.locType == SuggestionType(sub.userInput.category)
    ensures sub.userInput.category != "" ==> r.locType == Lower(sub.userInput.category)
    ensures sub.userInput.category == "" ==> r.locType == "restaurant"
    ensures r.features == SuggestionFeatures(sub.userInput.cuisine)
    ensures Truthy(sub.userInput.cuisine) ==> r.features == [sub.userInput.cuisine.value, "Dine-in"]
    ensures !Truthy(sub.userInput.cuisine) ==> r.features == ["Dine-in"]
  {
    var place := sub.placeData;
    var input := sub.userInput;
    LocationData(
      id := docId,
      name := OrElseStr(place.name, ""),
      locType := SuggestionType(input.category),
      cuisine := if Truthy(input.cuisine) then input.cuisine else None,
      fullAddress := OrElseStr(place.address, ""),
      googleMapsUrl := OrElse(place.googleMapsUrl, ""),
      features := SuggestionFeatures(input.cuisine),
      priceRange := Medium,
      contact := if Truthy(place.phone)
                 then Some(Contact(place.phone, None, Some(KeepPhoneChars(place.phone.value))))
                 else None,
      website := if Truthy(place.website) then Some(Website(place.website.value, "Visit Website")) else None,
      description := if Truthy(input.comments) then input.comments else None,
      submittedAt := sub.createdAt,
      suggestedBy := OrElseStr(input.submitterName, "Anonymous"),
      votes := 0,
      votedBy := [])
  }

  /** The contact keeps the raw phone and its clickable form, which is the
      phone with every character but digits and '+' removed: it holds only
      such characters, every one of the phone's, and is left alone by a
      second cleaning. */
  lemma SuggestionContact(docId: string, sub: Submission)
    requires Truthy(sub.placeData.phone)
    ensures var c := SuggestionToLocation(docId, sub).contact.value;
      && c.phone == sub.placeData.phone
      && c.email.None?
      && c.phoneClickable == Some(KeepPhoneChars(sub.placeData.phone.value))
      && (forall ch :: ch in c.phoneClickable.value <==> ch in sub.placeData.phone.value && IsPhoneChar(ch))
      && KeepPhoneChars(c.phoneClickable.value) == c.phoneClickable.value
  {
    KeepPhoneCharsIdempotent(sub.placeData.phone.value);
  }

  /** Missing fields take their defaults, present ones are copied. */
  lemma SuggestionDefaults(docId: string, sub: Submission)
    ensures var r := SuggestionToLocation(docId, sub);
      && r.name == sub.placeData.name
      && r.fullAddress == sub.placeData.address
      && (Truthy(sub.placeData.googleMapsUrl) ==> r.googleMapsUrl == sub.placeData.googleMapsUrl.value)
      && (!Truthy(sub.placeData.googleMapsUrl) ==> r.googleMapsUrl == "")
      && r.suggestedBy == (if sub.userInput.submitterName == "" then "Anonymous" else sub.userInput.submitterName)
      && r.submittedAt == sub.createdAt
      && (r.website.Some? ==> r.website.value == Website(sub.placeData.website.value, "Visit Website"))
      && (r.description.Some? ==> r.description == sub.userInput.comments)
  {
  }

  /** The type is 'restaurant' exactly when the category is missing or
      lower-cases to 'restaurant'; it is never checked against the enum. */
  lemma SuggestionTypeRestaurant(category: string)
    ensures SuggestionType(category) == "restaurant" <==> category == "" || Lower(category) == "restaurant"
  {
  }

  /** Unlike the store's converter, the features are not title-cased: a
      lower-case cuisine stays lower-case. */
  lemma SuggestionFeaturesKeepCase()
    ensures SuggestionFeatures(Some("vietnamese")) == ["vietnamese", "Dine-in"]
    ensures TitleCase("vietnamese") != "vietnamese"
  {
    CaseFromAt("vietnamese", true, 0);
    TitleCaseIsCaseFrom("vietnamese");
  }
}
