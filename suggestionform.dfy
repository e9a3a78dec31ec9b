/** The suggestion form (`SuggestionForm`): choosing a place from the
    autocomplete list fills in its details (or a fallback built from the
    suggestion when the details lookup fails), and submitting checks that a
    place and a category are chosen, writes one pending suggestion and
    clears the form. The details lookup and the database write are
    outcomes passed in. */
module SuggestionForm {
  import opened Wrappers
  import opened Text
  import opened Locations

  /** The fields of the Places `PlaceDetails` the form reads. */
  datatype PlaceDetails = PlaceDetails(
    name: Option<string>,
    formattedAddress: Option<string>,
    formattedPhone: Option<string>,
    website: Option<string>,
    url: Option<string>,
    placeId: Option<string>)

  /** An autocomplete entry: its display text and its place id. */
  datatype PlaceSuggestion = PlaceSuggestion(description: string, placeId: string)

  datatype ToastKind = Success | Failure
  datatype Toast = Toast(message: string, kind: ToastKind)

  /** `suggestionData.placeData`. */
  datatype PayloadPlace = PayloadPlace(
    name: string, address: string, phone: string, website: string, googleMapsUrl: string, placeId: string)

  /** `suggestionData` without its two server timestamps. */
  datatype SuggestionPayload = SuggestionPayload(
    placeData: PayloadPlace,
    category: string,
    cuisine: Option<string>,
    comments: string,
    status: string)

  /** The form's state hooks that submit reads or resets, the last toast,
      and the documents written to the suggestions collection. `category`
      and `cuisine` hold an enum value chosen in a select, or '' when
      unset, as in the source. */
  datatype FormState = FormState(
    inputValue: string,
    place: Option<PlaceDetails>,
    category: string,
    cuisine: string,
    comments: string,
    toast: Option<Toast>,
    written: seq<SuggestionPayload>)

  const EmptyForm := FormState("", None, "", "", "", None, [])

  // ---------------------------------------------------------------------
  // Choosing a place

  /** `https://www.google.com/maps/place/?q=place_id:<id>`. */
  function PlaceUrl(placeId: string): (r: string)
    ensures StartsWith(r, "https://www.google.com/maps/place/?q=place_id:")
    ensures |r| == 46 + |placeId| && r[46..] == placeId
  {
    "https://www.google.com/maps/place/?q=place_id:" + placeId
  }

  /** `simplifiedPlace` when the details lookup returned `details`, and
      `basicPlace` when it failed (`None`). */
  function SelectedPlace(sugg: PlaceSuggestion, details: Option<PlaceDetails>): (p: PlaceDetails)
    ensures p.name.Some? && p.formattedAddress.Some? && p.formattedPhone.Some?
    ensures p.website.Some? && p.url.Some? && p.placeId == Some(sugg.placeId)
    ensures details.None? ==>
      p.name.value == sugg.description && p.formattedAddress.value == sugg.description
      && p.formattedPhone.value == "" && p.website.value == "" && p.url.value == PlaceUrl(sugg.placeId)
    ensures details.Some? ==>
      && p.name.value == OrElse(details.value.name, sugg.description)
      && p.formattedAddress.value == OrElse(details.value.formattedAddress, sugg.description)
      && p.formattedPhone.value == OrElse(details.value.formattedPhone, "")
      && p.website.value == OrElse(details.value.website, "")
      && p.url.value == OrElse(details.value.url, PlaceUrl(sugg.placeId))
  {
    match details
    case None =>
      PlaceDetails(Some(sugg.description), Some(sugg.description), Some(""), Some(""),
                   Some(PlaceUrl(sugg.placeId)), Some(sugg.placeId))
    case Some(d) =>
      PlaceDetails(
        Some(OrElse(d.name, sugg.description)),
        Some(OrElse(d.formattedAddress, sugg.description)),
        Some(OrElse(d.formattedPhone, "")),
        Some(OrElse(d.website, "")),
        Some(OrElse(d.url, PlaceUrl(sugg.placeId))),
        Some(sugg.placeId))
  }

  function SelectToast(details: Option<PlaceDetails>): Toast {
    if details.Some? then Toast("Location details loaded successfully", Success)
    else Toast("Some location details could not be loaded, but you can still submit the suggestion.", Failure)
  }

  /** `handleSelect`: the input shows the suggestion, the place is set. */
  function Selected(s: FormState, sugg: PlaceSuggestion, details: Option<PlaceDetails>): FormState {
    s.(inputValue := sugg.description, place := Some(SelectedPlace(sugg, details)),
       toast := Some(SelectToast(details)))
  }

  // ---------------------------------------------------------------------
  // Submitting

  /** `suggestionData.placeData`: every missing place field becomes ''. */
  function PayloadPlaceOf(place: PlaceDetails): PayloadPlace {
    PayloadPlace(
      OrElse(place.name, ""),
      OrElse(place.formattedAddress, ""),
      OrElse(place.formattedPhone, ""),
      OrElse(place.website, ""),
      OrElse(place.url, ""),
      OrElse(place.placeId, ""))
  }

  /** `suggestionData`: missing place fields become '', an unset cuisine
      becomes null, the comments are trimmed, the status is 'pending'. */
  function Payload(place: PlaceDetails, category: string, cuisine: string, comments: string): (r: SuggestionPayload)
    ensures r.status == "pending"
  {
    SuggestionPayload(
      PayloadPlaceOf(place),
      category,
      if cuisine != "" then Some(cuisine) else None,
      Trim(comments),
      "pending")
  }

  /** The category is sent as chosen, an unset cuisine as null; the comments
      sent are the trimmed comments, so trimming them again changes nothing
      and comments already trimmed are sent as they are. */
  lemma PayloadFields(place: PlaceDetails, category: string, cuisine: string, comments: string)
    ensures var r := Payload(place, category, cuisine, comments);
      && r.category == category
      && (r.cuisine.None? <==> cuisine == "")
      && (r.cuisine.Some? ==> r.cuisine.value == cuisine)
      && r.comments == Trim(comments)
      && Trim(r.comments) == r.comments
      && (Trim(comments) == comments ==> r.comments == comments)
  {
    TrimIdempotent(comments);
  }

  const NoPlaceMessage := "Please select a location from the suggestions"
  const NoCategoryMessage := "Please select a category"
  const ThanksMessage := "Thank you for your suggestion! We will review it shortly."
  const SubmitErrorMessage := "Error submitting suggestion. Please try again."

  /** `handleSubmit`, with `addSucceeds` the outcome of `addDoc`. */
  function Submitted(s: FormState, addSucceeds: bool): FormState {
    if s.place.None? then s.(toast := Some(Toast(NoPlaceMessage, Failure)))
    else if s.category == "" then s.(toast := Some(Toast(NoCategoryMessage, Failure)))
    else if !addSucceeds then s.(toast := Some(Toast(SubmitErrorMessage, Failure)))
    else
      var p := Payload(s.place.value, s.category, s.cuisine, s.comments);
      FormState("", None, "", "", "", Some(Toast(ThanksMessage, Success)), s.written + [p])
  }

  // ---------------------------------------------------------------------
  // Properties

  /** Without a place, submit only reports it, whether or not a category
      is chosen: the place is checked first and nothing is written. */
  lemma NoPlaceNoWrite(s: FormState, addSucceeds: bool)
    requires s.place.None?
    ensures Submitted(s, addSucceeds) == s.(toast := Some(Toast(NoPlaceMessage, Failure)))
    ensures Submitted(s, addSucceeds).written == s.written
  {
  }

  /** A place without a category: reported, nothing written. */
  lemma NoCategoryNoWrite(s: FormState, addSucceeds: bool)
    requires s.place.Some? && s.category == ""
    ensures Submitted(s, addSucceeds) == s.(toast := Some(Toast(NoCategoryMessage, Failure)))
  {
  }

  /** A successful submit writes exactly one document and clears every
      field; a failed write keeps the form as it was. */
  lemma SubmitOutcome(s: FormState, addSucceeds: bool)
    requires s.place.Some? && s.category != ""
    ensures var r := Submitted(s, addSucceeds);
      && (addSucceeds ==>
            && r.written == s.written + [Payload(s.place.value, s.category, s.cuisine, s.comments)]
            && r == EmptyForm.(toast := r.toast, written := r.written))
      && (!addSucceeds ==> r == s.(toast := Some(Toast(SubmitErrorMessage, Failure))))
  {
  }

  /** Comments made only of whitespace are submitted as ''. */
  lemma BlankCommentsBecomeEmpty(comments: string)
    requires AllWhitespace(comments)
    ensures Trim(comments) == ""
  {
  }

  /** A place chosen from the list is submitted with all its fields as
      chosen, a non-empty map link and the suggestion's place id. */
  lemma SelectedPlacePayload(sugg: PlaceSuggestion, details: Option<PlaceDetails>)
    ensures var p := SelectedPlace(sugg, details);
      var d := PayloadPlaceOf(p);
      && d.name == p.name.value && d.address == p.formattedAddress.value
      && d.phone == p.formattedPhone.value && d.website == p.website.value
      && d.googleMapsUrl == p.url.value && d.googleMapsUrl != ""
      && d.placeId == sugg.placeId
  {
  }

  /** Selecting then submitting with a category writes a pending
      suggestion for that place and resets the form. */
  lemma SelectThenSubmit(s: FormState, sugg: PlaceSuggestion, details: Option<PlaceDetails>)
    requires s.category != ""
    ensures var r := Submitted(Selected(s, sugg, details), true);
      && |r.written| == |s.written| + 1
      && r.written[|s.written|].status == "pending"
      && r.written[|s.written|].placeData.placeId == sugg.placeId
      && r.inputValue == "" && r.place.None? && r.category == ""
  {
    var t := Selected(s, sugg, details);
    SubmitOutcome(t, true);
    SelectedPlacePayload(sugg, details);
  }

  // ---------------------------------------------------------------------
  // The component

  class SuggestionFormComponent {
    var inputValue: string
    var place: Option<PlaceDetails>
    var category: string
    var cuisine: string
    var comments: string
    var toast: Option<Toast>
    var written: seq<SuggestionPayload>

    function State(): FormState
      reads this
    {
      FormState(inputValue, place, category, cuisine, comments, toast, written)
    }

    constructor()
      ensures State() == EmptyForm
    {
      inputValue := "";
      place := None;
      category := "";
      cuisine := "";
      comments := "";
      toast := None;
      written := [];
    }

    method SetCategory(c: string)
      modifies this
      ensures State() == old(State()).(category := c)
    {
      category := c;
    }

    method SetCuisine(c: string)
      modifies this
      ensures State() == old(State()).(cuisine := c)
    {
      cuisine := c;
    }

    method SetComments(text: string)
      modifies this
      ensures State() == old(State()).(comments := text)
    {
      comments := text;
    }

    /** `handleSelect`, with `details` the lookup's result (`None` when it
        throws). */
    method HandleSelect(sugg: PlaceSuggestion, details: Option<PlaceDetails>)
      modifies this
      ensures State() == Selected(old(State()), sugg, details)
    {
      inputValue := sugg.description;
      var p: PlaceDetails;
      if details.Some? {
        var d := details.value;
        p := PlaceDetails(
          Some(OrElse(d.name, sugg.description)),
          Some(OrElse(d.formattedAddress, sugg.description)),
          Some(OrElse(d.formattedPhone, "")),
          Some(OrElse(d.website, "")),
          Some(OrElse(d.url, PlaceUrl(sugg.placeId))),
          Some(sugg.placeId));
        toast := Some(Toast("Location details loaded successfully", Success));
      } else {
        p := PlaceDetails(Some(sugg.description), Some(sugg.description), Some(""), Some(""),
                          Some(PlaceUrl(sugg.placeId)), Some(sugg.placeId));
        toast := Some(Toast("Some location details could not be loaded, but you can still submit the suggestion.", Failure));
      }
      place := Some(p);
    }

    /** `handleSubmit`, with `addSucceeds` the outcome of `addDoc`. */
    method HandleSubmit(addSucceeds: bool)
      modifies this
      ensures State() == Submitted(old(State()), addSucceeds)
    {
      if place.None? {
        toast := Some(Toast(NoPlaceMessage, Failure));
      } else if category == "" {
        toast := Some(Toast(NoCategoryMessage, Failure));
      } else if !addSucceeds {
        toast := Some(Toast(SubmitErrorMessage, Failure));
      } else {
        ghost var before := State();
        written := written + [Payload(place.value, category, cuisine, comments)];
        toast := Some(Toast(ThanksMessage, Success));
        inputValue := "";
        place := None;
        category := "";
        cuisine := "";
        comments := "";
        assert State() == Submitted(before, true);
      }
    }
  }
}
