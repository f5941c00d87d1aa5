/** The planner's prompt: a fixed template with nine named placeholders,
    filled in the way `str.format` fills them. */
module Prompt {
  import opened Wrappers
  import opened Text
  import opened Trip

  /** The placeholders of the template, by their keyword-argument names. */
  datatype Field =
    | CountryField | DepartureDateField | ReturnDateField | TravelStyleField | TripTypeField
    | AgeGroupField | AccommodationTypeField | InterestsField | SearchResultsField
  {
    function Name(): string {
      match this
      case CountryField => "country"
      case DepartureDateField => "departure_date"
      case ReturnDateField => "return_date"
      case TravelStyleField => "travel_style"
      case TripTypeField => "trip_type"
      case AgeGroupField => "age_group"
      case AccommodationTypeField => "accommodation_type"
      case InterestsField => "interests"
      case SearchResultsField => "search_results"
    }
  }

  /** A template as `string.Formatter.parse` splits it: literal text
      followed by a `{name}` field, or by nothing at the end. */
  datatype Segment = Segment(literal: string, field: Option<Field>)

  /** Everything before the first placeholder: the persona and style instructions. */
  const Persona := "\nYou are an expert luxury travel agent who crafts visually appealing, informative, and emotionally engaging travel itineraries.\nYour job is to generate balanced, accurate, and visually polished travel outputs based on the following user inputs and REAL-TIME SEARCH DATA.\n\n**IMPORTANT**: Use the search results below to provide current, accurate recommendations for hotels, restaurants, activities, and attractions.\nReference specific places, recent reviews, and up-to-date information from the search results.\n\nAvoid long blocks of text.\nUse emojis, headers, and short descriptive sections \U{2014} like a premium travel brochure.\nTone should feel high-end, warm, and vibrant \U{2014} not robotic or overly formal.\n\nEach response should feel crafted and personalized to the traveler's style and interests.\n\nAdd good enough details to make the itinerary actionable, but keep it concise (300-400 words).\n\nAt the end try to return links for flights and accommodation booking sites and and other things if possible or related to the output all recommendations should be based on the search results provided.\n\n---\n\n**User Preferences:**\n\n\U{1F30D} Destination: "
  const DatesLabel := "\n\U{1F4C5} Dates: "
  const DatesSeparator := " to "
  const StyleLabel := "\n\U{2728} Style: "
  const TripTypeLabel := "\n\U{1F465} Trip Type: "
  const AgeGroupLabel := "\n\U{1F464} Age Group: "
  const AccommodationLabel := "\n\U{1F3E8} Accommodation: "
  const InterestsLabel := "\n\U{1F4AB} Interests: "
  const SearchDataHeading := "\n\n---\n\n**Current Travel Information (Use this data):**\n\n"
  const Closing := "\n\n---\n\nNow create a personalized itinerary incorporating the above real-time information.\n"

  /** `travel_prompt`, parsed. */
  const TravelPrompt: seq<Segment> := [
    Segment(Persona, Some(CountryField)),
    Segment(DatesLabel, Some(DepartureDateField)),
    Segment(DatesSeparator, Some(ReturnDateField)),
    Segment(StyleLabel, Some(TravelStyleField)),
    Segment(TripTypeLabel, Some(TripTypeField)),
    Segment(AgeGroupLabel, Some(AgeGroupField)),
    Segment(AccommodationLabel, Some(AccommodationTypeField)),
    Segment(InterestsLabel, Some(InterestsField)),
    Segment(SearchDataHeading, Some(SearchResultsField)),
    Segment(Closing, None)]

  /** The default of `state.get("search_results", ...)`. */
  const NoResultsAvailable := "No search results available."

  /** `template.format(**kwargs)`: literal text is copied, each field is
      replaced by its argument as it stands (the argument is not itself
      scanned for fields), and the first field without an argument raises
      `KeyError`. */
  function Format(template: seq<Segment>, kwargs: map<Field, string>): (rendered: Result<string>)
    decreases |template|
  {
    if template == [] then Ok("")
    else
      var seg := template[0];
      if seg.field.Some? && seg.field.value !in kwargs then Err("KeyError: '" + seg.field.value.Name() + "'")
      else
        var value := if seg.field.Some? then kwargs[seg.field.value] else "";
        var rest := Format(template[1..], kwargs);
        if rest.Err? then rest else Ok(seg.literal + (value + rest.value))
  }

  /** The keyword arguments of the `format` call in `trip_planner_node`. */
  function PromptArguments(s: State): (args: map<Field, string>) {
    var r := s.request;
    map[
      CountryField := r.country,
      DepartureDateField := r.departureDate,
      ReturnDateField := r.returnDate,
      TravelStyleField := r.travelStyle.Name(),
      TripTypeField := r.tripType.Name(),
      AgeGroupField := r.ageGroup.Name(),
      AccommodationTypeField := r.accommodationType.Name(),
      InterestsField := Join(", ", r.interests),
      SearchResultsField := s.searchResults.GetOr(NoResultsAvailable)]
  }

  /** The prompt for a state, written out: the template's literal text with
      every preference inserted verbatim, the interests joined by `", "` and
      the search text (or its default when the key is absent). */
  function PromptText(s: State): (prompt: string) {
    var r := s.request;
    Persona + (r.country +
    (DatesLabel + (r.departureDate + (DatesSeparator + (r.returnDate +
    (StyleLabel + (r.travelStyle.Name() +
    (TripTypeLabel + (r.tripType.Name() +
    (AgeGroupLabel + (r.ageGroup.Name() +
    (AccommodationLabel + (r.accommodationType.Name() +
    (InterestsLabel + (Join(", ", r.interests) +
    (SearchDataHeading + (s.searchResults.GetOr(NoResultsAvailable) +
    (Closing + ""))))))))))))))))))
  }

  /** A field missing from the arguments makes `format` raise. */
  lemma {:induction false} FormatMissingField(template: seq<Segment>, kwargs: map<Field, string>, i: nat)
    requires i < |template| && template[i].field.Some? && template[i].field.value !in kwargs
    ensures Format(template, kwargs).Err?
    decreases |template|
  {
    if i > 0 {
      FormatMissingField(template[1..], kwargs, i - 1);
    }
  }

  /** One step of `format`: a segment whose field has an argument. */
  lemma FormatStep(seg: Segment, rest: seq<Segment>, kwargs: map<Field, string>)
    requires seg.field.Some? ==> seg.field.value in kwargs
    requires Format(rest, kwargs).Ok?
    ensures Format([seg] + rest, kwargs) ==
      Ok(seg.literal + ((if seg.field.Some? then kwargs[seg.field.value] else "") + Format(rest, kwargs).value))
  {
    assert ([seg] + rest)[0] == seg && ([seg] + rest)[1..] == rest;
  }

  /** `format` on a template of nine fields and a closing literal, each field with an argument. */
  lemma FormatNineFields(l0: string, l1: string, l2: string, l3: string, l4: string, l5: string, l6: string, l7: string, l8: string, l9: string, f0: Field, f1: Field, f2: Field, f3: Field, f4: Field, f5: Field, f6: Field, f7: Field, f8: Field, kw: map<Field, string>)
    requires f0 in kw && f1 in kw && f2 in kw && f3 in kw && f4 in kw && f5 in kw && f6 in kw && f7 in kw && f8 in kw
    ensures Format([Segment(l0, Some(f0)), Segment(l1, Some(f1)), Segment(l2, Some(f2)), Segment(l3, Some(f3)), Segment(l4, Some(f4)), Segment(l5, Some(f5)), Segment(l6, Some(f6)), Segment(l7, Some(f7)), Segment(l8, Some(f8)), Segment(l9, None)], kw) ==
      Ok(l0 + (kw[f0] + (l1 + (kw[f1] + (l2 + (kw[f2] + (l3 + (kw[f3] + (l4 + (kw[f4] + (l5 + (kw[f5] + (l6 + (kw[f6] + (l7 + (kw[f7] + (l8 + (kw[f8] + (l9 + "")))))))))))))))))))
  {
    var t10: seq<Segment>, s10 := [], "";
    var t9, s9 := [Segment(l9, None)] + t10, l9 + s10;
    assert Format(t9, kw) == Ok(s9) by { FormatStep(Segment(l9, None), t10, kw); assert "" + "" == ""; }
    var t8, s8 := [Segment(l8, Some(f8))] + t9, l8 + (kw[f8] + s9);
    assert Format(t8, kw) == Ok(s8) by { FormatStep(Segment(l8, Some(f8)), t9, kw); }
    var t7, s7 := [Segment(l7, Some(f7))] + t8, l7 + (kw[f7] + s8);
    assert Format(t7, kw) == Ok(s7) by { FormatStep(Segment(l7, Some(f7)), t8, kw); }
    var t6, s6 := [Segment(l6, Some(f6))] + t7, l6 + (kw[f6] + s7);
    assert Format(t6, kw) == Ok(s6) by { FormatStep(Segment(l6, Some(f6)), t7, kw); }
    var t5, s5 := [Segment(l5, Some(f5))] + t6, l5 + (kw[f5] + s6);
    assert Format(t5, kw) == Ok(s5) by { FormatStep(Segment(l5, Some(f5)), t6, kw); }
    var t4, s4 := [Segment(l4, Some(f4))] + t5, l4 + (kw[f4] + s5);
    assert Format(t4, kw) == Ok(s4) by { FormatStep(Segment(l4, Some(f4)), t5, kw); }
    var t3, s3 := [Segment(l3, Some(f3))] + t4, l3 + (kw[f3] + s4);
    assert Format(t3, kw) == Ok(s3) by { FormatStep(Segment(l3, Some(f3)), t4, kw); }
    var t2, s2 := [Segment(l2, Some(f2))] + t3, l2 + (kw[f2] + s3);
    assert Format(t2, kw) == Ok(s2) by { FormatStep(Segment(l2, Some(f2)), t3, kw); }
    var t1, s1 := [Segment(l1, Some(f1))] + t2, l1 + (kw[f1] + s2);
    assert Format(t1, kw) == Ok(s1) by { FormatStep(Segment(l1, Some(f1)), t2, kw); }
    var t0, s0 := [Segment(l0, Some(f0))] + t1, l0 + (kw[f0] + s1);
    assert Format(t0, kw) == Ok(s0) by { FormatStep(Segment(l0, Some(f0)), t1, kw); }
    assert t0 == [Segment(l0, Some(f0)), Segment(l1, Some(f1)), Segment(l2, Some(f2)), Segment(l3, Some(f3)), Segment(l4, Some(f4)), Segment(l5, Some(f5)), Segment(l6, Some(f6)), Segment(l7, Some(f7)), Segment(l8, Some(f8)), Segment(l9, None)];
  }

  /** Formatting `travel_prompt` with the planner's arguments never raises,
      and gives the template with each argument substituted verbatim. */
  lemma PromptIsTemplateFilled(s: State)
    ensures Format(TravelPrompt, PromptArguments(s)) == Ok(PromptText(s))
  {
    var kw := PromptArguments(s);
    FormatNineFields(Persona, DatesLabel, DatesSeparator, StyleLabel, TripTypeLabel, AgeGroupLabel, AccommodationLabel, InterestsLabel, SearchDataHeading, Closing, CountryField, DepartureDateField, ReturnDateField, TravelStyleField, TripTypeField, AgeGroupField, AccommodationTypeField, InterestsField, SearchResultsField, kw);
  }

  /** In a text that alternates literals and values, every value occurs. */
  lemma {:induction false} ValuesOccur(l0: string, l1: string, l2: string, l3: string, l4: string, l5: string, l6: string, l7: string, l8: string, l9: string, v0: string, v1: string, v2: string, v3: string, v4: string, v5: string, v6: string, v7: string, v8: string)
    ensures var whole := l0 + (v0 + (l1 + (v1 + (l2 + (v2 + (l3 + (v3 + (l4 + (v4 + (l5 + (v5 + (l6 + (v6 + (l7 + (v7 + (l8 + (v8 + (l9 + ""))))))))))))))))));
      IsInfix(v0, whole) && IsInfix(v1, whole) && IsInfix(v2, whole) && IsInfix(v3, whole) && IsInfix(v4, whole) && IsInfix(v5, whole) && IsInfix(v6, whole) && IsInfix(v7, whole) && IsInfix(v8, whole)
  {
    var u9 := l9 + "";
    var w8 := v8 + u9;
    var u8 := l8 + w8;
    var w7 := v7 + u8;
    var u7 := l7 + w7;
    var w6 := v6 + u7;
    var u6 := l6 + w6;
    var w5 := v5 + u6;
    var u5 := l5 + w5;
    var w4 := v4 + u5;
    var u4 := l4 + w4;
    var w3 := v3 + u4;
    var u3 := l3 + w3;
    var w2 := v2 + u3;
    var u2 := l2 + w2;
    var w1 := v1 + u2;
    var u1 := l1 + w1;
    var w0 := v0 + u1;
    var u0 := l0 + w0;
    InfixOfSuffix(w0, l0);
    InfixOfSuffix(w1, l1);
    InfixOfSuffix(u1, v0);
    InfixTransitive(u1, w0, u0);
    InfixTransitive(w1, u1, u0);
    InfixOfSuffix(w2, l2);
    InfixOfSuffix(u2, v1);
    InfixTransitive(u2, w1, u0);
    InfixTransitive(w2, u2, u0);
    InfixOfSuffix(w3, l3);
    InfixOfSuffix(u3, v2);
    InfixTransitive(u3, w2, u0);
    InfixTransitive(w3, u3, u0);
    InfixOfSuffix(w4, l4);
    InfixOfSuffix(u4, v3);
    InfixTransitive(u4, w3, u0);
    InfixTransitive(w4, u4, u0);
    InfixOfSuffix(w5, l5);
    InfixOfSuffix(u5, v4);
    InfixTransitive(u5, w4, u0);
    InfixTransitive(w5, u5, u0);
    InfixOfSuffix(w6, l6);
    InfixOfSuffix(u6, v5);
    InfixTransitive(u6, w5, u0);
    InfixTransitive(w6, u6, u0);
    InfixOfSuffix(w7, l7);
    InfixOfSuffix(u7, v6);
    InfixTransitive(u7, w6, u0);
    InfixTransitive(w7, u7, u0);
    InfixOfSuffix(w8, l8);
    InfixOfSuffix(u8, v7);
    InfixTransitive(u8, w7, u0);
    InfixTransitive(w8, u8, u0);
    InfixOfPrefix(v0, u1);
    InfixTransitive(v0, w0, u0);
    InfixOfPrefix(v1, u2);
    InfixTransitive(v1, w1, u0);
    InfixOfPrefix(v2, u3);
    InfixTransitive(v2, w2, u0);
    InfixOfPrefix(v3, u4);
    InfixTransitive(v3, w3, u0);
    InfixOfPrefix(v4, u5);
    InfixTransitive(v4, w4, u0);
    InfixOfPrefix(v5, u6);
    InfixTransitive(v5, w5, u0);
    InfixOfPrefix(v6, u7);
    InfixTransitive(v6, w6, u0);
    InfixOfPrefix(v7, u8);
    InfixTransitive(v7, w7, u0);
    InfixOfPrefix(v8, u9);
    InfixTransitive(v8, w8, u0);
  }

  /** Each preference, the joined interests and the search text appear in the prompt as given. */
  lemma PromptEmbedsEveryValue(s: State)
    ensures IsInfix(s.request.country, PromptText(s))
    ensures IsInfix(s.request.departureDate, PromptText(s))
    ensures IsInfix(s.request.returnDate, PromptText(s))
    ensures IsInfix(s.request.travelStyle.Name(), PromptText(s))
    ensures IsInfix(s.request.tripType.Name(), PromptText(s))
    ensures IsInfix(s.request.ageGroup.Name(), PromptText(s))
    ensures IsInfix(s.request.accommodationType.Name(), PromptText(s))
    ensures IsInfix(Join(", ", s.request.interests), PromptText(s))
    ensures IsInfix(s.searchResults.GetOr(NoResultsAvailable), PromptText(s))
  {
    var r := s.request;
    ValuesOccur(Persona, DatesLabel, DatesSeparator, StyleLabel, TripTypeLabel, AgeGroupLabel,
      AccommodationLabel, InterestsLabel, SearchDataHeading, Closing,
      r.country, r.departureDate, r.returnDate, r.travelStyle.Name(), r.tripType.Name(),
      r.ageGroup.Name(), r.accommodationType.Name(), Join(", ", r.interests),
      s.searchResults.GetOr(NoResultsAvailable));
  }
}
