/** The three behaviours of the form page that touch the pipeline: the
    interests gate, the initial state it invokes the graph with, and the
    name of the downloaded file. */
module Ui {
  import opened Wrappers
  import opened Text
  import opened Trip
  import opened QueryBuilder
  import opened Research
  import opened Prompt
  import opened Pipeline

  const MissingInterestsMessage := "\U{26A0}\U{FE0F} Please select at least one interest!"

  /** What pressing the generate button leads to. */
  datatype Outcome = InterestsMissing(message: string) | Planned(result: Result<State>)

  /** The `input_state` dict: the form's values and two empty outputs. */
  function InitialState(form: TripRequest): (initial: State) {
    State(form, Some(""), Some(""))
  }

  /** The button handler: with no interest selected it shows an error and
      never invokes the graph; otherwise it invokes it on the initial state,
      so the query builder then always produces three queries. */
  method GenerateTrip(form: TripRequest, search: string -> SearchOutcome, complete: string -> Result<string>)
    returns (outcome: Outcome)
    ensures outcome.InterestsMissing? <==> form.interests == []
    ensures outcome.InterestsMissing? ==> outcome.message == MissingInterestsMessage
    ensures outcome.Planned? ==> outcome.result == Run(InitialState(form), search, complete)
    ensures outcome.Planned? ==> |Queries(InitialState(form).request)| == 3
  {
    if form.interests == [] {
      outcome := InterestsMissing(MissingInterestsMessage);
    } else {
      var result := Invoke(InitialState(form), search, complete);
      outcome := Planned(result);
    }
  }

  /** The placeholders of the initial state never survive a successful run:
      the preferences are the form's, `search_results` is non-empty and
      `final_trip` is the model's reply. */
  lemma PlaceholdersReplaced(form: TripRequest, search: string -> SearchOutcome, complete: string -> Result<string>)
    requires Run(InitialState(form), search, complete).Ok?
    ensures var s := Run(InitialState(form), search, complete).value;
      && s.request == form
      && s.searchResults.Some? && s.searchResults.value != ""
      && s.finalTrip == Some(complete(PromptText(State(form, Some(ResearchResults(form, search)), Some("")))).value)
  {
    RunResult(InitialState(form), search, complete);
    SearchTextNeverEmpty(Gathered(Outcomes(Queries(form), search)));
  }

  /** `f"trip_{country.lower().replace(' ', '_')}_{stamp}.json"`, where `stamp`
      is the departure date as `strftime('%Y%m%d')` writes it. */
  function DownloadFileName(country: string, stamp: string): (name: string) {
    "trip_" + ReplaceChar(Lower(country), ' ', '_') + "_" + stamp + ".json"
  }

  /** The file name is `trip_`, then the country lower-cased with each space
      turned into `_`, then `_`, the date stamp and `.json`. */
  lemma DownloadFileNameShape(country: string, stamp: string)
    ensures var name := DownloadFileName(country, stamp);
      && |name| == |country| + |stamp| + 11
      && name[..5] == "trip_"
      && name[5 + |country|..] == "_" + stamp + ".json"
      && var place := name[5..5 + |country|];
      && (forall i :: 0 <= i < |country| ==>
            place[i] == (if country[i] == ' ' then '_' else LowerChar(country[i])))
      && (forall i :: 0 <= i < |place| ==> place[i] != ' ' && !('A' <= place[i] <= 'Z'))
  {
    var name := DownloadFileName(country, stamp);
    var lowered := Lower(country);
    var middle := ReplaceChar(lowered, ' ', '_');
    forall i | 0 <= i < |country|
      ensures |middle| == |country|
      ensures middle[i] == (if country[i] == ' ' then '_' else LowerChar(country[i]))
    {
      LowerAt(country, i);
      ReplaceCharAt(lowered, ' ', '_', i);
    }
    if |country| == 0 {
      assert lowered == [] && middle == [];
    }
    assert name == "trip_" + middle + ("_" + stamp + ".json");
    assert name[5..5 + |country|] == middle;
  }
}
