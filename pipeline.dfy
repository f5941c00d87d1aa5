/** The planner node and the two-node graph START -> research -> planner -> END. */
module Pipeline {
  import opened Wrappers
  import opened Text
  import opened Trip
  import opened Research
  import opened Prompt

  /** The planner node: render the prompt, hand it to the language model and
      keep its reply verbatim; an exception from the model propagates. */
  function PlannerNode(s: State, complete: string -> Result<string>): (u: Result<Update>)
    ensures u.Ok? <==> complete(PromptText(s)).Ok?
    ensures u.Ok? ==> u.value == map[FinalTripKey := complete(PromptText(s)).value]
    ensures u.Err? ==> u.error == complete(PromptText(s)).error
  {
    PromptIsTemplateFilled(s);
    match Format(TravelPrompt, PromptArguments(s))
    case Err(e) => Err(e)
    case Ok(prompt) =>
      match complete(prompt)
      case Err(e) => Err(e)
      case Ok(reply) => Ok(map[FinalTripKey := reply])
  }

  /** The graph's nodes and its three edges, as the source adds them. */
  datatype Node = Start | ResearchStep | PlannerStep | End

  const Edges: set<(Node, Node)> := {(Start, ResearchStep), (ResearchStep, PlannerStep), (PlannerStep, End)}

  /** A path through the graph from START to END. */
  ghost predicate IsRun(path: seq<Node>) {
    && |path| > 0 && path[0] == Start && path[|path| - 1] == End
    && forall i :: 0 <= i < |path| - 1 ==> (path[i], path[i + 1]) in Edges
  }

  lemma EndIsLast(n: Node)
    ensures (End, n) !in Edges
  {
  }

  /** The graph has one run: research first, then the planner, each once. */
  lemma OnlyRun(path: seq<Node>)
    ensures IsRun(path) <==> path == [Start, ResearchStep, PlannerStep, End]
  {
    if IsRun(path) {
      assert |path| != 1;
      assert (path[0], path[1]) in Edges;
      assert path[1] == ResearchStep;
      assert |path| != 2;
      assert (path[1], path[2]) in Edges;
      assert path[2] == PlannerStep;
      assert |path| != 3;
      assert (path[2], path[3]) in Edges;
      assert path[3] == End;
      if |path| > 4 {
        EndIsLast(path[4]);
        assert false;
      }
    }
  }

  /** The final state of one invocation, or the model's exception. */
  function Run(s0: State, search: string -> SearchOutcome, complete: string -> Result<string>): (result: Result<State>) {
    var s1 := Apply(s0, map[SearchResultsKey := ResearchResults(s0.request, search)]);
    match PlannerNode(s1, complete)
    case Err(e) => Err(e)
    case Ok(u) => Ok(Apply(s1, u))
  }

  /** What one node does to the state: START and END leave it unchanged,
      the two steps merge their node's update. */
  function StepNode(n: Node, s: State, search: string -> SearchOutcome, complete: string -> Result<string>): (result: Result<State>) {
    match n
    case ResearchStep => Ok(Apply(s, map[SearchResultsKey := ResearchResults(s.request, search)]))
    case PlannerStep =>
      (match PlannerNode(s, complete)
       case Err(e) => Err(e)
       case Ok(u) => Ok(Apply(s, u)))
    case _ => Ok(s)
  }

  /** The graph's nodes applied one after another along a path; an error stops the walk. */
  function RunPath(path: seq<Node>, s: State, search: string -> SearchOutcome, complete: string -> Result<string>): (result: Result<State>)
    decreases |path|
  {
    if path == [] then Ok(s)
    else match StepNode(path[0], s, search, complete)
      case Err(e) => Err(e)
      case Ok(next) => RunPath(path[1..], next, search, complete)
  }

  /** Walking any path the edges allow from START to END computes `Run`:
      the order `Run` composes the nodes in is the one the wiring admits. */
  lemma RunFollowsGraph(path: seq<Node>, s0: State, search: string -> SearchOutcome, complete: string -> Result<string>)
    requires IsRun(path)
    ensures RunPath(path, s0, search, complete) == Run(s0, search, complete)
  {
    OnlyRun(path);
    var s1 := Apply(s0, map[SearchResultsKey := ResearchResults(s0.request, search)]);
    var p3: seq<Node> := [End];
    var p2: seq<Node> := [PlannerStep] + p3;
    var p1: seq<Node> := [ResearchStep] + p2;
    assert path == [Start] + p1;
    assert RunPath(path, s0, search, complete) == RunPath(p1, s0, search, complete) by {
      assert path[1..] == p1;
    }
    assert RunPath(p1, s0, search, complete) == RunPath(p2, s1, search, complete) by {
      assert p1[0] == ResearchStep && p1[1..] == p2;
    }
    match PlannerNode(s1, complete)
    case Err(e) =>
      assert p2[0] == PlannerStep;
    case Ok(u) =>
      assert RunPath(p2, s1, search, complete) == RunPath(p3, Apply(s1, u), search, complete) by {
        assert p2[0] == PlannerStep && p2[1..] == p3;
      }
      assert RunPath(p3, Apply(s1, u), search, complete) == Ok(Apply(s1, u)) by {
        assert p3[1..] == [];
      }
  }

  /** `travel_agent.invoke(state)`: the research node's update is merged,
      then the planner's; the planner sees the research node's text. */
  method Invoke(s0: State, search: string -> SearchOutcome, complete: string -> Result<string>)
    returns (result: Result<State>)
    ensures result == Run(s0, search, complete)
    ensures var researched := State(s0.request, Some(ResearchResults(s0.request, search)), s0.finalTrip);
      var reply := complete(PromptText(researched));
      && (result.Ok? <==> reply.Ok?)
      && (result.Err? ==> result.error == reply.error)
      && (result.Ok? ==> result.value == State(s0.request, Some(ResearchResults(s0.request, search)), Some(reply.value)))
  {
    var update := ResearchNode(s0, search);
    var s1 := Apply(s0, update);
    var planned := PlannerNode(s1, complete);
    if planned.Err? {
      result := Err(planned.error);
    } else {
      result := Ok(Apply(s1, planned.value));
    }
  }

  /** What one invocation ends with: the caller's preferences unchanged,
      `search_results` set by the research node, and `final_trip` set to the
      model's reply to the prompt built from that text; or the model's error. */
  lemma RunResult(s0: State, search: string -> SearchOutcome, complete: string -> Result<string>)
    ensures var text := ResearchResults(s0.request, search);
      var reply := complete(PromptText(State(s0.request, Some(text), s0.finalTrip)));
      var r := Run(s0, search, complete);
      && (r.Ok? <==> reply.Ok?)
      && (r.Err? ==> r.error == reply.error)
      && (r.Ok? ==> r.value == State(s0.request, Some(text), Some(reply.value)))
  {
    var text := ResearchResults(s0.request, search);
    var s1 := Apply(s0, map[SearchResultsKey := text]);
    assert s1 == State(s0.request, Some(text), s0.finalTrip);
  }

  /** Whatever the caller put in the output keys, the planner formats the
      research node's text into the prompt, never the
      `No search results available.` default. */
  lemma PlannerSeesResearch(s0: State, text: string)
    ensures var s1 := Apply(s0, map[SearchResultsKey := text]);
      s1.searchResults == Some(text) && PromptArguments(s1)[SearchResultsField] == text
  {
  }

  /** A model failure makes the whole invocation fail: no partial state is returned. */
  lemma ModelFailurePropagates(s0: State, search: string -> SearchOutcome, complete: string -> Result<string>)
    requires forall p :: complete(p).Err?
    ensures Run(s0, search, complete).Err?
  {
  }

  /** Total search failure still reaches the planner, whose prompt carries the sentinel. */
  lemma SearchOutageStillPlans(s0: State, search: string -> SearchOutcome, complete: string -> Result<string>)
    requires forall q :: search(q) == Raises
    requires forall p :: complete(p).Ok?
    ensures Run(s0, search, complete).Ok?
    ensures Run(s0, search, complete).value.searchResults == Some(NoResults)
  {
    TotalFailureGivesSentinel(s0.request, search);
  }

  /** End to end with stubs: a trip with at least one interest, a search
      gateway that answers every query with the same record and a model that
      always replies with some text. The run succeeds, `final_trip` is
      non-empty, and `search_results` holds the record's block once per query. */
  lemma SameRecordRun(s0: State, search: string -> SearchOutcome, complete: string -> Result<string>,
                      url: string, content: string)
    requires |s0.request.interests| > 0
    requires forall q :: search(q) == NonString([Dict(Some(url), Some(content))])
    requires forall p :: complete(p).Ok? && complete(p).value != ""
    ensures var b := "Source: " + url + "\n" + content;
      var r := Run(s0, search, complete);
      && r.Ok?
      && r.value.finalTrip.Some? && r.value.finalTrip.value != ""
      && r.value.searchResults == Some(b + "\n\n" + b + "\n\n" + b)
  {
    SameRecordEveryQuery(s0.request, search, url, content);
    RunResult(s0, search, complete);
  }

  /** Prompt completeness for a luxury trip to Japan with interests food and culture. */
  lemma JapanPromptExample(s: State)
    requires s.request.country == "Japan" && s.request.travelStyle == Luxury
    requires s.request.interests == ["food", "culture"]
    ensures IsInfix("Japan", PromptText(s)) && IsInfix("luxury", PromptText(s))
    ensures IsInfix("food, culture", PromptText(s))
  {
    var interests := Join(", ", s.request.interests);
    assert interests == "food, culture" by {
      JoinPair(", ", "food", "culture");
    }
    assert s.request.travelStyle.Name() == "luxury";
    PromptEmbedsEveryValue(s);
  }
}
