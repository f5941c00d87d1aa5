# Travel agent pipeline: research, then plan

This project models the two-step pipeline behind the travel agent. The pipeline receives a trip request: a country, the interests, two dates, a travel style, a trip type, an age group and an accommodation type.

The **research node** does three things:
- It builds two search queries, or three when any interest is given.
- It runs each query through the web-search gateway. A query that fails is skipped.
- It coerces each answer into items, keeps only the dict items and formats each as a `Source:` block. The blocks are joined with blank lines. When no dict item survives, the result is replaced by the sentinel `No search results found.`.

The **planner node** fills the fixed prompt template with the nine preferences and the research text. It hands the prompt to the language model and stores the reply verbatim as `final_trip`.

The graph runs START → research → planner → END over one state. Each node returns a partial update that sets only its own key.

From the form page the model also covers three things:
- the gate that refuses to plan without an interest;
- the initial state the graph is invoked with;
- the name of the downloaded file.

The pipeline appears twice in the repository:
- at module level in `Travel_Agent.py:35-138`;
- inside `init_travel_agent` in `main.py:96-193`.

The two copies are the same code, apart from the model name given to the client. This project models that code once, and each row below cites the `Travel_Agent.py` copy. The matching `main.py` lines are 98-104 for the queries, 106-127 for the loop and the formatting, 129-184 for the prompt and the planner, and 186-193 for the graph.

How the external services are modelled:
- The search gateway is a function from a query to a `SearchOutcome`. The outcome is one of:
  - the call raises;
  - a non-string iterable, given as the items it yields;
  - a string, paired with what JSON decoding makes of it: a decoding failure, an object, a list, a string or a scalar.
- The language model is a function from the prompt to `Ok(reply)` or `Err(message)`.

Modules:
- `wrappers.dfy`: `Option` and `Result`.
- `text.dfy`: join, slices, infix, ASCII lower-casing and character replacement.
- `trip.dfy`: the request, the state, and partial updates with their merge.
- `queries.dfy`: the query builder.
- `research.dfy`: the research node.
- `prompt.dfy`: the template and `str.format`.
- `pipeline.dfy`: the planner node and the graph.
- `ui.dfy`: the form-page behaviours.

## Model

| member | source | states |
|---|---|---|
| QueryBuilder.BestStayQuery | Travel_Agent.py:38 | the first query's f-string: `best`, the style, the accommodation, `in`, the country and `2025`, space-separated; its text is fixed by `BuildQueries` |
| QueryBuilder.ThingsToDoQuery | Travel_Agent.py:39 | the second query's f-string over the first two interests; unfolded by `ThingsToDoClause` |
| QueryBuilder.InterestQuery | Travel_Agent.py:43 | the third query's f-string, defined only when there is a first interest, with the first four characters of the departure date |
| QueryBuilder.Queries | Travel_Agent.py:37-43 | three queries when interests is non-empty and two otherwise, in fixed order: the best-stay query, then the things-to-do query, then the interest query |
| QueryBuilder.ThingsToDoClause | Travel_Agent.py:39 | the second query names only the first two interests, `", "`-joined; with no interest it ends in a bare `for ` |
| QueryBuilder.BuildQueries | Travel_Agent.py:37-43 | the list literal plus the conditional append yields `Queries`. There are 3 queries exactly when there is an interest and 2 exactly when there is none. Each query has its exact text, including `2025` and the first min(4, len) characters of the departure date |
| Text.Take | Travel_Agent.py:39 | Python's `xs[:n]` is the prefix of length min(n, len(xs)) |
| Research.Contribution | Travel_Agent.py:49-57 | the items one query appends: nothing when the call raises or `extend` fails on a scalar, the iterated items of a non-string, and for a string the decoded list, the decoded object as one dict, the characters of a decoded string, or one `N/A` record for undecodable text; its cases are the subject of `UndecodableBecomesRecord`, `DecodedObjectIsWrapped` and `DecodedStringIsDropped` |
| Research.Gathered | Travel_Agent.py:45-59 | `all_results` after the loop has handled a prefix of the outcomes; `ResearchNode`'s loop invariant, split by `GatheredAppend` |
| Research.Dicts | Travel_Agent.py:63 | the `isinstance(r, dict)` filter in order; characterised by `DictsKeepExactlyDicts` and `DictsAppend` |
| Research.Outcomes | Travel_Agent.py:47-49 | one gateway call per query, in query order: the outcome list has one entry per query, the answer to exactly that query |
| Research.Block | Travel_Agent.py:62 | one dict's `Source: ` line with `N/A` for a missing url, a newline and the content or the empty string |
| Research.Blocks | Travel_Agent.py:61-64 | the comprehension's f-strings: one `Source:` block per surviving dict, in order, as many as `Dicts` keeps |
| Research.Formatted | Travel_Agent.py:61-64 | the `"\n\n".join` of the blocks; empty exactly when no dict survives, by `FormattedEmptyIff` |
| Research.SearchText | Travel_Agent.py:61-66 | the joined blocks, or the sentinel when the join is empty; characterised by `SearchTextSentinelIff` |
| Research.ResearchResults | Travel_Agent.py:35-66 | the node's `search_results` value for a request and a gateway: the queries run in order, their items gathered, filtered, formatted and joined, or the sentinel; what `ResearchNode`'s loop is proved to compute |
| Research.ResearchNode | Travel_Agent.py:35-66 | the fail-soft loop returns an update whose only key is `search_results`. Its value is `ResearchResults`: the dict items gathered in query order, formatted and joined, and the sentinel exactly when no dict item survived |
| Research.GatheredAppend | Travel_Agent.py:47-59 | the running list is the concatenation of each query's contribution, in query order |
| Research.FailedQueryIsSkipped | Travel_Agent.py:47-59 | a query that raises, or whose `extend` raises, adds nothing, and the queries around it contribute as if it were absent |
| Research.NothingGathered | Travel_Agent.py:47-59 | when no query contributes, the running list stays empty |
| Research.TotalFailureGivesSentinel | Travel_Agent.py:47-66 | when every search call raises, the node still returns, and its text is `No search results found.` |
| Research.UndecodableBecomesRecord | Travel_Agent.py:50-56 | a string that JSON cannot decode becomes exactly one record with url `N/A` and the raw text as content, rendered as `Source: N/A` followed by that text |
| Research.DecodedObjectIsWrapped | Travel_Agent.py:52-54 | a string that decodes to an object contributes that one dict |
| Research.DecodedStringIsDropped | Travel_Agent.py:52-57 | a string that decodes to a JSON string contributes only its characters, which are all dropped, so on its own it yields the sentinel |
| Research.NonDictsDropped | Travel_Agent.py:63 | items that are not dicts never reach the filter's output |
| Research.DictsAreDicts | Travel_Agent.py:63 | every item the filter keeps is a dict |
| Research.DictsKeepExactlyDicts | Travel_Agent.py:63 | an item survives the `isinstance(r, dict)` filter exactly when it is in the list and is a dict |
| Research.DictsAppend | Travel_Agent.py:61-64 | the filter keeps append order across concatenation |
| Research.JunkIsDropped | Travel_Agent.py:61-66 | inserting a non-dict item anywhere leaves the node's text unchanged |
| Research.ResearchOrder | Travel_Agent.py:47-64 | the dict items reach the output in query order, and within a query in the order the gateway gave them |
| Research.FormattedEmptyIff | Travel_Agent.py:61-64 | the joined blocks are empty exactly when no dict item survived, because every block starts with `Source: ` |
| Research.SearchTextSentinelIff | Travel_Agent.py:61-66 | the text is the sentinel exactly when no dict item survived; otherwise it is the `"\n\n"`-join of the blocks, which is never replaced |
| Research.SearchTextNeverEmpty | Travel_Agent.py:66 | the research node's text is never the empty string |
| Research.PartialFailure | Travel_Agent.py:47-66 | with no interests, when the first query raises and the second returns one record, the text is exactly that record's block |
| Research.SameRecordEveryQuery | Travel_Agent.py:37-66 | with an interest and a gateway that answers every query with the same record, the text is that record's block three times, separated by blank lines |
| Prompt.PromptText | Travel_Agent.py:70-123 | the rendered prompt written out: the ten template literals with the nine values between them; `PromptIsTemplateFilled` proves it is what `str.format` yields |
| Prompt.Format | Travel_Agent.py:113 | `str.format` with keyword arguments over a template split into literals and fields: `KeyError` for the first field with no argument, otherwise each literal followed by its field's value |
| Prompt.PromptArguments | Travel_Agent.py:113-123 | the nine keyword arguments: the preferences verbatim, interests `", "`-joined, `search_results` or its default |
| Prompt.FormatMissingField | Travel_Agent.py:113-123 | `str.format` fails when the template names a field that is missing from the keyword arguments |
| Prompt.PromptIsTemplateFilled | Travel_Agent.py:70-123 | formatting the template with the node's nine arguments succeeds and yields the template literals with each field's value in place: interests `", "`-joined, and `search_results`, or the `No search results available.` default when that key is absent |
| Prompt.PromptEmbedsEveryValue | Travel_Agent.py:91-103 | each of the nine substituted values occurs verbatim in the prompt |
| Pipeline.PlannerNode | Travel_Agent.py:111-126 | succeeds exactly when the model answers the rendered prompt. Its update then sets only `final_trip`, to the reply verbatim; otherwise the model's error propagates |
| Pipeline.OnlyRun | Travel_Agent.py:129-136 | the only path from START to END is START, research, planner, END: each node runs once, research first |
| Pipeline.Invoke | Travel_Agent.py:129-138 | invoking the graph merges the research update and then the planner's. The result keeps the preferences and holds the research text and the model's reply to the prompt built from that text; a model error makes the whole invocation fail |
| Pipeline.Run | Travel_Agent.py:129-138 | the compiled graph's effect: merge the research update, then the planner's, or stop with the model's error; characterised by `RunResult` |
| Pipeline.StepNode | Travel_Agent.py:129-138 | one node's effect on the state: START and END leave it unchanged, research merges `search_results`, the planner merges `final_trip` or fails with the model's error |
| Pipeline.RunPath | Travel_Agent.py:129-138 | the nodes applied one after another along a path, stopping at the first error; equal to `Run` on every wired path, by `RunFollowsGraph` |
| Pipeline.RunFollowsGraph | Travel_Agent.py:129-136 | walking any path the three edges allow from START to END, node by node, computes `Run`, so the order `Run` composes the nodes in is the wiring's |
| Trip.Apply | Travel_Agent.py:66-138 | LangGraph's merge, wired at lines 129-138, of the partial dict a node returns (line 66 for research, line 126 for the planner): each key it holds overwrites that key, every other key and the preferences keep their values |
| Pipeline.RunResult | Travel_Agent.py:129-138 | the same characterisation for every input, stated on `Run` |
| Pipeline.PlannerSeesResearch | Travel_Agent.py:122 | after the research update, the planner's `search_results` argument is the research text, never the default |
| Pipeline.ModelFailurePropagates | Travel_Agent.py:125 | a model that always fails makes the invocation fail |
| Pipeline.SearchOutageStillPlans | Travel_Agent.py:58-66 | with every search raising and a working model, the invocation succeeds and its `search_results` is the sentinel |
| Pipeline.SameRecordRun | Travel_Agent.py:129-138 | end to end on stubs: with an interest, one record for every query and a model with a non-empty reply, the run succeeds. `final_trip` is non-empty and `search_results` holds the record's block once per query |
| Pipeline.JapanPromptExample | Travel_Agent.py:91-97 | a luxury trip to Japan for food and culture puts `Japan`, `luxury` and `food, culture` in the prompt |
| Ui.GenerateTrip | main.py:270-325 | the graph is invoked exactly when an interest is selected; otherwise the warning is shown. When invoked it runs on the initial state, so three queries are built |
| Ui.InitialState | main.py:301-312 | the `input_state` dict: the form's values and the two outputs set to the empty string |
| Ui.PlaceholdersReplaced | main.py:301-312 | after a successful run from the initial state, the preferences are the form's, `search_results` is non-empty and `final_trip` is the model's reply |
| Ui.DownloadFileName | main.py:386 | the download f-string over the lower-cased, space-to-underscore country and the date stamp; its shape is `DownloadFileNameShape` |
| Ui.DownloadFileNameShape | main.py:386 | the file name is `trip_`, then the country lower-cased with every space turned into `_`, then `_`, the date stamp and `.json`. It has no space and no upper-case letter in the country part |
| Text.Join | Travel_Agent.py:61 | Python's `sep.join(parts)`, also used at lines 39 and 121: the parts in order with the separator between each two; its emptiness is `JoinEmpty`, its start `JoinStartsWithFirst` |
| Text.Lower | main.py:386 | `str.lower` restricted to ASCII: each `A`-`Z` becomes its lower-case letter and every other character is kept, as `LowerAt` states per position |
| Text.ReplaceChar | main.py:386 | `str.replace` of one character by one character: each occurrence of the first becomes the second and every other character is kept, as `ReplaceCharAt` states per position |
| Text.JoinEmpty | Travel_Agent.py:61 | a `str.join` is empty exactly when every part is empty and there is at most one part or the separator is empty |
| Text.JoinStartsWithFirst | Travel_Agent.py:61 | a non-empty join starts with its first part |

## Left out

- The Streamlit page is not modelled: layout, styles, widgets, session state, the progress bar, HTML rendering and the metrics. Of `main.py`, only the interests gate, the initial state and the file name are modelled.
- Secret loading and `load_dotenv` read the environment and are not modelled.
- The OpenAI and Tavily clients are network services. They become the two function parameters `complete` and `search`. The search gateway is a function of the query alone, so it gives the same answer to the same query, and its result limit of 7 is not modelled.
- `json.loads` is abstracted to the outcome it produces for a string: a failure, an object, a list, a string or a scalar. Its parsing is not modelled.
- Item values are `Option<string>`. A present `url` or `content` stands for the `str()` of whatever value the dict holds, and a present `None` is a present value. Python's `str()` of non-string values and f-string conversion are not modelled.
- A non-string search result is modelled as the items iterating it yields. Iterating a dict yields its keys, which are strings and so are dropped. A non-iterable non-string result raises inside `extend` and is modelled as `Raises`.
- An iteration that raises part-way is not a separate outcome. `list.extend` keeps the items it appended before the error, and the outer handler then skips the query. This is the `NonString` outcome of those items; the model does not record that the gateway raised.
- The template is held pre-split into its ten literals and nine fields. `str.format` is modelled on that split form; its own parsing of braces, conversions and format specifications is not.
- LangGraph's `StateGraph`, `compile` and `invoke` machinery is modelled by its effect only: the nodes run in sequence and each partial update is merged into the state. Streaming and callbacks are not modelled.
- `app.py`, the HTTP wrapper, is not part of this model.
- The `print` logging of a failed search is I/O and is not modelled.
- Date handling is not modelled: `datetime.now`, the date-input bounds and the trip length. Dates are the strings the form passes. The file name's stamp is given as the string `strftime('%Y%m%d')` writes.
- Text.Lower: only ASCII letters are lower-cased. Python's `str.lower` also maps non-ASCII letters, which this model leaves unchanged.
- Ui.DownloadFileNameShape: lower-casing is ASCII only. Python's `str.lower` also maps non-ASCII letters, which this model leaves unchanged.
- `result.get('final_trip', str(result))` in `main.py:332` relies on Python's repr of a dict and is not modelled. A successful run always has `final_trip`.
- An exception from the graph is shown as an error message in `main.py:390-394`. This model returns it as `Err`.
- The code keeps every dict item, filling a missing `url` with `N/A` and a missing `content` with the empty string.
