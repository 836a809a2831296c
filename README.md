# AI Travel Planner: the deterministic control layer, in Dafny

The planner collects a trip request through a conversation. It then runs six
research agents: flights, hotels, restaurants, activities, events and local
transportation. Each agent searches the web and has a language model
structure the results. A last model call writes the itinerary.

Most of the repository is glue around model and search calls. This project
models the deterministic layer under that glue:

- **The retry extractor.** `extract_with_retry` makes at most three attempts
  of search → structure → quality check. It returns early on the first good
  result and refines the query between attempts. The refiner is
  `_generate_better_query`.
- **The supervisor's nodes.** `collect_info_node` strips a code fence, parses
  the reply, computes the missing fields and builds the request.
  `dispatch_node` merges the six agents' research and failed lists.
  `synthesis_node` lays out the synthesis context. `route_after_collection`
  routes, and `build_graph` defines the four-node graph.
- **The six research agents.** Each has a quality predicate, a query, an
  output key and, for three of them, failure reporting.
- **The data models.** `ResearchResults`, `TripRequest` and `TripState`.

Everything nondeterministic is an input:

- The web search and the two extractor model calls are oracles indexed by
  the position of the call (`Extraction.Oracles`). A property proved for all
  oracles holds for every reply the web or the models could give.
- The supervisor's model calls are `Reply<string>` inputs.
- `json.loads` is a parse function that returns `None` for a decode error.
- A Python exception is `Reply.Raises`. Where the code lets one propagate,
  the model propagates it too.

Imperative code stays imperative. `Extraction.ExtractWithRetry` is the
`for` loop of `extract_with_retry`, proved to follow the specification
function `RunExtract`. `Dispatcher.DispatchNode` is the loop of
`dispatch_node`, proved to follow `Dispatch`. The other core code is pure
and is modelled as functions.

**How the code and its documented interface differ.** The model follows the
code throughout:

- The extractor takes no `agent_name` argument and returns the bare schema
  object or `None`. Yet the flights, hotels and transportation agents pass
  `agent_name` and read `result.success` and `result.agent_name`. The model
  gives the extractor the interface these agents expect. It returns the
  tagged outcome `AgentOutcome(records, success, agentName)`, where
  `success` means the result was returned as good at line 53.
  `Extraction.OutcomeMatchesPython` proves that `records` is exactly what the
  Python function returns. The three agents that pass no name use `""`.
- `TripState` declares no `failed_agents` field, but the supervisor and three
  agents read and write one. The model adds `failedAgents` to the state,
  starting empty.
- The failed list is not a de-duplicated set of every unsuccessful agent:
  - restaurants, activities and events never report a failure;
  - each reporting agent returns the state's whole failed list with its own
    name appended;
  - `dispatch_node` concatenates those lists in order.
- Exceptions are not all absorbed inside the extractor. A refiner exception
  raised inside the `except` clause escapes it, and from there every caller
  up to the graph.

## Model

| member | source | states |
|---|---|---|
| Extraction.GenerateBetterQuery | src/tools/data_extraction_tool.py:14-24 | The refiner raises exactly when its model call raises; the call sees the previous query and only the first 500 characters of the previous results. |
| Extraction.RefinedQueryTrimmed | src/tools/data_extraction_tool.py:24 | A refined query is the model's reply with only whitespace cut from its two ends, and has no whitespace at either end. |
| Extraction.RefinerSeesOnlyPreview | src/tools/data_extraction_tool.py:21 | Two raw results that agree on their first 500 characters give the same refinement. |
| Extraction.RefinerPromptBounded | src/tools/data_extraction_tool.py:21 | Whatever the raw results, the refiner prompt grows by at most 500 characters of them. |
| Extraction.OutcomeMatchesPython | src/tools/data_extraction_tool.py:52-65 | The tagged outcome holds exactly the value the Python function returns. It is successful exactly on the early return at line 53, and it is absent exactly when the function raises. |
| Extraction.ExtractWithRetry | src/tools/data_extraction_tool.py:27-65 | The loop as the code runs it returns the outcome of `RunExtract`, and searched exactly the queries of its attempts, in order. |
| Extraction.RetryLoop | src/tools/data_extraction_tool.py:40-65 | The `for` loop with `current_query` and `last_result` follows `Loop` from attempt 0 with the caller's query and `None`. |
| Extraction.TryAttempt | src/tools/data_extraction_tool.py:44-63 | One loop iteration. It returns the good result, or propagates an exception from the refiner call in `except`, exactly when the step function stops. Otherwise it hands the next attempt the refined query and the kept `last_result`. |
| Extraction.LoopBody | src/tools/data_extraction_tool.py:43-63 | The loop body as a step function: on every attempt it behaves as `AttemptStep`, and it drives `RunExtract`. |
| Extraction.TraceShape | src/tools/data_extraction_tool.py:40-44 | A run searches at least once and at most the attempts left, and the first search uses the query it was given. |
| Extraction.RunChained | src/tools/data_extraction_tool.py:56-63 | Each attempt after the first searches with what the previous attempt's last refiner call returned. |
| Extraction.RunStepsOk | src/tools/data_extraction_tool.py:43-63 | Every attempt of a call searched its own query and judged the model's reply with the predicate. It called the refiner as the code does: never after a good result or the last attempt, once otherwise, and a second time only when the first call on the weak path raised. |
| Extraction.ExitEarly | src/tools/data_extraction_tool.py:52-53 | A run returns early exactly when its last attempt was good, and returns that attempt's result; no earlier attempt was good. |
| Extraction.ExitLate | src/tools/data_extraction_tool.py:55-65 | A run escapes exactly when its last attempt's last refiner call raised. A run that is exhausted made every attempt and returns the last weak result, or `last` when no attempt was weak. |
| Extraction.ExitLaw | src/tools/data_extraction_tool.py:43-65 | The two halves above together: how every run ends. |
| Extraction.SearchAndRefineDiscipline | src/tools/data_extraction_tool.py:11-63 | The search runs between 1 and `MaxRetries` = 3 times. The first search uses the caller's query unchanged, and each later one uses the refinement of the previous attempt's query and raw text. There is no refinement after a good attempt or after the last one. |
| Extraction.FirstGoodReturned | src/tools/data_extraction_tool.py:52-53 | An early return hands back the structuring model's reply on the last attempt made, which the predicate accepted. No refinement followed it and no earlier attempt was good. |
| Extraction.EarlyIffSomeGood | src/tools/data_extraction_tool.py:52-53 | The call returns early if and only if some attempt was good. |
| Extraction.LastWeakWins | src/tools/data_extraction_tool.py:55-65 | A run with no good attempt and no escape made all three attempts and returns the last weak result. Weak results are not ranked. |
| Extraction.LastWeakIsWeak | src/tools/data_extraction_tool.py:41-55 | The remembered `last_result` is its initial `None` or the result of one of the weak attempts. |
| Extraction.ExhaustedResultWasWeak | src/tools/data_extraction_tool.py:52-65 | A result returned after the loop is one the quality predicate rejected without raising. |
| Extraction.LaterWeakOverwrites | src/tools/data_extraction_tool.py:55 | Of two weak attempts with no weak one after them, the later one's result is returned. |
| Extraction.AllRaisedGivesNone | src/tools/data_extraction_tool.py:41-65 | When every attempt raised, in structuring or in the predicate, and nothing escaped, the call returns `None`. |
| Extraction.EscapeOnlyFromRefiner | src/tools/data_extraction_tool.py:57-63 | An exception escapes only before the last attempt and only from a refiner call made in `except`. Either the attempt raised and its single refiner call raised, or the attempt was weak and both refiner calls raised. |
| Extraction.SuccessIffSomeAccepted | src/tools/data_extraction_tool.py:47-53 | A call that does not raise is successful exactly when the structuring reply of some attempt was accepted by the predicate. |
| Extraction.NeverAcceptedNeverSucceeds | src/tools/data_extraction_tool.py:52-53 | A predicate that never returns true makes every call unsuccessful. |
| Text.StripTrims | src/tools/data_extraction_tool.py:24 | `strip()` leaves no whitespace at either end and removes whitespace only, and only from the two ends. |
| Text.StripKeepsTrimmed | src/agents/SupervisorAgent.py:74-77 | `strip()` leaves text without edge whitespace unchanged. |
| Text.StripIdempotent | src/agents/SupervisorAgent.py:74-77 | `strip()` applied twice is `strip()` applied once. |
| Text.Take | src/tools/data_extraction_tool.py:21 | `s[:n]` is a prefix of `s` whose length is exactly `min(len(s), n)`: all of `s` when `s` is that short, otherwise its first `n` characters. |
| Text.Find | src/agents/SupervisorAgent.py:76 | `pat in s` holds exactly when `find` returns an index, and that index is the leftmost occurrence. |
| Text.SecondField | src/agents/SupervisorAgent.py:77 | `split(sep)[1]` holds no separator. |
| Text.SecondFieldBetween | src/agents/SupervisorAgent.py:77 | `split(sep)[1]` of `a + sep + b + sep + c` is `b` when neither `a` nor `b` holds a separator. |
| Text.SecondFieldToEnd | src/agents/SupervisorAgent.py:77 | `split(sep)[1]` of `a + sep + b` is `b` when `b` holds no separator. |
| Text.RemoveAll | src/agents/SupervisorAgent.py:77 | `replace(pat, "")` never lengthens the text and leaves text without `pat` unchanged. |
| Text.RemoveAllFront | src/agents/SupervisorAgent.py:77 | `replace(pat, "")` deletes an occurrence of `pat` at the front of the text. |
| Text.RemoveAllAfter | src/agents/SupervisorAgent.py:77 | `replace(pat, "")` keeps a prefix in which no occurrence of `pat` starts, deletes the occurrence that follows it, and goes on with the rest. |
| Collection.UnfencedWithoutFence | src/agents/SupervisorAgent.py:74-76 | A reply without a code fence is only stripped. |
| Collection.UnfencedBlock | src/agents/SupervisorAgent.py:76-77 | A reply `a ``` b ``` c` becomes `b` with each non-overlapping "json" removed in one left-to-right pass, then stripped. The language tag and the text around the block are dropped. |
| Collection.UnfencedJsonBlock | src/agents/SupervisorAgent.py:74-77 | The reply the prompt asks for, a block fenced with ``` and tagged `json` around an object without a fence or "json" in it, yields exactly the stripped object. |
| Collection.UnfencedTrimmed | src/agents/SupervisorAgent.py:74-77 | The text handed to `json.loads` has no whitespace at either end. |
| Collection.MissingFromExactly | src/agents/SupervisorAgent.py:85 | The comprehension lists exactly the keys whose value is absent, null or falsy, in the order of the keys. |
| Collection.MissingExactly | src/agents/SupervisorAgent.py:84-85 | Exactly the required fields that are absent, null or falsy (0, "", false, empty) are missing, in the fixed order origin … budget_per_person. `interests` is never missing, and an empty dictionary misses all six. |
| Collection.BuildRequest | src/agents/SupervisorAgent.py:89-97 | A built request takes origin, destination and both dates as the given strings, `int(num_people)`, `float(budget_per_person)`, and `interests` as given or `None`. Building succeeds exactly when all seven conversions succeed. |
| Collection.CollectInfo | src/agents/SupervisorAgent.py:50-124 | The node sets the next step to "dispatch" or "collect_info", adds exactly one message, and touches neither research nor the failed list. It raises exactly when the extraction call raises, the parsed value is not a dictionary, or the call on the path taken raises: building the request or the confirmation when nothing is missing, the follow-up question otherwise. |
| Collection.CollectOutcome | src/agents/SupervisorAgent.py:78-124 | A returning node parsed a dictionary. It moves on to "dispatch" exactly when it built a request, which it does exactly when every required field is truthy; it then clears the missing list and says the confirmation. Otherwise it stays at "collect_info", reports the non-empty missing list and says the follow-up question. |
| Collection.UnparseableAsksForAll | src/agents/SupervisorAgent.py:78-124 | A reply that does not parse reports all six required fields missing and stays at "collect_info". |
| Collection.NonDictionaryRaises | src/agents/SupervisorAgent.py:78-85 | A reply that parses to something other than a dictionary makes `data.get` raise. |
| AgentCommon.AnyOf | src/agents/FlightsAgent.py:38 | `any(p(x) for x in xs)` holds exactly when some element satisfies `p`. |
| AgentCommon.FailedAfter | src/agents/FlightsAgent.py:45 | The returned failed list keeps the state's list as a prefix. It is unchanged on success and gains exactly the agent's name on failure. |
| AgentCommon.FailureReported | src/agents/FlightsAgent.py:34-45 | A reporting agent adds its name exactly when no attempt's structured result was accepted by its predicate. |
| FlightsAgent.QueryMentions | src/agents/FlightsAgent.py:28-32 | The query names the origin, the destination and both dates. |
| FlightsAgent.QualityIff | src/agents/FlightsAgent.py:38 | The predicate never raises. It accepts exactly the lists holding a flight priced above 0, so an empty list and a list of free flights are rejected. |
| FlightsAgent.Agent | src/agents/FlightsAgent.py:26-46 | The agent raises exactly when the request is missing or the extractor raises. Otherwise it returns the single key "flights" with flight records and a failed list. |
| FlightsAgent.Output | src/agents/FlightsAgent.py:42-46 | Under "flights" are the extracted flights, in order, or [] for `None`. The failed list gains "FlightsAgent" exactly when no attempt was accepted. |
| HotelsAgent.QueryMentions | src/agents/HotelsAgent.py:31-34 | The query names the destination and both dates. |
| HotelsAgent.QualityIff | src/agents/HotelsAgent.py:40 | The intended predicate never raises and accepts exactly the lists holding a hotel with a nightly price above 0. An empty list is rejected. |
| HotelsAgent.AsWrittenNeverAccepts | src/agents/HotelsAgent.py:40 | The predicate as written rejects the empty list and raises on every other one, including one hotel at 120 a night that the intended predicate accepts. |
| HotelsAgent.AgentWith | src/agents/HotelsAgent.py:29-48 | Given a predicate, the agent raises exactly when the request is missing or the extractor raises. Otherwise it returns the single key "hotels" with hotel records and a failed list. |
| HotelsAgent.AsWrittenAlwaysFails | src/agents/HotelsAgent.py:40-47 | As written, every call that returns reports "HotelsAgent" as failed and stores an empty hotel list: only an empty list is ever judged weak. |
| HotelsAgent.Output | src/agents/HotelsAgent.py:44-48 | Under "hotels" are the extracted hotels, in order, or [] for `None`. The failed list gains "HotelsAgent" exactly when no attempt was accepted. |
| RestaurantsAgent.QualityIff | src/agents/RestaurantAgent.py:43 | The predicate never raises and accepts exactly the lists holding a restaurant with a present, non-empty location. An empty list is rejected. |
| RestaurantsAgent.Agent | src/agents/RestaurantAgent.py:28-47 | The agent raises exactly when the request is missing or the extractor raises. Otherwise it returns the single key "restaurants" and no failed list. |
| RestaurantsAgent.Output | src/agents/RestaurantAgent.py:39-47 | Under "restaurants" are the extracted restaurants, in order, or [] for `None`. There is no failed list, whatever the outcome. |
| ActivitiesAgent.QualityIff | src/agents/ActivitiesAgent.py:43 | The predicate never raises and accepts exactly the lists holding an activity with a present, non-empty location. An empty list is rejected. |
| ActivitiesAgent.Agent | src/agents/ActivitiesAgent.py:29-47 | The agent raises exactly when the request is missing or the extractor raises. Otherwise it returns the single key "activities" and no failed list. |
| ActivitiesAgent.Output | src/agents/ActivitiesAgent.py:39-47 | Under "activities" are the extracted activities, in order, or [] for `None`. There is no failed list. |
| EventsAgent.QualityIff | src/agents/EventsAgent.py:42 | The predicate never raises and accepts exactly the lists holding an event with a present, non-empty location. An empty list is rejected. |
| EventsAgent.Agent | src/agents/EventsAgent.py:28-46 | The agent raises exactly when the request is missing or the extractor raises. Otherwise it returns the single key "events" and no failed list. |
| EventsAgent.Output | src/agents/EventsAgent.py:38-46 | Under "events" are the extracted events, in order, or [] for `None`. There is no failed list. |
| TransportationAgent.QueryMentions | src/agents/TransportationAgent.py:31-38 | The query names the destination and the group size in decimal. |
| TransportationAgent.QualityIff | src/agents/TransportationAgent.py:44 | The predicate never raises and accepts exactly the lists holding an option with a non-empty type. An empty list is rejected, and repricing the options never changes the verdict. |
| TransportationAgent.AgentWith | src/agents/TransportationAgent.py:29-52 | Given an output key, the agent raises exactly when the request is missing or the extractor raises. Otherwise it returns that single key with transportation records and a failed list. |
| TransportationAgent.KeysDiffer | src/agents/TransportationAgent.py:49-50 | The key written, "transportation", is not the field name "transportation_options". |
| TransportationAgent.AsWrittenNeverStored | src/agents/TransportationAgent.py:48-50 | As written, the agent's research dictionary lacks "transportation_options", so reading it into ResearchResults gives no transportation options. |
| TransportationAgent.BusLineDropped | src/agents/TransportationAgent.py:49-50 | One bus line stored under "transportation" is dropped; stored under "transportation_options" it is kept. |
| TransportationAgent.Output | src/agents/TransportationAgent.py:48-52 | With the intended key, the single key "transportation_options" holds the extracted options, in order, or [] for `None`. The failed list gains "TransportationAgent" exactly when no attempt was accepted. |
| Research.FromDict | src/models/ResearchResults.py:79-85 | A research dictionary read into ResearchResults gives each field the list stored under its own name, and leaves each field whose key is absent at its default []. |
| Research.Defaults | src/models/ResearchResults.py:5-85 | Activity and event prices default to 0.0 and locations to None. A flight's price is required and its class defaults to "Economy". A hotel's optional fields, a restaurant's location and a transport price default to None. A fresh bundle is empty. |
| Requests.NoValidation | src/models/TripRequest.py:5-12 | Any group size, budget and date order builds a request, and `interests` defaults to None. |
| States.Apply | src/models/TripState.py:8-15 | Folding a node's update into the state appends its messages to the history. Each key the update holds replaces its field, and research is read into a ResearchResults. Keys the update leaves out keep their fields, and the budget breakdown is never written. |
| States.InitialState | src/models/TripState.py:9-15 | A fresh state has no messages, no request, empty research, nothing missing, next step "collect_info", no plan, an empty budget breakdown and an empty failed list. |
| Dispatcher.DispatchNode | src/agents/SupervisorAgent.py:137-150 | The loop returns what `Dispatch` makes of the agents' replies. It merges research with later keys winning, concatenates the failed lists, and stops at the first exception. |
| Dispatcher.MergedRaisesFrom | src/agents/SupervisorAgent.py:143 | Once an agent has raised, the node has raised. |
| Dispatcher.RaisesIffSomeAgentRaises | src/agents/SupervisorAgent.py:141-145 | The node raises exactly when some agent raises. An agent that merely fails does not stop the others. |
| Dispatcher.AllReturn | src/agents/SupervisorAgent.py:141-150 | A node that returns called every agent, and none of them raised. |
| Dispatcher.MergedKeys | src/agents/SupervisorAgent.py:144 | The merged research holds exactly the keys some agent returned. |
| Dispatcher.LastWriterWins | src/agents/SupervisorAgent.py:144 | Under each key is the value of the last agent that returned that key. |
| Dispatcher.FailedConcatenated | src/agents/SupervisorAgent.py:145 | The failed list is the plain concatenation, in agent order, of the agents' failed lists, without de-duplication. |
| Dispatcher.MergeDisjoint | src/agents/SupervisorAgent.py:141-150 | When each agent returns one key of its own, the merged research holds exactly those keys, each with its agent's records. |
| Dispatcher.KeysDistinct | src/agents/SupervisorAgent.py:127-134 | The six agents write six different keys, as written and as intended, and none writes "transportation_options" as written. |
| Dispatcher.FlightsShaped | src/agents/FlightsAgent.py:42-46 | The flights agent replies as the first entry of AGENTS: the key "flights", flight records and a failed list. |
| Dispatcher.HotelsShaped | src/agents/HotelsAgent.py:44-48 | The hotels agent replies as the second entry: the key "hotels", hotel records and a failed list. |
| Dispatcher.RestaurantsShaped | src/agents/RestaurantAgent.py:46-47 | The restaurants agent replies as the third entry: the key "restaurants", restaurant records and no failed list. |
| Dispatcher.ActivitiesShaped | src/agents/ActivitiesAgent.py:46-47 | The activities agent replies as the fourth entry: the key "activities", activity records and no failed list. |
| Dispatcher.EventsShaped | src/agents/EventsAgent.py:45-46 | The events agent replies as the fifth entry: the key "events", event records and no failed list. |
| Dispatcher.TransportationShaped | src/agents/TransportationAgent.py:48-52 | The transportation agent replies as the sixth entry, under "transportation" as written and "transportation_options" as intended, with a failed list. |
| Dispatcher.AgentRepliesShaped | src/agents/SupervisorAgent.py:127-134 | Whatever the state and the outside replies, the six agents of AGENTS reply in the shape of their positions. The hotels and transportation agents here are the corrected ones. |
| Dispatcher.SixFailed | src/agents/SupervisorAgent.py:145-149 | With the six agents of AGENTS, the failed list is the flights list, then the hotels list, then the transportation list. The other three agents add nothing. |
| Dispatcher.SixResearch | src/agents/SupervisorAgent.py:144-148 | With the six agents of AGENTS, the merged research holds exactly the six keys, each with its own agent's records. |
| Dispatcher.StoredResearch | src/agents/SupervisorAgent.py:144-148 | Once stored in the state, each research field holds exactly what its own agent returned. |
| Dispatcher.DispatchStored | src/agents/SupervisorAgent.py:137-150 | The dispatch update replaces research and the failed list, and leaves messages, the request and the next step unchanged. |
| Dispatcher.AsWrittenTransportationLost | src/agents/SupervisorAgent.py:144-148 | As written, the transportation options in the state after dispatch are [], whatever the agent found. |
| Synthesis.ShowRecover | src/agents/SupervisorAgent.py:190-208 | A context section hides nothing: the list can be recovered from it, and the fallback text is shown exactly when the list is empty. |
| Synthesis.InterestsShown | src/agents/SupervisorAgent.py:187 | "not specified" is shown exactly when the interests are missing, empty or that very text; otherwise the interests are shown as given. |
| Synthesis.ContextFaithful | src/agents/SupervisorAgent.py:181-209 | The context carries every research list and the failed list whole. It says "No data" exactly for empty research lists and "None — all agents succeeded" exactly for an empty failed list, and copies the request's fields. |
| Synthesis.SynthesisNode | src/agents/SupervisorAgent.py:176-220 | The node raises exactly when the request is missing or the model call raises. |
| Synthesis.SynthesisOutcome | src/agents/SupervisorAgent.py:216-220 | After the node, the final plan is the model's reply, which is also appended as the one new message. The next step is "done", and the request, research and failed list are unchanged. |
| Graph.RouteAfterCollection | src/agents/SupervisorAgent.py:223-226 | The route is "dispatch" if and only if the next step is "dispatch", and "collect_info" otherwise. |
| Graph.SuccessorIsEdge | src/agents/SupervisorAgent.py:238-254 | Every move the graph makes follows one of its edges, and from collect_info it moves to dispatch exactly when the state says so. |
| Graph.EndIsLast | src/agents/SupervisorAgent.py:254 | No edge leaves END, so a walk meets it only at its end. |
| Graph.EndOnlyThroughResearch | src/agents/SupervisorAgent.py:241-254 | A walk from collect_info to END ends with dispatch, synthesis and END and visits only collect_info before that. Collection cannot finish other than through dispatch and synthesis. |
| Graph.StartToEnd | src/agents/SupervisorAgent.py:238-254 | A walk from START to END is START, one or more collect_info, then dispatch, synthesis and END. |
| Graph.CollectThenRoute | src/agents/SupervisorAgent.py:84-226 | After a returning collection step, the graph moves to dispatch exactly when a request was built, that is exactly when every required field is truthy. |
| Graph.TransportationReachesSynthesis | src/agents/SupervisorAgent.py:144-208 | When dispatch returns and the transportation agent stores its options under "transportation" as written, the synthesis context says "No data" for transportation. With the intended key it shows exactly the transportation agent's options. |

## Left out

- The language-model and web-search calls themselves, including `with_structured_output`, the system prompts and ChatOllama/Gemini. They are inputs: oracles for the extractor, and `Reply` values for the supervisor. The search wrapper is taken at its contract: it returns text and never raises. The extractor calls it as `web_search_tool` while the module defines `search_web`; src/tools/web_search_tool.py is not part of this model beyond that contract.
- Extraction.Oracles: the two extractor model oracles are indexed by what goes into their prompts, not by the prompt text. `Extraction.OverPrompts` shows that prompt-text oracles are a special case.
- `json.loads` is the `parse` input. Its decode error is `None`.
- Collection.BuildRequest: `int()` of a JSON string and `float()` of a JSON string raise here. Python would convert numeric strings. Pydantic's coercion of non-string values into `str` fields is also not modelled: such values raise.
- Text.IsSpace: the whitespace `strip()` removes is modelled as the ASCII characters `str.isspace()` accepts: space, tab through carriage return, and the separators 0x1C to 0x1F. Non-ASCII whitespace such as U+0085, U+00A0 and U+2028 is not covered.
- The prompt text of the synthesis call. The context is kept structured (`Synthesis.Context`). How Python prints a list into the f-string is not modelled.
- RestaurantsAgent.Agent, ActivitiesAgent.Agent and EventsAgent.Agent take their query as opaque text. In the code each query is a Python set literal holding one f-string, not a string. The restaurants and activities f-strings also read `req.group_size`, which TripRequest does not have, so as written they raise AttributeError before the extractor is called. The model assumes a query was built.
- Dispatcher.DispatchNode is generic over a list of named agent functions. The concrete six agents are related to it through `Dispatcher.AgentReplies`, which calls them directly in AGENTS order, rather than through a list of closures. For the hotels and transportation agents it calls the corrected `HotelsAgent.Agent` and `TransportationAgent.Agent`, not the as-written forms in AGENTS; those are `HotelsAgent.AgentAsWritten` and `TransportationAgent.AgentAsWritten`.
- The graph runtime (LangGraph's `compile`, `Send`, the recursion limit, state reducers other than the message append), `print` logging, and the FastAPI layer in src/app/main.py. Only the edge structure and the node functions are modelled.
- Floating-point prices and budgets are reals. They are only compared with 0.
- The "at most 5 options" rule and the budget rules exist only in prompt text. No code enforces them, so no bound is stated.
- `budget_breakdown` is never computed. The model only keeps it unchanged.
- Messages are stored as plain AI/human contents. The message-id merging of LangGraph's `add_messages` is reduced to appending.

## Findings

| source | as written | input that shows it | evidently intended | confidence | as-written member | corrected member |
|---|---|---|---|---|---|---|
| src/agents/HotelsAgent.py:40 | The predicate reads `f.price`, but HotelOption has only `price_per_night`. Every non-empty hotel list raises AttributeError, so the extractor never accepts a result and the agent always reports failure. | `HotelResults([HotelOption("Harbour Inn", "Old Town", 120.0)])` | Accept a list when some hotel has `price_per_night > 0` | not executed | HotelsAgent.AsWrittenNeverAccepts, HotelsAgent.AsWrittenAlwaysFails | HotelsAgent.QualityIff, HotelsAgent.Output |
| src/agents/TransportationAgent.py:49-50 | The options are stored under "transportation", which names no ResearchResults field. They are dropped when the state is updated, so synthesis would see "No data". As written, dispatch does not get that far: `restaurants_agent` comes earlier in the agent list and raises on `req.group_size`, and `TripState` has no `failed_agents`. The consequence holds once those two are bridged, with the location agents' queries taken as built. | The agent returns one bus line: `{"transportation": [bus]}` | Store under "transportation_options" | not executed | TransportationAgent.BusLineDropped, Dispatcher.AsWrittenTransportationLost | TransportationAgent.Output, Dispatcher.StoredResearch, Graph.TransportationReachesSynthesis |
