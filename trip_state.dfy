/** src/models/TripState.py: the session record, and how a node's returned
    dictionary is folded into it. The Python class has no `failed_agents`
    field although the supervisor and three agents read and write one; the
    model adds it as `failedAgents`, starting empty. */
module States {
  import opened Wrappers
  import opened Requests
  import opened Research

  datatype Message = HumanMessage(content: string) | AIMessage(content: string)

  /** The values the nodes write into `next_step` (the field itself is a free string). */
  const CollectInfoStep := "collect_info"
  const DispatchStep := "dispatch"
  const DoneStep := "done"

  datatype TripState = TripState(
    messages: seq<Message> := [],
    tripRequest: Option<TripRequest> := None,
    research: ResearchResults := ResearchResults(),
    missingFields: seq<string> := [],
    nextStep: string := CollectInfoStep,
    finalPlan: Option<string> := None,
    budgetBreakdown: map<string, real> := map[],
    failedAgents: seq<string> := [])

  /** The dictionary a node returns. A key the node leaves out is `None` here
      (or `[]` for `messages`), and leaves the state's field as it was. */
  datatype Update = Update(
    messages: seq<Message> := [],
    tripRequest: Option<TripRequest> := None,
    research: Option<map<string, Records>> := None,
    missingFields: Option<seq<string>> := None,
    nextStep: Option<string> := None,
    finalPlan: Option<string> := None,
    failedAgents: Option<seq<string>> := None)

  /** The state after a node's update: `messages` goes through the appending
      reducer, every other key present replaces its field, and the research
      dictionary is read into a ResearchResults. */
  function Apply(s: TripState, u: Update): (t: TripState)
    ensures s.messages <= t.messages && t.messages[|s.messages|..] == u.messages
    ensures u.tripRequest.None? ==> t.tripRequest == s.tripRequest
    ensures u.research.None? ==> t.research == s.research
    ensures u.nextStep.None? ==> t.nextStep == s.nextStep
    ensures u.missingFields.None? ==> t.missingFields == s.missingFields
    ensures u.finalPlan.None? ==> t.finalPlan == s.finalPlan
    ensures u.failedAgents.None? ==> t.failedAgents == s.failedAgents
    ensures u.tripRequest.Some? ==> t.tripRequest == u.tripRequest
    ensures u.research.Some? ==> t.research == FromDict(u.research.value)
    ensures u.missingFields.Some? ==> t.missingFields == u.missingFields.value
    ensures u.nextStep.Some? ==> t.nextStep == u.nextStep.value
    ensures u.finalPlan.Some? ==> t.finalPlan == u.finalPlan
    ensures u.failedAgents.Some? ==> t.failedAgents == u.failedAgents.value
    ensures t.budgetBreakdown == s.budgetBreakdown
  {
    TripState(
      messages := s.messages + u.messages,
      tripRequest := if u.tripRequest.Some? then u.tripRequest else s.tripRequest,
      research := if u.research.Some? then FromDict(u.research.value) else s.research,
      missingFields := u.missingFields.GetOr(s.missingFields),
      nextStep := u.nextStep.GetOr(s.nextStep),
      finalPlan := if u.finalPlan.Some? then u.finalPlan else s.finalPlan,
      budgetBreakdown := s.budgetBreakdown,
      failedAgents := u.failedAgents.GetOr(s.failedAgents))
  }

  /** A fresh session: no messages, no request, empty research, nothing
      missing, next step "collect_info", no plan, an empty budget breakdown. */
  lemma InitialState()
    ensures var s := TripState();
      s.messages == [] && s.tripRequest == None && s.missingFields == []
      && s.nextStep == "collect_info" && s.finalPlan == None
      && s.budgetBreakdown == map[] && s.failedAgents == []
      && s.research == ResearchResults()
      && s.research.flights == [] && s.research.transportationOptions == []
  {
  }
}
