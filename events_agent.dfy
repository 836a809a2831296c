/** src/agents/EventsAgent.py: the events researcher. It accepts an extraction
    that lists at least one event with a non-empty location and stores the
    events under "events". It passes no agent name and returns no
    `failed_agents` key, so its failures never reach the failed list. The
    query is a Python set holding one f-string; the model takes
    it as opaque text. */
module EventsAgent {
  import opened Wrappers
  import opened Research
  import opened States
  import opened Extraction
  import opened AgentCommon

  /** The structured-output schema `EventResults`. */
  datatype EventResults = EventResults(events: seq<EventOption>)

  /** `is_good_result`: the list is non-empty and some event has a truthy location. */
  function Quality(r: EventResults): Reply<bool> {
    Returns(|r.events| > 0 && AnyOf(r.events, (x: EventOption) => Truthy(x.location)))
  }

  /** The predicate never raises; it accepts exactly the lists holding an event
      whose location is present and not empty; an empty list is rejected. */
  lemma QualityIff(r: EventResults)
    ensures Quality(r).Returns?
    ensures Quality(r).value <==> exists x :: x in r.events && x.location.Some? && x.location.value != ""
    ensures r.events == [] ==> !Quality(r).value
  {
    if exists x :: x in r.events && x.location.Some? && x.location.value != "" {
      var x :| x in r.events && x.location.Some? && x.location.value != "";
      var i :| 0 <= i < |r.events| && r.events[i] == x;
      assert Truthy(r.events[i].location);
    }
  }

  /** `events_agent(state)`, searching with `query`: an exception from reading the
      missing request or escaping the extractor propagates; otherwise the
      research dictionary has the events of the extracted result, or [] when
      there was none. */
  function Agent(state: TripState, query: string, o: Oracles<EventResults>): (r: Reply<Update>)
    ensures r.Raises? <==> state.tripRequest.None? || Extract(query, Quality, o, NoAgentName).Escaped?
    ensures r.Returns? ==> (r.value.research.Some? && r.value.research.value.Keys == {EventsKey}
      && r.value.research.value[EventsKey].EventList?
      && r.value.failedAgents.None?)
  {
    if state.tripRequest.None? then Raises
    else
      match Extract(query, Quality, o, NoAgentName)
      case Escaped => Raises
      case Finished(out) =>
        Returns(Update(research := Some(map[EventsKey := EventList(if out.records.Some? then out.records.value.events else [])])))
  }

  /** What the agent returns: a research dictionary with the single key
      "events" holding, in order, the events of the value the extractor
      returned, or [] when it returned None, and no failed list whatever the
      outcome. */
  lemma Output(state: TripState, query: string, o: Oracles<EventResults>)
    requires Agent(state, query, o).Returns?
    ensures var u := Agent(state, query, o).value;
      && u.research.Some? && u.research.value.Keys == {EventsKey}
      && u.research.value[EventsKey]
           == EventList(match PythonResult(RunExtract(o, Quality, query).exit)
                      case Returns(Some(r)) => r.events
                      case _ => [])
      && u.failedAgents == None
  {
    OutcomeMatchesPython(query, Quality, o, NoAgentName);
  }
}
