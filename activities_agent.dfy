/** src/agents/ActivitiesAgent.py: the activities researcher. It accepts an extraction
    that lists at least one activity with a non-empty location and stores the
    activities under "activities". It passes no agent name and returns no
    `failed_agents` key, so its failures never reach the failed list. The
    query is a Python set holding one f-string that reads `req.group_size`,
    a field TripRequest does not have; the model takes it as opaque text. */
module ActivitiesAgent {
  import opened Wrappers
  import opened Research
  import opened States
  import opened Extraction
  import opened AgentCommon

  /** The structured-output schema `ActivityResults`. */
  datatype ActivityResults = ActivityResults(activities: seq<ActivityOption>)

  /** `is_good_result`: the list is non-empty and some activity has a truthy location. */
  function Quality(r: ActivityResults): Reply<bool> {
    Returns(|r.activities| > 0 && AnyOf(r.activities, (x: ActivityOption) => Truthy(x.location)))
  }

  /** The predicate never raises; it accepts exactly the lists holding an activity
      whose location is present and not empty; an empty list is rejected. */
  lemma QualityIff(r: ActivityResults)
    ensures Quality(r).Returns?
    ensures Quality(r).value <==> exists x :: x in r.activities && x.location.Some? && x.location.value != ""
    ensures r.activities == [] ==> !Quality(r).value
  {
    if exists x :: x in r.activities && x.location.Some? && x.location.value != "" {
      var x :| x in r.activities && x.location.Some? && x.location.value != "";
      var i :| 0 <= i < |r.activities| && r.activities[i] == x;
      assert Truthy(r.activities[i].location);
    }
  }

  /** `activities_agent(state)`, searching with `query`: an exception from reading the
      missing request or escaping the extractor propagates; otherwise the
      research dictionary has the activities of the extracted result, or [] when
      there was none. */
  function Agent(state: TripState, query: string, o: Oracles<ActivityResults>): (r: Reply<Update>)
    ensures r.Raises? <==> state.tripRequest.None? || Extract(query, Quality, o, NoAgentName).Escaped?
    ensures r.Returns? ==> (r.value.research.Some? && r.value.research.value.Keys == {ActivitiesKey}
      && r.value.research.value[ActivitiesKey].ActivityList?
      && r.value.failedAgents.None?)
  {
    if state.tripRequest.None? then Raises
    else
      match Extract(query, Quality, o, NoAgentName)
      case Escaped => Raises
      case Finished(out) =>
        Returns(Update(research := Some(map[ActivitiesKey := ActivityList(if out.records.Some? then out.records.value.activities else [])])))
  }

  /** What the agent returns: a research dictionary with the single key
      "activities" holding, in order, the activities of the value the extractor
      returned, or [] when it returned None, and no failed list whatever the
      outcome. */
  lemma Output(state: TripState, query: string, o: Oracles<ActivityResults>)
    requires Agent(state, query, o).Returns?
    ensures var u := Agent(state, query, o).value;
      && u.research.Some? && u.research.value.Keys == {ActivitiesKey}
      && u.research.value[ActivitiesKey]
           == ActivityList(match PythonResult(RunExtract(o, Quality, query).exit)
                      case Returns(Some(r)) => r.activities
                      case _ => [])
      && u.failedAgents == None
  {
    OutcomeMatchesPython(query, Quality, o, NoAgentName);
  }
}
