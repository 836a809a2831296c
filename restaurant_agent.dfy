/** src/agents/RestaurantAgent.py: the restaurant researcher. It accepts an extraction
    that lists at least one restaurant with a non-empty location and stores the
    restaurants under "restaurants". It passes no agent name and returns no
    `failed_agents` key, so its failures never reach the failed list. The
    query is a Python set holding one f-string that reads `req.group_size`,
    a field TripRequest does not have; the model takes it as opaque text. */
module RestaurantsAgent {
  import opened Wrappers
  import opened Research
  import opened States
  import opened Extraction
  import opened AgentCommon

  /** The structured-output schema `RestaurantResults`. */
  datatype RestaurantResults = RestaurantResults(restaurants: seq<RestaurantOption>)

  /** `is_good_result`: the list is non-empty and some restaurant has a truthy location. */
  function Quality(r: RestaurantResults): Reply<bool> {
    Returns(|r.restaurants| > 0 && AnyOf(r.restaurants, (x: RestaurantOption) => Truthy(x.location)))
  }

  /** The predicate never raises; it accepts exactly the lists holding a restaurant
      whose location is present and not empty; an empty list is rejected. */
  lemma QualityIff(r: RestaurantResults)
    ensures Quality(r).Returns?
    ensures Quality(r).value <==> exists x :: x in r.restaurants && x.location.Some? && x.location.value != ""
    ensures r.restaurants == [] ==> !Quality(r).value
  {
    if exists x :: x in r.restaurants && x.location.Some? && x.location.value != "" {
      var x :| x in r.restaurants && x.location.Some? && x.location.value != "";
      var i :| 0 <= i < |r.restaurants| && r.restaurants[i] == x;
      assert Truthy(r.restaurants[i].location);
    }
  }

  /** `restaurants_agent(state)`, searching with `query`: an exception from reading the
      missing request or escaping the extractor propagates; otherwise the
      research dictionary has the restaurants of the extracted result, or [] when
      there was none. */
  function Agent(state: TripState, query: string, o: Oracles<RestaurantResults>): (r: Reply<Update>)
    ensures r.Raises? <==> state.tripRequest.None? || Extract(query, Quality, o, NoAgentName).Escaped?
    ensures r.Returns? ==> (r.value.research.Some? && r.value.research.value.Keys == {RestaurantsKey}
      && r.value.research.value[RestaurantsKey].RestaurantList?
      && r.value.failedAgents.None?)
  {
    if state.tripRequest.None? then Raises
    else
      match Extract(query, Quality, o, NoAgentName)
      case Escaped => Raises
      case Finished(out) =>
        Returns(Update(research := Some(map[RestaurantsKey := RestaurantList(if out.records.Some? then out.records.value.restaurants else [])])))
  }

  /** What the agent returns: a research dictionary with the single key
      "restaurants" holding, in order, the restaurants of the value the extractor
      returned, or [] when it returned None, and no failed list whatever the
      outcome. */
  lemma Output(state: TripState, query: string, o: Oracles<RestaurantResults>)
    requires Agent(state, query, o).Returns?
    ensures var u := Agent(state, query, o).value;
      && u.research.Some? && u.research.value.Keys == {RestaurantsKey}
      && u.research.value[RestaurantsKey]
           == RestaurantList(match PythonResult(RunExtract(o, Quality, query).exit)
                      case Returns(Some(r)) => r.restaurants
                      case _ => [])
      && u.failedAgents == None
  {
    OutcomeMatchesPython(query, Quality, o, NoAgentName);
  }
}
