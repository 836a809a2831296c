/** src/agents/FlightsAgent.py: the flight researcher. It searches with a
    query built from the request, accepts an extraction that lists at least
    one flight with a positive price, stores the flights under "flights" and
    reports itself as failed when no extraction was accepted. */
module FlightsAgent {
  import opened Wrappers
  import opened Text
  import opened Research
  import opened Requests
  import opened States
  import opened Extraction
  import opened AgentCommon

  /** The structured-output schema `FlightResults`. */
  datatype FlightResults = FlightResults(flights: seq<FlightOption>)

  const AgentName: string := "FlightsAgent"

  /** The fixed text around the request's fields in the search query. */
  const QueryStart: string := "\n        Find flights from "
  const QueryTo: string := " to "
  const QueryDeparting: string := "\n        departing around "
  const QueryReturning: string := " and returning around "
  const QueryEnd: string := "\n        show a range of prices and airlines, and include booking URLs if available.\n        "

  /** The search query: the request's origin, destination and dates in fixed text. */
  function Query(req: TripRequest): string {
    QueryStart + req.origin + QueryTo + req.destination
    + QueryDeparting + req.startDate + QueryReturning + req.endDate + QueryEnd
  }

  /** The query names the origin, the destination and both dates. */
  lemma QueryMentions(req: TripRequest)
    ensures Contains(Query(req), req.origin) && Contains(Query(req), req.destination)
    ensures Contains(Query(req), req.startDate) && Contains(Query(req), req.endDate)
  {
    ContainsFourHoles(QueryStart, req.origin, QueryTo, req.destination,
                      QueryDeparting, req.startDate, QueryReturning, req.endDate, QueryEnd);
  }

  /** `is_good_result`: the list is non-empty and some flight costs more than 0. */
  function Quality(r: FlightResults): Reply<bool> {
    Returns(|r.flights| > 0 && AnyOf(r.flights, (f: FlightOption) => f.price > 0.0))
  }

  /** The predicate never raises; it accepts exactly the lists holding a flight
      with a positive price, so an empty list and a list of free flights are
      both rejected. */
  lemma QualityIff(r: FlightResults)
    ensures Quality(r).Returns?
    ensures Quality(r).value <==> exists f :: f in r.flights && f.price > 0.0
    ensures r.flights == [] ==> !Quality(r).value
    ensures (forall f :: f in r.flights ==> f.price == 0.0) ==> !Quality(r).value
  {
    if exists f :: f in r.flights && f.price > 0.0 {
      var f :| f in r.flights && f.price > 0.0;
      var i :| 0 <= i < |r.flights| && r.flights[i] == f;
    }
  }

  /** `flights_agent(state)`: an exception from reading the missing request or
      escaping the extractor propagates; otherwise the research dictionary has
      the flights of the extracted result, or [] when there was none, and the
      failed list is extended on failure. */
  function Agent(state: TripState, o: Oracles<FlightResults>): (r: Reply<Update>)
    ensures r.Raises? <==> state.tripRequest.None? || Extract(Query(state.tripRequest.value), Quality, o, AgentName).Escaped?
    ensures r.Returns? ==> (r.value.research.Some? && r.value.research.value.Keys == {FlightsKey}
      && r.value.research.value[FlightsKey].FlightList?
      && r.value.failedAgents.Some?)
  {
    match state.tripRequest
    case None => Raises
    case Some(req) =>
      match Extract(Query(req), Quality, o, AgentName)
      case Escaped => Raises
      case Finished(out) =>
        Returns(Update(
          research := Some(map[FlightsKey := FlightList(if out.records.Some? then out.records.value.flights else [])]),
          failedAgents := Some(FailedAfter(state.failedAgents, out))))
  }

  /** What the agent returns: a research dictionary with the single key
      "flights" holding, in order, the flights of the value the extractor
      returned, or [] when it returned None; and the failed list extended
      with "FlightsAgent" exactly when no attempt's structured result held a
      flight with a positive price. */
  lemma Output(state: TripState, o: Oracles<FlightResults>)
    requires Agent(state, o).Returns?
    ensures var u := Agent(state, o).value;
      var query := Query(state.tripRequest.value);
      var t := RunExtract(o, Quality, query).trace;
      && u.research.Some? && u.research.value.Keys == {FlightsKey}
      && u.research.value[FlightsKey]
           == FlightList(match PythonResult(RunExtract(o, Quality, query).exit)
                         case Returns(Some(r)) => r.flights
                         case _ => [])
      && u.failedAgents
           == Some(if exists i :: 0 <= i < |t| && Accepted(o, Quality, i, t[i].raw)
                   then state.failedAgents else state.failedAgents + [AgentName])
  {
    var query := Query(state.tripRequest.value);
    OutcomeMatchesPython(query, Quality, o, AgentName);
    FailureReported(state.failedAgents, query, Quality, o, AgentName);
  }
}
