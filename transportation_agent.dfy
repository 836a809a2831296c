/** src/agents/TransportationAgent.py: the local-transport researcher. It
    accepts an extraction that lists at least one option with a non-empty
    `type` (price and times play no part) and reports itself as failed when
    no extraction was accepted. As written it stores the options under
    "transportation", which names no ResearchResults field (that is
    `transportation_options`); `AgentAsWritten` models that, and `Agent`
    stores them under the field name, as evidently intended. */
module TransportationAgent {
  import opened Wrappers
  import opened Text
  import opened Research
  import opened Requests
  import opened States
  import opened Extraction
  import opened AgentCommon

  /** The structured-output schema `TransportationResults`. */
  datatype TransportationResults = TransportationResults(transportationOptions: seq<TransportationOption>)

  const AgentName: string := "TransportationAgent"

  /** The key the agent writes its options under. */
  const OutputKey: string := "transportation"

  /** The fixed text around the request's fields in the search query. */
  const QueryStart: string := "\n        Find local transportation options in "
  const QueryMiddle: string := ".\n        Look for public transportation (metro, buses, trains), taxis, rideshare services, and other transit options.\n        Include pricing, routes, schedules, and booking URLs if available.\n        Focus on transportation within the city and options for getting around during the trip.\n        Look for options that are suitable for a group of "
  const QueryEnd: string :=
    " people. \n        If not, just provide general transportation options available in the city.\n        "

  /** The search query: the destination and the group size, in decimal, in fixed text. */
  function Query(req: TripRequest): string {
    QueryStart + req.destination + QueryMiddle + Decimal(req.numPeople) + QueryEnd
  }

  /** The query names the destination and the group size. */
  lemma QueryMentions(req: TripRequest)
    ensures Contains(Query(req), req.destination) && Contains(Query(req), Decimal(req.numPeople))
  {
    ContainsTwoHoles(QueryStart, req.destination, QueryMiddle, Decimal(req.numPeople), QueryEnd);
  }

  /** `is_good_result`: the list is non-empty and some option has a truthy `type`. */
  function Quality(r: TransportationResults): Reply<bool> {
    Returns(|r.transportationOptions| > 0 && AnyOf(r.transportationOptions, (x: TransportationOption) => x.kind != ""))
  }

  /** The predicate never raises and accepts exactly the lists holding an
      option with a non-empty `type`, whatever the prices; an empty list is
      rejected. */
  lemma QualityIff(r: TransportationResults)
    ensures Quality(r).Returns?
    ensures Quality(r).value <==> exists x :: x in r.transportationOptions && x.kind != ""
    ensures r.transportationOptions == [] ==> !Quality(r).value
    ensures forall prices: seq<Option<real>> :: |prices| == |r.transportationOptions| ==>
      Quality(TransportationResults(Repriced(r.transportationOptions, prices))) == Quality(r)
  {
    if exists x :: x in r.transportationOptions && x.kind != "" {
      var x :| x in r.transportationOptions && x.kind != "";
      var i :| 0 <= i < |r.transportationOptions| && r.transportationOptions[i] == x;
    }
    forall prices: seq<Option<real>> | |prices| == |r.transportationOptions|
      ensures Quality(TransportationResults(Repriced(r.transportationOptions, prices))) == Quality(r)
    {
      var xs := r.transportationOptions;
      var ys := Repriced(xs, prices);
      assert forall i :: 0 <= i < |xs| ==> (ys[i].kind != "" <==> xs[i].kind != "");
    }
  }

  /** The options with their prices replaced, one by one. */
  function Repriced(xs: seq<TransportationOption>, prices: seq<Option<real>>): (ys: seq<TransportationOption>)
    requires |prices| == |xs|
    ensures |ys| == |xs|
    ensures forall i :: 0 <= i < |xs| ==> ys[i] == xs[i].(price := prices[i])
  {
    seq(|xs|, i requires 0 <= i < |xs| => xs[i].(price := prices[i]))
  }

  /** `transportation_agent(state)`, storing its options under `key`: an
      exception from reading the missing request or escaping the extractor
      propagates; otherwise the research dictionary has the options of the
      extracted result, or [] when there was none, and the failed list is
      extended on failure. */
  function AgentWith(state: TripState, o: Oracles<TransportationResults>, key: string): (r: Reply<Update>)
    ensures r.Raises? <==> state.tripRequest.None? || Extract(Query(state.tripRequest.value), Quality, o, AgentName).Escaped?
    ensures r.Returns? ==> (r.value.research.Some? && r.value.research.value.Keys == {key}
      && r.value.research.value[key].TransportationList? && r.value.failedAgents.Some?)
  {
    match state.tripRequest
    case None => Raises
    case Some(req) =>
      match Extract(Query(req), Quality, o, AgentName)
      case Escaped => Raises
      case Finished(out) =>
        Returns(Update(
          research := Some(map[key := TransportationList(
            if out.records.Some? then out.records.value.transportationOptions else [])]),
          failedAgents := Some(FailedAfter(state.failedAgents, out))))
  }

  /** The agent as written, storing under "transportation". */
  function AgentAsWritten(state: TripState, o: Oracles<TransportationResults>): Reply<Update> {
    AgentWith(state, o, OutputKey)
  }

  /** The agent storing under the ResearchResults field name, as evidently intended. */
  function Agent(state: TripState, o: Oracles<TransportationResults>): Reply<Update> {
    AgentWith(state, o, TransportationKey)
  }

  /** The two keys differ. */
  lemma KeysDiffer()
    ensures TransportationKey != OutputKey
  {
    assert |TransportationKey| != |OutputKey|;
  }

  /** As written, what the agent returns never reaches the state: the key it
      writes names no ResearchResults field, so the stored transportation
      options are [] whatever the search found. */
  lemma AsWrittenNeverStored(state: TripState, o: Oracles<TransportationResults>)
    requires AgentAsWritten(state, o).Returns?
    ensures var research := AgentAsWritten(state, o).value.research.value;
      TransportationKey !in research && FromDict(research).transportationOptions == []
  {
    KeysDiffer();
  }

  /** One bus line stored under "transportation" is dropped; stored under
      "transportation_options" it is kept. */
  lemma BusLineDropped()
    ensures var bus := TransportationList([TransportationOption("bus")]);
      && FromDict(map[OutputKey := bus]).transportationOptions == []
      && FromDict(map[TransportationKey := bus]).transportationOptions == [TransportationOption("bus")]
  {
    KeysDiffer();
  }

  /** What the agent returns: a research dictionary with the single key
      "transportation_options" holding, in order, the options of the value the
      extractor returned, or [] when it returned None; and the failed list
      extended with "TransportationAgent" exactly when no attempt's structured
      result held an option with a type. */
  lemma Output(state: TripState, o: Oracles<TransportationResults>)
    requires Agent(state, o).Returns?
    ensures var u := Agent(state, o).value;
      var query := Query(state.tripRequest.value);
      var t := RunExtract(o, Quality, query).trace;
      && u.research.Some? && u.research.value.Keys == {TransportationKey}
      && u.research.value[TransportationKey]
           == TransportationList(match PythonResult(RunExtract(o, Quality, query).exit)
                                 case Returns(Some(r)) => r.transportationOptions
                                 case _ => [])
      && u.failedAgents
           == Some(if exists i :: 0 <= i < |t| && Accepted(o, Quality, i, t[i].raw)
                   then state.failedAgents else state.failedAgents + [AgentName])
  {
    var query := Query(state.tripRequest.value);
    OutcomeMatchesPython(query, Quality, o, AgentName);
    FailureReported(state.failedAgents, query, Quality, o, AgentName);
  }
}
