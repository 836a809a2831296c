/** src/agents/HotelsAgent.py: the accommodation researcher. Its quality
    predicate reads `f.price` of each hotel, a field HotelOption does not have
    (it has `price_per_night`); `QualityAsWritten` models that predicate and
    `Quality` the evidently intended one, which the agent uses. */
module HotelsAgent {
  import opened Wrappers
  import opened Text
  import opened Research
  import opened Requests
  import opened States
  import opened Extraction
  import opened AgentCommon

  /** The structured-output schema `HotelResults`. */
  datatype HotelResults = HotelResults(hotels: seq<HotelOption>)

  const AgentName: string := "HotelsAgent"

  /** The fixed text around the request's fields in the search query. */
  const QueryStart: string := "\n        Find accommodations in "
  const QueryAround: string := ". Look for Hotels, well-rated hostels, and Airbnbs that are available around "
  const QueryTo: string := " to "
  const QueryEnd: string := ".\n        show a range of prices and options, and include booking URLs if available.\n        "

  /** The search query: the destination and the dates in fixed text. */
  function Query(req: TripRequest): string {
    QueryStart + req.destination + QueryAround + req.startDate + QueryTo + req.endDate + QueryEnd
  }

  /** The query names the destination and both dates. */
  lemma QueryMentions(req: TripRequest)
    ensures Contains(Query(req), req.destination)
    ensures Contains(Query(req), req.startDate) && Contains(Query(req), req.endDate)
  {
    ContainsFourHoles(QueryStart, req.destination, QueryAround, req.startDate,
                      QueryTo, req.endDate, QueryEnd, "", "");
    assert Query(req) == QueryStart + req.destination + QueryAround + req.startDate
                         + QueryTo + req.endDate + QueryEnd + "" + "";
  }

  /** `is_good_result` as written: an empty list is rejected, and on any other
      list `any` reads `price` of the first hotel, which raises AttributeError. */
  function QualityAsWritten(r: HotelResults): Reply<bool> {
    if r.hotels == [] then Returns(false) else Raises
  }

  /** The predicate as evidently intended: the list is non-empty and some hotel
      has a positive `price_per_night`. */
  function Quality(r: HotelResults): Reply<bool> {
    Returns(|r.hotels| > 0 && AnyOf(r.hotels, (h: HotelOption) => h.pricePerNight > 0.0))
  }

  /** The intended predicate never raises and accepts exactly the lists holding
      a hotel with a positive nightly price; an empty list is rejected. */
  lemma QualityIff(r: HotelResults)
    ensures Quality(r).Returns?
    ensures Quality(r).value <==> exists h :: h in r.hotels && h.pricePerNight > 0.0
    ensures r.hotels == [] ==> !Quality(r).value
  {
    if exists h :: h in r.hotels && h.pricePerNight > 0.0 {
      var h :| h in r.hotels && h.pricePerNight > 0.0;
      var i :| 0 <= i < |r.hotels| && r.hotels[i] == h;
    }
  }

  /** The predicate as written never accepts: it rejects the empty list and
      raises on every other one, a hotel of 120 a night included. */
  lemma AsWrittenNeverAccepts(r: HotelResults)
    ensures QualityAsWritten(r) != Returns(true)
    ensures r.hotels != [] ==> QualityAsWritten(r).Raises?
    ensures var one := HotelResults([HotelOption("Harbour Inn", "Old Town", 120.0)]);
      QualityAsWritten(one) == Raises && Quality(one) == Returns(true)
  {
    var one := HotelResults([HotelOption("Harbour Inn", "Old Town", 120.0)]);
    assert one.hotels[0].pricePerNight > 0.0;
  }

  /** `hotels_agent(state)` run with a given quality predicate. */
  function AgentWith(state: TripState, o: Oracles<HotelResults>, quality: HotelResults -> Reply<bool>): (r: Reply<Update>)
    ensures r.Raises? <==> state.tripRequest.None? || Extract(Query(state.tripRequest.value), quality, o, AgentName).Escaped?
    ensures r.Returns? ==> (r.value.research.Some? && r.value.research.value.Keys == {HotelsKey}
      && r.value.research.value[HotelsKey].HotelList?
      && r.value.failedAgents.Some?)
  {
    match state.tripRequest
    case None => Raises
    case Some(req) =>
      match Extract(Query(req), quality, o, AgentName)
      case Escaped => Raises
      case Finished(out) =>
        Returns(Update(
          research := Some(map[HotelsKey := HotelList(if out.records.Some? then out.records.value.hotels else [])]),
          failedAgents := Some(FailedAfter(state.failedAgents, out))))
  }

  /** The agent as written. */
  function AgentAsWritten(state: TripState, o: Oracles<HotelResults>): Reply<Update> {
    AgentWith(state, o, QualityAsWritten)
  }

  /** The agent with the intended predicate. */
  function Agent(state: TripState, o: Oracles<HotelResults>): Reply<Update> {
    AgentWith(state, o, Quality)
  }

  /** As written, the agent reports itself failed on every call that returns,
      whatever the search and the models reply, and stores no hotel: only an
      empty list is ever judged weak, and a non-empty one raises. */
  lemma AsWrittenAlwaysFails(state: TripState, o: Oracles<HotelResults>)
    requires AgentAsWritten(state, o).Returns?
    ensures AgentAsWritten(state, o).value.failedAgents == Some(state.failedAgents + [AgentName])
    ensures AgentAsWritten(state, o).value.research == Some(map[HotelsKey := HotelList([])])
  {
    var query := Query(state.tripRequest.value);
    forall r ensures QualityAsWritten(r) != Returns(true) {
      AsWrittenNeverAccepts(r);
    }
    NeverAcceptedNeverSucceeds(o, QualityAsWritten, query, AgentName);
    FirstGoodReturned(o, QualityAsWritten, query);
    ExhaustedResultWasWeak(o, QualityAsWritten, query);
  }

  /** What the agent returns: a research dictionary with the single key
      "hotels" holding, in order, the hotels of the value the extractor
      returned, or [] when it returned None; and the failed list extended with
      "HotelsAgent" exactly when no attempt's structured result held a hotel
      with a positive nightly price. */
  lemma Output(state: TripState, o: Oracles<HotelResults>)
    requires Agent(state, o).Returns?
    ensures var u := Agent(state, o).value;
      var query := Query(state.tripRequest.value);
      var t := RunExtract(o, Quality, query).trace;
      && u.research.Some? && u.research.value.Keys == {HotelsKey}
      && u.research.value[HotelsKey]
           == HotelList(match PythonResult(RunExtract(o, Quality, query).exit)
                        case Returns(Some(r)) => r.hotels
                        case _ => [])
      && u.failedAgents
           == Some(if exists i :: 0 <= i < |t| && Accepted(o, Quality, i, t[i].raw)
                   then state.failedAgents else state.failedAgents + [AgentName])
  {
    var query := Query(state.tripRequest.value);
    OutcomeMatchesPython(query, Quality, o, AgentName);
    FailureReported(state.failedAgents, query, Quality, o, AgentName);
  }
}
