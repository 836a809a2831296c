/** `synthesis_node` of src/agents/SupervisorAgent.py: it lays the request,
    the failed agents and the six research lists out as the context of one
    model call, with a fallback text wherever Python's truthiness finds a
    value empty, and stores the model's reply as the final plan. The context
    is kept structured here; how Python prints a list into the prompt text is
    not modelled, and the model is a function of the context. */
module Synthesis {
  import opened Wrappers
  import opened Research
  import opened Requests
  import opened States

  /** One section of the context: the value itself, or the text that
      replaces it when the value is empty. */
  datatype Shown<T> = Listed(items: seq<T>) | Fallback(text: string)

  const NoData: string := "No data"
  const AllSucceeded: string := "None — all agents succeeded"
  const NotSpecified: string := "not specified"

  /** `xs if xs else fallback`. */
  function Show<T>(xs: seq<T>, fallback: string): Shown<T> {
    if xs == [] then Fallback(fallback) else Listed(xs)
  }

  /** The list a section stands for: its items, or none behind a fallback. */
  function Recover<T>(s: Shown<T>): seq<T> {
    match s
    case Listed(items) => items
    case Fallback(_) => []
  }

  /** A section hides nothing: the list is recovered from it, and the
      fallback is shown exactly when the list is empty. */
  lemma ShowRecover<T>(xs: seq<T>, fallback: string)
    ensures Recover(Show(xs, fallback)) == xs
    ensures Show(xs, fallback).Fallback? <==> xs == []
    ensures Show(xs, fallback).Fallback? ==> Show(xs, fallback).text == fallback
  {
  }

  /** `req.interests or 'not specified'`. */
  function InterestsText(interests: Option<string>): string {
    if interests.Some? && interests.value != "" then interests.value else NotSpecified
  }

  /** The interests text is the fallback exactly when the interests are
      missing, empty or the fallback itself; any other text is the
      interests as given. */
  lemma InterestsShown(interests: Option<string>)
    ensures InterestsText(interests) == NotSpecified
      <==> interests.None? || interests.value == "" || interests.value == NotSpecified
    ensures InterestsText(interests) != NotSpecified ==> interests == Some(InterestsText(interests))
  {
  }

  /** The research context handed to the model. */
  datatype Context = Context(
    origin: string,
    destination: string,
    startDate: string,
    endDate: string,
    travelers: int,
    budgetPerPerson: real,
    interests: string,
    failed: Shown<string>,
    flights: Shown<FlightOption>,
    hotels: Shown<HotelOption>,
    restaurants: Shown<RestaurantOption>,
    activities: Shown<ActivityOption>,
    events: Shown<EventOption>,
    transportation: Shown<TransportationOption>)

  /** The context built from the request and the state. */
  function ContextOf(req: TripRequest, state: TripState): Context {
    Context(
      req.origin, req.destination, req.startDate, req.endDate, req.numPeople, req.budgetPerPerson,
      InterestsText(req.interests),
      Show(state.failedAgents, AllSucceeded),
      Show(state.research.flights, NoData),
      Show(state.research.hotels, NoData),
      Show(state.research.restaurants, NoData),
      Show(state.research.activities, NoData),
      Show(state.research.events, NoData),
      Show(state.research.transportationOptions, NoData))
  }

  /** The context carries every research list and the failed list whole, says
      "No data" exactly for the empty research lists and "None — all agents
      succeeded" exactly when no agent is listed as failed, and copies the
      request's fields unchanged. */
  lemma ContextFaithful(req: TripRequest, state: TripState)
    ensures var c := ContextOf(req, state);
      && Recover(c.failed) == state.failedAgents
      && Recover(c.flights) == state.research.flights
      && Recover(c.hotels) == state.research.hotels
      && Recover(c.restaurants) == state.research.restaurants
      && Recover(c.activities) == state.research.activities
      && Recover(c.events) == state.research.events
      && Recover(c.transportation) == state.research.transportationOptions
      && (c.failed == Fallback(AllSucceeded) <==> state.failedAgents == [])
      && (c.flights == Fallback(NoData) <==> state.research.flights == [])
      && (c.hotels == Fallback(NoData) <==> state.research.hotels == [])
      && (c.restaurants == Fallback(NoData) <==> state.research.restaurants == [])
      && (c.activities == Fallback(NoData) <==> state.research.activities == [])
      && (c.events == Fallback(NoData) <==> state.research.events == [])
      && (c.transportation == Fallback(NoData) <==> state.research.transportationOptions == [])
      && c.origin == req.origin && c.destination == req.destination
      && c.startDate == req.startDate && c.endDate == req.endDate
      && c.travelers == req.numPeople && c.budgetPerPerson == req.budgetPerPerson
  {
    ShowRecover(state.failedAgents, AllSucceeded);
    ShowRecover(state.research.flights, NoData);
    ShowRecover(state.research.hotels, NoData);
    ShowRecover(state.research.restaurants, NoData);
    ShowRecover(state.research.activities, NoData);
    ShowRecover(state.research.events, NoData);
    ShowRecover(state.research.transportationOptions, NoData);
  }

  /** `synthesis_node(state)`: reading a field of the missing request raises,
      and so does the model call; otherwise the update sets the final plan and
      the one new message to the reply and the next step to "done". */
  function SynthesisNode(state: TripState, llm: Context -> Reply<string>): (r: Reply<Update>)
    ensures r.Raises? <==> state.tripRequest.None? || llm(ContextOf(state.tripRequest.value, state)).Raises?
  {
    match state.tripRequest
    case None => Raises
    case Some(req) =>
      match llm(ContextOf(req, state))
      case Raises => Raises
      case Returns(reply) =>
        Returns(Update(messages := [AIMessage(reply)], nextStep := Some(DoneStep), finalPlan := Some(reply)))
  }

  /** After the synthesis update the state's final plan is the model's reply,
      that reply is appended as the one new message, the next step is "done",
      and the request, research and failed list are as they were. */
  lemma SynthesisOutcome(state: TripState, llm: Context -> Reply<string>)
    requires SynthesisNode(state, llm).Returns?
    ensures var reply := llm(ContextOf(state.tripRequest.value, state)).value;
      var t := Apply(state, SynthesisNode(state, llm).value);
      && t.finalPlan == Some(reply)
      && t.messages == state.messages + [AIMessage(reply)]
      && t.nextStep == DoneStep
      && t.tripRequest == state.tripRequest && t.research == state.research
      && t.failedAgents == state.failedAgents && t.missingFields == state.missingFields
  {
  }
}
