/** `dispatch_node` of src/agents/SupervisorAgent.py: it runs every agent of
    AGENTS on the same state, in order and whatever their outcome, merges their
    research dictionaries key by key (a later key overwrites an earlier one)
    and concatenates their failed lists. An exception from an agent is not
    caught and ends the node. */
module Dispatcher {
  import opened Wrappers
  import opened Research
  import opened States
  import opened Extraction
  import opened AgentCommon
  import FlightsAgent
  import HotelsAgent
  import RestaurantsAgent
  import ActivitiesAgent
  import EventsAgent
  import TransportationAgent

  /** An entry of AGENTS: its name and the agent function. */
  datatype Entry = Entry(name: string, run: TripState -> Reply<Update>)

  /** `result.get("research", {})`. */
  function ResearchOf(u: Update): map<string, Records> {
    u.research.GetOr(map[])
  }

  /** `result.get("failed_agents", [])`. */
  function FailedOf(u: Update): seq<string> {
    u.failedAgents.GetOr([])
  }

  /** What the agents reply when each is called on `state`, in order. */
  function Replies(state: TripState, agents: seq<Entry>): (rs: seq<Reply<Update>>)
    ensures |rs| == |agents| && forall i :: 0 <= i < |agents| ==> rs[i] == agents[i].run(state)
  {
    seq(|agents|, i requires 0 <= i < |agents| => agents[i].run(state))
  }

  /** `research_updates` and `failed` after the loop has taken in `replies`,
      or the exception one of them is. */
  function Merged(replies: seq<Reply<Update>>): Reply<(map<string, Records>, seq<string>)>
    decreases |replies|
  {
    if replies == [] then Returns((map[], []))
    else
      match Merged(replies[..|replies| - 1])
      case Raises => Raises
      case Returns(acc) =>
        match replies[|replies| - 1]
        case Raises => Raises
        case Returns(u) => Returns((acc.0 + ResearchOf(u), acc.1 + FailedOf(u)))
  }

  /** The dictionary `dispatch_node` returns, given what its agents reply. */
  function Dispatch(replies: seq<Reply<Update>>): Reply<Update> {
    match Merged(replies)
    case Raises => Raises
    case Returns(acc) => Returns(Update(research := Some(acc.0), failedAgents := Some(acc.1)))
  }

  /** The loop of `dispatch_node`: it calls the agents one after the other on
      the same state and returns what `Dispatch` makes of their replies. */
  method DispatchNode(state: TripState, agents: seq<Entry>) returns (r: Reply<Update>)
    ensures r == Dispatch(Replies(state, agents))
  {
    ghost var replies := Replies(state, agents);
    var researchUpdates: map<string, Records> := map[];
    var failed: seq<string> := [];
    for i := 0 to |agents|
      invariant Merged(replies[..i]) == Returns((researchUpdates, failed))
    {
      assert replies[..i + 1][..i] == replies[..i];
      var result := agents[i].run(state);
      if result.Raises? {
        MergedRaisesFrom(replies, i + 1);
        return Raises;
      }
      researchUpdates := researchUpdates + ResearchOf(result.value);
      failed := failed + FailedOf(result.value);
    }
    assert replies[..|agents|] == replies;
    r := Returns(Update(research := Some(researchUpdates), failedAgents := Some(failed)));
  }

  /** Once a prefix of the replies holds an exception, the whole loop has raised. */
  lemma {:induction false} MergedRaisesFrom(replies: seq<Reply<Update>>, n: nat)
    requires n <= |replies| && Merged(replies[..n]).Raises?
    ensures Merged(replies).Raises?
    decreases |replies| - n
  {
    if n < |replies| {
      assert replies[..n + 1][..n] == replies[..n];
      MergedRaisesFrom(replies, n + 1);
    } else {
      assert replies[..n] == replies;
    }
  }

  /** The node raises exactly when one of the agents raises; an agent that
      merely reports failure does not stop the others. */
  lemma {:induction false} RaisesIffSomeAgentRaises(replies: seq<Reply<Update>>)
    ensures Merged(replies).Raises? <==> exists i :: 0 <= i < |replies| && replies[i].Raises?
    decreases |replies|
  {
    if replies != [] {
      var init := replies[..|replies| - 1];
      RaisesIffSomeAgentRaises(init);
      assert forall i :: 0 <= i < |init| ==> init[i] == replies[i];
    }
  }

  /** The concatenation of lists, left to right. */
  function Flatten(xss: seq<seq<string>>): seq<string>
    decreases |xss|
  {
    if xss == [] then [] else Flatten(xss[..|xss| - 1]) + xss[|xss| - 1]
  }

  /** The failed lists in the replies, in order. */
  function FailedLists(replies: seq<Reply<Update>>): (fs: seq<seq<string>>)
    requires forall i :: 0 <= i < |replies| ==> replies[i].Returns?
    ensures |fs| == |replies| && forall i :: 0 <= i < |replies| ==> fs[i] == FailedOf(replies[i].value)
  {
    seq(|replies|, i requires 0 <= i < |replies| && replies[i].Returns? => FailedOf(replies[i].value))
  }

  /** A reply list the loop takes in whole holds no exception. */
  lemma AllReturn(replies: seq<Reply<Update>>)
    requires Merged(replies).Returns?
    ensures forall i :: 0 <= i < |replies| ==> replies[i].Returns?
  {
    RaisesIffSomeAgentRaises(replies);
  }

  /** The merged research holds exactly the keys some agent returned. */
  lemma {:induction false} MergedKeys(replies: seq<Reply<Update>>)
    requires Merged(replies).Returns?
    ensures forall i :: 0 <= i < |replies| ==> replies[i].Returns?
    ensures forall k :: k in Merged(replies).value.0 <==>
      exists i :: 0 <= i < |replies| && k in ResearchOf(replies[i].value)
    decreases |replies|
  {
    AllReturn(replies);
    if replies != [] {
      var init := replies[..|replies| - 1];
      assert forall i :: 0 <= i < |init| ==> init[i] == replies[i];
      MergedKeys(init);
    }
  }

  /** Under each key the merged research holds what the last agent returning
      that key returned: a later agent overwrites an earlier one. */
  lemma {:induction false} LastWriterWins(replies: seq<Reply<Update>>, k: string, i: nat)
    requires Merged(replies).Returns?
    requires i < |replies| && replies[i].Returns? && k in ResearchOf(replies[i].value)
    requires forall j :: i < j < |replies| ==> replies[j].Returns? && k !in ResearchOf(replies[j].value)
    ensures k in Merged(replies).value.0
    ensures Merged(replies).value.0[k] == ResearchOf(replies[i].value)[k]
    decreases |replies|
  {
    var n := |replies| - 1;
    var init := replies[..n];
    if i < n {
      assert forall j :: 0 <= j < |init| ==> init[j] == replies[j];
      LastWriterWins(init, k, i);
    }
  }

  /** The failed list is the plain concatenation, in agent order, of the
      lists the agents returned, duplicates kept. */
  lemma {:induction false} FailedConcatenated(replies: seq<Reply<Update>>)
    requires Merged(replies).Returns?
    ensures forall i :: 0 <= i < |replies| ==> replies[i].Returns?
    ensures Merged(replies).value.1 == Flatten(FailedLists(replies))
    decreases |replies|
  {
    AllReturn(replies);
    if replies != [] {
      var init := replies[..|replies| - 1];
      assert forall i :: 0 <= i < |init| ==> init[i] == replies[i];
      FailedConcatenated(init);
      assert FailedLists(replies)[..|init|] == FailedLists(init);
    }
  }

  /** What the agents are given from outside: the search and model replies of
      each, and the query text of the three agents whose query is an opaque
      Python set. */
  datatype World = World(
    flights: Oracles<FlightsAgent.FlightResults>,
    hotels: Oracles<HotelsAgent.HotelResults>,
    restaurantsQuery: string,
    restaurants: Oracles<RestaurantsAgent.RestaurantResults>,
    activitiesQuery: string,
    activities: Oracles<ActivitiesAgent.ActivityResults>,
    eventsQuery: string,
    events: Oracles<EventsAgent.EventResults>,
    transportation: Oracles<TransportationAgent.TransportationResults>)

  /** What the agents of AGENTS reply on `state`, in AGENTS order: flights,
      hotels, restaurants, activities, events, transportation. The hotels and
      transportation agents are the corrected ones (see HotelsAgent.Agent and
      TransportationAgent.Agent); their as-written forms are AgentAsWritten. */
  function AgentReplies(state: TripState, w: World): seq<Reply<Update>> {
    [ FlightsAgent.Agent(state, w.flights),
      HotelsAgent.Agent(state, w.hotels),
      RestaurantsAgent.Agent(state, w.restaurantsQuery, w.restaurants),
      ActivitiesAgent.Agent(state, w.activitiesQuery, w.activities),
      EventsAgent.Agent(state, w.eventsQuery, w.events),
      TransportationAgent.Agent(state, w.transportation) ]
  }

  /** Every key in `keys` is in the merged research when each agent returns
      the key at its own position. */
  lemma MergedHoldsKeys(replies: seq<Reply<Update>>, keys: seq<string>)
    requires |replies| == |keys| && Merged(replies).Returns?
    requires forall i :: 0 <= i < |replies| ==>
      replies[i].Returns? && ResearchOf(replies[i].value).Keys == {keys[i]}
    ensures forall k :: k in Merged(replies).value.0 <==> k in keys
  {
    MergedKeys(replies);
    forall k | k in keys ensures k in Merged(replies).value.0 {
      var i :| 0 <= i < |keys| && keys[i] == k;
      assert k in ResearchOf(replies[i].value);
    }
  }

  /** When every agent returns a research dictionary with a single key of its
      own, no two agents sharing one, the merged research holds exactly those
      keys, each with the records its agent returned. */
  lemma MergeDisjoint(replies: seq<Reply<Update>>, keys: seq<string>)
    requires |replies| == |keys|
    requires forall i :: 0 <= i < |replies| ==>
      replies[i].Returns? && ResearchOf(replies[i].value).Keys == {keys[i]}
    requires forall i, j :: 0 <= i < j < |keys| ==> keys[i] != keys[j]
    ensures Merged(replies).Returns?
    ensures forall k :: k in Merged(replies).value.0 <==> k in keys
    ensures forall i :: 0 <= i < |keys| ==>
      keys[i] in Merged(replies).value.0
      && Merged(replies).value.0[keys[i]] == ResearchOf(replies[i].value)[keys[i]]
  {
    RaisesIffSomeAgentRaises(replies);
    MergedHoldsKeys(replies, keys);
    forall i | 0 <= i < |keys|
      ensures keys[i] in Merged(replies).value.0
      ensures Merged(replies).value.0[keys[i]] == ResearchOf(replies[i].value)[keys[i]]
    {
      assert keys[i] in ResearchOf(replies[i].value);
      LastWriterWins(replies, keys[i], i);
    }
  }

  /** The keys the agents of AGENTS write, in AGENTS order, the
      transportation agent storing under its ResearchResults field name. */
  const AgentKeys: seq<string> :=
    [FlightsKey, HotelsKey, RestaurantsKey, ActivitiesKey, EventsKey, TransportationKey]

  /** The keys as written: the transportation agent stores under "transportation". */
  const AsWrittenKeys: seq<string> :=
    [FlightsKey, HotelsKey, RestaurantsKey, ActivitiesKey, EventsKey, TransportationAgent.OutputKey]

  /** Which agents of AGENTS return a failed list: flights, hotels and
      transportation; restaurants, activities and events return none. */
  const TracksFailures: seq<bool> := [true, true, false, false, false, true]

  /** The records of the agent at position `i` of AGENTS are of its own kind. */
  predicate Fits(r: Records, i: nat) {
    match r
    case FlightList(_) => i == 0
    case HotelList(_) => i == 1
    case RestaurantList(_) => i == 2
    case ActivityList(_) => i == 3
    case EventList(_) => i == 4
    case TransportationList(_) => i == 5
  }

  /** The keys the six agents write are pairwise different, as written and
      as intended, and only the intended ones include
      "transportation_options". */
  lemma KeysDistinct()
    ensures forall i, j :: 0 <= i < j < 6 ==> AgentKeys[i] != AgentKeys[j]
    ensures forall i, j :: 0 <= i < j < 6 ==> AsWrittenKeys[i] != AsWrittenKeys[j]
    ensures TransportationKey !in AsWrittenKeys
  {
    assert HotelsKey[0] != EventsKey[0];
    assert |FlightsKey| == 7 && |HotelsKey| == 6 && |EventsKey| == 6 && |RestaurantsKey| == 11
      && |ActivitiesKey| == 10 && |TransportationAgent.OutputKey| == 14 && |TransportationKey| == 22;
  }

  /** A reply shaped as that of the agent at position `i` of AGENTS, when
      the agents write `keys`: when it returns, it writes just its own key,
      records of its own kind, and a failed list exactly when that agent
      tracks failures. */
  ghost predicate ShapedAt(reply: Reply<Update>, i: nat, keys: seq<string>)
    requires i < 6 && |keys| == 6
  {
    reply.Returns? ==>
      && ResearchOf(reply.value).Keys == {keys[i]}
      && Fits(ResearchOf(reply.value)[keys[i]], i)
      && (reply.value.failedAgents.Some? <==> TracksFailures[i])
  }

  /** Six replies shaped as those of AGENTS. */
  ghost predicate Shaped(replies: seq<Reply<Update>>, keys: seq<string>) {
    |replies| == 6 && |keys| == 6 && forall i :: 0 <= i < 6 ==> ShapedAt(replies[i], i, keys)
  }

  /** Each agent of AGENTS replies as shaped for its position. */
  lemma FlightsShaped(state: TripState, w: World)
    ensures ShapedAt(FlightsAgent.Agent(state, w.flights), 0, AgentKeys)
    ensures ShapedAt(FlightsAgent.Agent(state, w.flights), 0, AsWrittenKeys)
  {
  }

  lemma HotelsShaped(state: TripState, w: World)
    ensures ShapedAt(HotelsAgent.Agent(state, w.hotels), 1, AgentKeys)
  {
  }

  lemma RestaurantsShaped(state: TripState, w: World)
    ensures ShapedAt(RestaurantsAgent.Agent(state, w.restaurantsQuery, w.restaurants), 2, AgentKeys)
  {
  }

  lemma ActivitiesShaped(state: TripState, w: World)
    ensures ShapedAt(ActivitiesAgent.Agent(state, w.activitiesQuery, w.activities), 3, AgentKeys)
  {
  }

  lemma EventsShaped(state: TripState, w: World)
    ensures ShapedAt(EventsAgent.Agent(state, w.eventsQuery, w.events), 4, AgentKeys)
  {
  }

  lemma TransportationShaped(state: TripState, w: World)
    ensures ShapedAt(TransportationAgent.Agent(state, w.transportation), 5, AgentKeys)
    ensures ShapedAt(TransportationAgent.AgentAsWritten(state, w.transportation), 5, AsWrittenKeys)
  {
  }

  /** The replies of the agents of AGENTS are so shaped, whatever the state
      and the outside world. */
  lemma AgentRepliesShaped(state: TripState, w: World)
    ensures Shaped(AgentReplies(state, w), AgentKeys)
  {
    FlightsShaped(state, w);
    HotelsShaped(state, w);
    RestaurantsShaped(state, w);
    ActivitiesShaped(state, w);
    EventsShaped(state, w);
    TransportationShaped(state, w);
  }

  /** The concatenation of six lists. */
  lemma FlattenSix(fs: seq<seq<string>>)
    requires |fs| == 6
    ensures Flatten(fs) == fs[0] + fs[1] + fs[2] + fs[3] + fs[4] + fs[5]
  {
    assert fs[..1][..0] == [];
    assert Flatten(fs[..1]) == fs[0];
    assert fs[..2][..1] == fs[..1];
    assert Flatten(fs[..2]) == fs[0] + fs[1];
    assert fs[..3][..2] == fs[..2];
    assert Flatten(fs[..3]) == fs[0] + fs[1] + fs[2];
    assert fs[..4][..3] == fs[..3];
    assert Flatten(fs[..4]) == fs[0] + fs[1] + fs[2] + fs[3];
    assert fs[..5][..4] == fs[..4];
    assert Flatten(fs[..5]) == fs[0] + fs[1] + fs[2] + fs[3] + fs[4];
    assert fs[..5] == fs[..|fs| - 1];
  }

  /** With replies shaped as AGENTS', when none raises, the failed list is
      the flights agent's list, then the hotels agent's, then the
      transportation agent's. */
  lemma SixFailed(replies: seq<Reply<Update>>, keys: seq<string>)
    requires Shaped(replies, keys)
    requires forall i :: 0 <= i < 6 ==> replies[i].Returns?
    ensures Merged(replies).Returns?
    ensures Merged(replies).value.1
      == FailedOf(replies[0].value) + FailedOf(replies[1].value) + FailedOf(replies[5].value)
  {
    RaisesIffSomeAgentRaises(replies);
    FailedConcatenated(replies);
    var fs := FailedLists(replies);
    FlattenSix(fs);
    assert ShapedAt(replies[2], 2, keys) && ShapedAt(replies[3], 3, keys) && ShapedAt(replies[4], 4, keys);
    assert fs[2] == [] && fs[3] == [] && fs[4] == [];
    assert ShapedAt(replies[0], 0, keys) && ShapedAt(replies[1], 1, keys) && ShapedAt(replies[5], 5, keys);
    assert fs[0] + fs[1] + fs[2] + fs[3] + fs[4] + fs[5] == fs[0] + fs[1] + fs[5];
  }

  /** With replies shaped as AGENTS', when none raises, the merged research
      holds exactly the six keys, each with its own agent's records: no agent
      overwrites another. */
  lemma SixResearch(replies: seq<Reply<Update>>)
    requires Shaped(replies, AgentKeys)
    requires forall i :: 0 <= i < 6 ==> replies[i].Returns?
    ensures Merged(replies).Returns?
    ensures var research := Merged(replies).value.0;
      && (forall k :: k in research <==> k in AgentKeys)
      && (forall i :: 0 <= i < 6 ==> research[AgentKeys[i]] == ResearchOf(replies[i].value)[AgentKeys[i]])
  {
    KeysDistinct();
    MergeDisjoint(replies, AgentKeys);
  }

  /** The merged research, read into a ResearchResults, holds in each field
      just what the agent writing that field would store on its own. */
  lemma StoredResearch(replies: seq<Reply<Update>>)
    requires Shaped(replies, AgentKeys)
    requires forall i :: 0 <= i < 6 ==> replies[i].Returns?
    ensures Merged(replies).Returns?
    ensures var r := FromDict(Merged(replies).value.0);
      && r.flights == FromDict(ResearchOf(replies[0].value)).flights
      && r.hotels == FromDict(ResearchOf(replies[1].value)).hotels
      && r.restaurants == FromDict(ResearchOf(replies[2].value)).restaurants
      && r.activities == FromDict(ResearchOf(replies[3].value)).activities
      && r.events == FromDict(ResearchOf(replies[4].value)).events
      && r.transportationOptions == FromDict(ResearchOf(replies[5].value)).transportationOptions
  {
    KeysDistinct();
    MergeDisjoint(replies, AgentKeys);
  }

  /** The state after the dispatch update holds, in each research field, just
      what the agent writing that field would store on its own, keeps its
      messages, request and next step, and replaces its failed list by the
      three tracked lists one after the other (the old list thus appears
      three times when all three agents start from it). */
  lemma DispatchStored(state: TripState, replies: seq<Reply<Update>>)
    requires Shaped(replies, AgentKeys)
    requires forall i :: 0 <= i < 6 ==> replies[i].Returns?
    ensures Dispatch(replies).Returns?
    ensures var t := Apply(state, Dispatch(replies).value);
      && t.research == FromDict(Merged(replies).value.0)
      && t.failedAgents == FailedOf(replies[0].value) + FailedOf(replies[1].value) + FailedOf(replies[5].value)
      && t.messages == state.messages && t.tripRequest == state.tripRequest && t.nextStep == state.nextStep
  {
    RaisesIffSomeAgentRaises(replies);
    SixFailed(replies, AgentKeys);
  }

  /** As written, the dispatch update never stores a transportation option:
      no agent writes "transportation_options", so the field is [] after the
      update, whatever the transportation agent found. */
  lemma AsWrittenTransportationLost(state: TripState, replies: seq<Reply<Update>>)
    requires Shaped(replies, AsWrittenKeys) && Dispatch(replies).Returns?
    ensures Apply(state, Dispatch(replies).value).research.transportationOptions == []
  {
    MergedKeys(replies);
    KeysDistinct();
    forall i | 0 <= i < 6 ensures TransportationKey !in ResearchOf(replies[i].value) {
      assert ShapedAt(replies[i], i, AsWrittenKeys);
    }
  }
}
