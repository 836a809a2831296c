/** `route_after_collection` and `build_graph` of
    src/agents/SupervisorAgent.py: the four-node transition structure of the
    planner. Which node follows which is modelled; how the graph runtime
    schedules the nodes and limits recursion is not. */
module Graph {
  import opened Wrappers
  import opened States
  import opened Research
  import Requests
  import Collection
  import Dispatcher
  import Synthesis

  /** The graph's nodes, with its entry and exit. */
  datatype Node = Start | CollectInfo | Dispatch | Synthesis | End

  /** `route_after_collection(state)`. */
  function RouteAfterCollection(state: TripState): (n: Node)
    ensures n == Dispatch <==> state.nextStep == DispatchStep
    ensures n != Dispatch ==> n == CollectInfo
  {
    if state.nextStep == DispatchStep then Dispatch else CollectInfo
  }

  /** The edges `build_graph` adds, the conditional edge contributing one edge
      per entry of its path map. */
  predicate Edge(a: Node, b: Node) {
    match a
    case Start => b == CollectInfo
    case CollectInfo => b == CollectInfo || b == Dispatch
    case Dispatch => b == Synthesis
    case Synthesis => b == End
    case End => false
  }

  /** The node run after `n` on the state `n` produced; End has none. */
  function Successor(n: Node, state: TripState): Node
    requires n != End
  {
    match n
    case Start => CollectInfo
    case CollectInfo => RouteAfterCollection(state)
    case Dispatch => Synthesis
    case Synthesis => End
  }

  /** Every move the graph makes follows one of its edges, and from
      collect_info it moves on to dispatch exactly when the state says so. */
  lemma SuccessorIsEdge(n: Node, state: TripState)
    requires n != End
    ensures Edge(n, Successor(n, state))
    ensures n == CollectInfo ==> (Successor(n, state) == Dispatch <==> state.nextStep == DispatchStep)
  {
  }

  /** A walk along the edges. */
  ghost predicate Path(p: seq<Node>) {
    forall i :: 0 <= i < |p| - 1 ==> Edge(p[i], p[i + 1])
  }

  /** No edge leaves the exit, so a walk meets it only as its last node. */
  lemma EndIsLast(p: seq<Node>)
    requires Path(p)
    ensures forall i :: 0 <= i < |p| - 1 ==> p[i] != End
  {
    forall i | 0 <= i < |p| - 1 ensures p[i] != End {
      assert Edge(p[i], p[i + 1]);
    }
  }

  /** A walk from collect_info that reaches the exit ends with dispatch,
      synthesis and the exit, and visits collect_info only before dispatch:
      collection cannot finish except through dispatch and synthesis, and
      nothing leads back to it once research has started. */
  lemma {:induction false} EndOnlyThroughResearch(p: seq<Node>)
    requires Path(p) && |p| >= 1 && p[0] == CollectInfo && p[|p| - 1] == End
    ensures |p| >= 4 && p[|p| - 3..] == [Dispatch, Synthesis, End]
    ensures forall i :: 0 <= i < |p| - 3 ==> p[i] == CollectInfo
    decreases |p|
  {
    assert Edge(p[0], p[1]);
    if p[1] == CollectInfo {
      var q := p[1..];
      assert forall i :: 0 <= i < |q| ==> q[i] == p[i + 1];
      EndOnlyThroughResearch(q);
      assert p[|p| - 3..] == q[|q| - 3..];
    } else {
      assert p[1] == Dispatch;
      assert Edge(p[1], p[2]);
      assert Edge(p[2], p[3]);
      EndIsLast(p);
    }
  }

  /** A walk from the entry that reaches the exit is the entry, one or more
      runs of collect_info, dispatch, synthesis and the exit. */
  lemma StartToEnd(p: seq<Node>)
    requires Path(p) && |p| >= 1 && p[0] == Start && p[|p| - 1] == End
    ensures |p| >= 5 && p[1] == CollectInfo && p[|p| - 3..] == [Dispatch, Synthesis, End]
    ensures forall i :: 1 <= i < |p| - 3 ==> p[i] == CollectInfo
  {
    assert Edge(p[0], p[1]);
    var q := p[1..];
    assert forall i :: 0 <= i < |q| ==> q[i] == p[i + 1];
    EndOnlyThroughResearch(q);
    assert p[|p| - 3..] == q[|q| - 3..];
  }

  /** After a collect_info update that returned, the graph moves on to dispatch
      exactly when the update carries a request, that is exactly when the
      model's extraction gave every required field a truthy value; otherwise
      it comes back to collect_info. */
  lemma CollectThenRoute(state: TripState, content: string, parse: string -> Option<Collection.Json>,
                         confirm: Reply<string>, ask: Reply<string>)
    requires Collection.CollectInfo(Returns(content), parse, confirm, ask).Returns?
    ensures var u := Collection.CollectInfo(Returns(content), parse, confirm, ask).value;
      var data := Collection.Data(content, parse);
      && (RouteAfterCollection(Apply(state, u)) == Dispatch <==> u.tripRequest.Some?)
      && (RouteAfterCollection(Apply(state, u)) == Dispatch <==>
            forall k :: k in Collection.Required ==> Collection.Truthy(Collection.Get(data.fields, k)))
  {
    Collection.CollectOutcome(content, parse, confirm, ask);
    assert DispatchStep != CollectInfoStep by {
      assert |DispatchStep| != |CollectInfoStep|;
    }
  }

  /** Dispatch followed by synthesis, as written: whatever the transportation
      agent found, the context the synthesis model sees says "No data" for
      transportation. With the key as intended, it shows exactly the
      transportation agent's options, and "No data" only when there are none. */
  lemma TransportationReachesSynthesis(state: TripState, replies: seq<Reply<Update>>, req: Requests.TripRequest)
    requires Dispatcher.Dispatch(replies).Returns?
    ensures Dispatcher.Shaped(replies, Dispatcher.AsWrittenKeys) ==>
      Synthesis.ContextOf(req, Apply(state, Dispatcher.Dispatch(replies).value)).transportation
        == Synthesis.Fallback(Synthesis.NoData)
    ensures Dispatcher.Shaped(replies, Dispatcher.AgentKeys) ==>
      var options := FromDict(Dispatcher.ResearchOf(replies[5].value)).transportationOptions;
      Synthesis.Recover(Synthesis.ContextOf(req, Apply(state, Dispatcher.Dispatch(replies).value)).transportation)
        == options
  {
    var t := Apply(state, Dispatcher.Dispatch(replies).value);
    Synthesis.ContextFaithful(req, t);
    Dispatcher.AllReturn(replies);
    if Dispatcher.Shaped(replies, Dispatcher.AsWrittenKeys) {
      Dispatcher.AsWrittenTransportationLost(state, replies);
    }
    if Dispatcher.Shaped(replies, Dispatcher.AgentKeys) {
      Dispatcher.StoredResearch(replies);
    }
  }
}
