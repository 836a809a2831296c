/** What the six research agents under src/agents/ share: Python's `any`
    over a record list, and the `failed_agents` list that three of them
    extend when the extractor reports no success. */
module AgentCommon {
  import opened Wrappers
  import opened Extraction

  /** The agent name of the agents that pass none to the extractor. */
  const NoAgentName: string := ""

  /** Python truthiness of an optional string: present and not empty. */
  predicate Truthy(s: Option<string>) {
    s.Some? && s.value != ""
  }

  /** Python's `any(p(x) for x in xs)`. */
  function AnyOf<T>(xs: seq<T>, p: T -> bool): (b: bool)
    ensures b <==> exists i :: 0 <= i < |xs| && p(xs[i])
  {
    if xs == [] then false
    else if p(xs[0]) then true
    else
      assert forall i :: 1 <= i < |xs| ==> xs[i] == xs[1..][i - 1];
      AnyOf(xs[1..], p)
  }

  /** `state.failed_agents + ([result.agent_name] if not result.success else [])`:
      the list the agent returns keeps the state's list as its prefix and adds
      the agent's own name once, and only, when the extractor reported no success. */
  function FailedAfter<R>(failed: seq<string>, out: AgentOutcome<R>): (r: seq<string>)
    ensures |failed| <= |r| && r[..|failed|] == failed
    ensures out.success ==> r == failed
    ensures !out.success ==> r[|failed|..] == [out.agentName]
  {
    failed + (if !out.success then [out.agentName] else [])
  }

  /** An agent that tracks failures adds its name exactly when no attempt of
      its extraction produced a result its quality predicate accepted. */
  lemma FailureReported<R>(failed: seq<string>, query: string, quality: R -> Reply<bool>,
                           o: Oracles<R>, name: string)
    requires Extract(query, quality, o, name).Finished?
    ensures var t := RunExtract(o, quality, query).trace;
      FailedAfter(failed, Extract(query, quality, o, name).outcome)
        == if exists i :: 0 <= i < |t| && Accepted(o, quality, i, t[i].raw) then failed else failed + [name]
  {
    SuccessIffSomeAccepted(query, quality, o, name);
    OutcomeMatchesPython(query, quality, o, name);
  }
}
