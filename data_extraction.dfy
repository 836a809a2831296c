/** src/tools/data_extraction_tool.py: the shared retry loop of the research
    agents (`extract_with_retry`) and the query refiner (`_generate_better_query`).

    Everything nondeterministic is an oracle input. Each oracle is indexed by
    the position of the call it answers, so quantifying over all oracles covers
    every reply the web or a language model could give:
    - `search(k, query)`: the raw text the web search returns on attempt `k`
      (the search wrapper turns its own errors into text and never raises);
    - `structure(k, raw)`: the structuring model's reply on attempt `k` to the
      prompt `StructuringRequest(raw)`, a schema instance or an exception;
    - `refine(k, j, query, preview)`: the reply of the `j`-th refiner call made
      after attempt `k` (there can be two: see `AttemptStep`) to the prompt
      `RefinerRequest(query, preview)`, its text or an exception.
    The two model oracles are indexed by what goes into the prompt rather than
    by the prompt text; every oracle over prompts is one of these
    (`OverPrompts`), so a property proved for all of them holds for every
    reply the models could give.
    The quality predicate is a function of the structured result that returns a
    boolean or raises. */
module Extraction {
  import opened Wrappers
  import opened Text

  /** The fixed number of search → structure → check attempts. */
  const MaxRetries: nat := 3

  /** How much of the previous raw results the refiner is shown. */
  const PreviewLimit: nat := 500

  datatype Oracles<R> = Oracles(
    search: (nat, string) -> string,
    structure: (nat, string) -> Reply<R>,
    refine: (nat, nat, string, string) -> Reply<string>)

  /** The human message of the structuring call. */
  function StructuringRequest(raw: string): string {
    "Extract from these search results:\n\n" + raw
  }

  /** The human message of the refiner call, given the previous query and the
      preview of the previous results. */
  function RefinerRequest(previousQuery: string, preview: string): string {
    "\n            Previous query: " + previousQuery
    + "\n            Previous results: " + preview
    + "\n            Generate a better search query."
  }

  /** The oracles of models that answer prompt texts. */
  function OverPrompts<R>(search: (nat, string) -> string, structure: (nat, string) -> Reply<R>,
                          refine: (nat, nat, string) -> Reply<string>): (o: Oracles<R>)
    ensures forall k: nat, raw :: o.structure(k, raw) == structure(k, StructuringRequest(raw))
    ensures forall k: nat, j: nat, q, p :: o.refine(k, j, q, p) == refine(k, j, RefinerRequest(q, p))
  {
    Oracles(search, (k: nat, raw: string) => structure(k, StructuringRequest(raw)),
            (k: nat, j: nat, q: string, p: string) => refine(k, j, RefinerRequest(q, p)))
  }

  /** `_generate_better_query`: the refiner's reply with surrounding whitespace
      stripped, or the exception the model call raised. */
  function GenerateBetterQuery<R>(o: Oracles<R>, attempt: nat, call: nat,
                                  previousQuery: string, previousResults: string): (r: Reply<string>)
    ensures r.Raises? <==> o.refine(attempt, call, previousQuery, Take(previousResults, PreviewLimit)).Raises?
  {
    match o.refine(attempt, call, previousQuery, Take(previousResults, PreviewLimit))
    case Raises => Raises
    case Returns(content) => Returns(Strip(content))
  }

  /** A refined query is the reply text with nothing but whitespace cut from
      its two ends, and has no whitespace at either end. */
  lemma RefinedQueryTrimmed<R>(o: Oracles<R>, attempt: nat, call: nat, q: string, results: string)
    requires GenerateBetterQuery(o, attempt, call, q, results).Returns?
    ensures var reply := o.refine(attempt, call, q, Take(results, PreviewLimit));
      var next := GenerateBetterQuery(o, attempt, call, q, results).value;
      reply.Returns? && NoEdgeSpace(next) && exists i :: TrimmedAt(reply.value, next, i)
  {
    StripTrims(o.refine(attempt, call, q, Take(results, PreviewLimit)).value);
  }

  /** The refiner's prompt only shows the first `PreviewLimit` characters of the
      previous results: results that agree on them yield the same refinement. */
  lemma RefinerSeesOnlyPreview<R>(o: Oracles<R>, attempt: nat, call: nat, q: string, r1: string, r2: string)
    requires |r1| >= PreviewLimit && |r2| >= PreviewLimit && r1[..PreviewLimit] == r2[..PreviewLimit]
    ensures |RefinerRequest(q, Take(r1, PreviewLimit))| <= |RefinerRequest(q, "")| + PreviewLimit
    ensures GenerateBetterQuery(o, attempt, call, q, r1) == GenerateBetterQuery(o, attempt, call, q, r2)
  {
    assert Take(r1, PreviewLimit) == Take(r2, PreviewLimit);
  }

  /** The refiner's prompt carries at most `PreviewLimit` characters of the
      previous results, however long they are. */
  lemma RefinerPromptBounded(q: string, results: string)
    ensures |RefinerRequest(q, Take(results, PreviewLimit))| <= |RefinerRequest(q, "")| + PreviewLimit
  {
  }

  /** How one attempt's structured result was judged. */
  datatype Judged<R> =
    | StructuringRaised          // the structuring call raised
    | CheckRaised(result: R)     // the quality predicate raised
    | Good(result: R)            // the predicate accepted the result
    | Weak(result: R)            // the predicate rejected it

  function Judge<R>(o: Oracles<R>, quality: R -> Reply<bool>, k: nat, raw: string): Judged<R> {
    match o.structure(k, raw)
    case Raises => StructuringRaised
    case Returns(r) =>
      match quality(r)
      case Raises => CheckRaised(r)
      case Returns(ok) => if ok then Good(r) else Weak(r)
  }

  /** One attempt as it happened: the query searched, the raw text, the
      verdict, and the replies of the refiner calls made after it. */
  datatype Attempt<R> = Attempt(query: string, raw: string, judged: Judged<R>, refinements: seq<Reply<string>>)

  /** How the Python function ends: `return result` at line 53, `return
      last_result` after the loop, or an exception escaping it. */
  datatype Exit<R> = Early(result: R) | Exhausted(last: Option<R>) | Escapes

  datatype Run<R> = Run(exit: Exit<R>, trace: seq<Attempt<R>>)

  function After<R>(done: seq<Attempt<R>>, run: Run<R>): Run<R> {
    Run(run.exit, done + run.trace)
  }

  datatype Step<R> = Stop(run: Run<R>) | Continue(attempt: Attempt<R>, nextQuery: string, kept: Option<R>)

  /** The refiner calls made after attempt `k`: none after an accepted result
      or after the last attempt; otherwise one, and on the weak path a second
      one from the `except` clause when the first raised. */
  function RefinerCalls<R>(o: Oracles<R>, k: nat, q: string, raw: string, judged: Judged<R>): seq<Reply<string>> {
    if judged.Good? || k >= MaxRetries - 1 then []
    else if judged.Weak? then
      var first := GenerateBetterQuery(o, k, 0, q, raw);
      if first.Returns? then [first] else [first, GenerateBetterQuery(o, k, 1, q, raw)]
    else [GenerateBetterQuery(o, k, 0, q, raw)]
  }

  /** One iteration of the loop body, attempt `k` with query `q`, `last` being
      `last_result` on entry. An accepted result stops the loop; a weak result
      replaces `last`; an exception from the last refiner call escapes (it was
      made inside the `except` clause); otherwise the next attempt searches
      with the refined query. */
  function AttemptStep<R>(o: Oracles<R>, quality: R -> Reply<bool>, k: nat, q: string, last: Option<R>): Step<R>
    requires k < MaxRetries
  {
    var raw := o.search(k, q);
    var judged := Judge(o, quality, k, raw);
    var calls := RefinerCalls(o, k, q, raw, judged);
    var a := Attempt(q, raw, judged, calls);
    if judged.Good? then Stop(Run(Early(judged.result), [a]))
    else if calls != [] && calls[|calls| - 1].Raises? then Stop(Run(Escapes, [a]))
    else
      Continue(a, if calls == [] then q else calls[|calls| - 1].value,
               if judged.Weak? then Some(judged.result) else last)
  }

  /** What one attempt does to the loop, as a function of the attempt number,
      the query and `last_result`. */
  type StepFn<!R> = (nat, string, Option<R>) -> Step<R>

  /** The `for attempt in range(max_retries)` loop from attempt `k` on, for
      any loop body `step`. */
  function Loop<R>(step: StepFn<R>, k: nat, q: string, last: Option<R>): Run<R>
    requires k <= MaxRetries
    decreases MaxRetries - k
  {
    if k == MaxRetries then Run(Exhausted(last), [])
    else
      match step(k, q, last)
      case Stop(run) => run
      case Continue(a, next, kept) => After([a], Loop(step, k + 1, next, kept))
  }

  /** The loop body of `extract_with_retry`. */
  function Body<R>(o: Oracles<R>, quality: R -> Reply<bool>): StepFn<R> {
    (k: nat, q: string, last: Option<R>) =>
      if k < MaxRetries then AttemptStep(o, quality, k, q, last) else Stop(Run(Escapes, []))
  }

  /** A whole call of `extract_with_retry(query, ...)`. */
  function RunExtract<R>(o: Oracles<R>, quality: R -> Reply<bool>, query: string): Run<R> {
    Loop(Body(o, quality), 0, query, None)
  }

  function Queries<R>(trace: seq<Attempt<R>>): (qs: seq<string>)
    ensures |qs| == |trace|
  {
    seq(|trace|, i requires 0 <= i < |trace| => trace[i].query)
  }

  /** What the Python function hands back: the schema object or None, unless
      an exception escapes. */
  function PythonResult<R>(exit: Exit<R>): Reply<Option<R>> {
    match exit
    case Early(r) => Returns(Some(r))
    case Exhausted(l) => Returns(l)
    case Escapes => Raises
  }

  /** The tagged outcome the agents read (`result.success`, `result.agent_name`):
      `success` holds exactly when the result was returned as good at line 53. */
  datatype AgentOutcome<R> = AgentOutcome(records: Option<R>, success: bool, agentName: string)

  datatype Completion<R> = Finished(outcome: AgentOutcome<R>) | Escaped

  /** How the function ends on a given exit. */
  function Complete<R>(exit: Exit<R>, agentName: string): Completion<R> {
    match exit
    case Early(r) => Finished(AgentOutcome(Some(r), true, agentName))
    case Exhausted(l) => Finished(AgentOutcome(l, false, agentName))
    case Escapes => Escaped
  }

  function Extract<R>(query: string, quality: R -> Reply<bool>, o: Oracles<R>, agentName: string): Completion<R> {
    Complete(RunExtract(o, quality, query).exit, agentName)
  }

  /** The tagged outcome carries exactly the value the Python function returns,
      is successful exactly on the early return, and escapes exactly when the
      Python function raises. */
  lemma OutcomeMatchesPython<R>(query: string, quality: R -> Reply<bool>, o: Oracles<R>, agentName: string)
    ensures var py := PythonResult(RunExtract(o, quality, query).exit);
      match Extract(query, quality, o, agentName)
      case Escaped => py.Raises?
      case Finished(out) =>
        && py == Returns(out.records)
        && out.agentName == agentName
        && (out.success <==> RunExtract(o, quality, query).exit.Early?)
  {
  }

  /** The retry loop, as the Python runs it, proved to follow `RunExtract`.
      `searched` lists the queries passed to the search, in order. */
  method ExtractWithRetry<R(!new)>(query: string, quality: R -> Reply<bool>, o: Oracles<R>, agentName: string)
    returns (outcome: Completion<R>, searched: seq<string>)
    ensures outcome == Extract(query, quality, o, agentName)
    ensures searched == Queries(RunExtract(o, quality, query).trace)
  {
    ghost var step := LoopBody(o, quality);
    outcome, searched := RetryLoop(query, quality, o, agentName, step);
  }

  /** The `for` loop of `extract_with_retry`, proved to follow `Loop` for a
      step function that behaves as `AttemptStep` on every attempt. */
  method RetryLoop<R(!new)>(query: string, quality: R -> Reply<bool>, o: Oracles<R>, agentName: string, ghost step: StepFn<R>)
    returns (outcome: Completion<R>, searched: seq<string>)
    requires forall k: nat, q: string, last: Option<R> {:trigger AttemptStep(o, quality, k, q, last)} ::
      k < MaxRetries ==> step(k, q, last) == AttemptStep(o, quality, k, q, last)
    ensures outcome == Complete(Loop(step, 0, query, None).exit, agentName)
    ensures searched == Queries(Loop(step, 0, query, None).trace)
  {
    var currentQuery := query;
    var lastResult: Option<R> := None;
    ghost var done: seq<Attempt<R>> := [];
    searched := [];
    assert Loop(step, 0, query, None) == After(done, Loop(step, 0, currentQuery, lastResult)) by {
      var run := Loop(step, 0, query, None);
      assert done + run.trace == run.trace;
    }
    for attempt := 0 to MaxRetries
      invariant Loop(step, 0, query, None) == After(done, Loop(step, attempt, currentQuery, lastResult))
      invariant searched == Queries(done)
    {
      var ended, nextQuery, kept;
      ghost var a;
      ended, outcome, nextQuery, kept, a := TryAttempt(query, quality, o, agentName, step, attempt, currentQuery, lastResult);
      QueriesSnoc(done, currentQuery);
      searched := searched + [currentQuery];
      if ended {
        StopStep(step, attempt, currentQuery, lastResult, done);
        return;
      }
      ContinueStep(step, attempt, currentQuery, lastResult, done, a, nextQuery, kept);
      currentQuery, lastResult := nextQuery, kept;
      done := done + [a];
    }
    outcome := Finished(AgentOutcome(lastResult, false, agentName));
  }

  /** The loop body as a step function, characterised by what it does on each
      attempt and by the run it drives. */
  lemma LoopBody<R(!new)>(o: Oracles<R>, quality: R -> Reply<bool>) returns (step: StepFn<R>)
    ensures forall k: nat, q: string, last: Option<R> {:trigger AttemptStep(o, quality, k, q, last)} ::
      k < MaxRetries ==> step(k, q, last) == AttemptStep(o, quality, k, q, last)
    ensures forall query: string {:trigger RunExtract(o, quality, query)} ::
      RunExtract(o, quality, query) == Loop(step, 0, query, None)
  {
    step := Body(o, quality);
  }

  /** The body of the retry loop for attempt `attempt`: search, structure,
      check, and refine the query when the attempt was not accepted. `ended`
      says whether the function returns (or raises) here, with `outcome`;
      otherwise the loop goes on with `nextQuery` and `kept` as `last_result`.
      `a` records the attempt. */
  method TryAttempt<R>(query: string, quality: R -> Reply<bool>, o: Oracles<R>, agentName: string,
                       ghost step: StepFn<R>, attempt: nat, currentQuery: string, lastResult: Option<R>)
    returns (ended: bool, outcome: Completion<R>, nextQuery: string, kept: Option<R>, ghost a: Attempt<R>)
    requires attempt < MaxRetries
    requires step(attempt, currentQuery, lastResult) == AttemptStep(o, quality, attempt, currentQuery, lastResult)
    ensures a.query == currentQuery
    ensures match step(attempt, currentQuery, lastResult)
      case Stop(run) => ended && run.trace == [a] && outcome == Complete(run.exit, agentName)
      case Continue(a', next, last') => !ended && a == a' && nextQuery == next && kept == last'
  {
    var raw := o.search(attempt, currentQuery);
    ghost var judged := Judge(o, quality, attempt, raw);
    ghost var made: seq<Reply<string>> := [];
    ended, nextQuery, kept := false, currentQuery, lastResult;
    outcome := Finished(AgentOutcome(lastResult, false, agentName));
    var caught := false;
    var calls := 0;
    var structured := o.structure(attempt, raw);
    if structured.Raises? {
      caught := true;
    } else {
      var result := structured.value;
      var verdict := quality(result);
      if verdict.Raises? {
        caught := true;
      } else if verdict.value {
        ended, outcome := true, Finished(AgentOutcome(Some(result), true, agentName));
        a := Attempt(currentQuery, raw, judged, made);
        return;
      } else {
        kept := Some(result);
        if attempt < MaxRetries - 1 {
          var next := GenerateBetterQuery(o, attempt, 0, currentQuery, raw);
          made, calls := [next], 1;
          if next.Raises? {
            caught := true;
          } else {
            nextQuery := next.value;
          }
        }
      }
    }
    if caught && attempt < MaxRetries - 1 {
      var again := GenerateBetterQuery(o, attempt, calls, currentQuery, raw);
      made := made + [again];
      if again.Raises? {
        ended, outcome := true, Escaped;
      } else {
        nextQuery := again.value;
      }
    }
    a := Attempt(currentQuery, raw, judged, made);
    assert made == RefinerCalls(o, attempt, currentQuery, raw, judged);
    assert step(attempt, currentQuery, lastResult) == AttemptStep(o, quality, attempt, currentQuery, lastResult);
  }

  lemma QueriesSnoc<R>(done: seq<Attempt<R>>, q: string)
    ensures forall a: Attempt<R> :: a.query == q ==> Queries(done + [a]) == Queries(done) + [q]
  {
  }

  /** A step that stops ends the run there. */
  lemma StopStep<R>(step: StepFn<R>, k: nat, q: string, last: Option<R>, done: seq<Attempt<R>>)
    requires k < MaxRetries && step(k, q, last).Stop?
    ensures After(done, Loop(step, k, q, last)) == After(done, step(k, q, last).run)
  {
  }

  /** A step that goes on hands the loop its next query and `last_result`. */
  lemma ContinueStep<R>(step: StepFn<R>, k: nat, q: string, last: Option<R>,
                        done: seq<Attempt<R>>, a: Attempt<R>, next: string, kept: Option<R>)
    requires k < MaxRetries && step(k, q, last) == Continue(a, next, kept)
    ensures After(done, Loop(step, k, q, last)) == After(done + [a], Loop(step, k + 1, next, kept))
  {
  }

  // ---------------------------------------------------------------------------
  // What a run looks like

  /** Attempt `k` followed the loop body: it searched its query, judged the
      structured reply, made no refiner call after an accepted result or after
      the last attempt, made at least one after any other attempt, and made a
      second one only when the first raised on the weak path. Every refiner
      call saw this attempt's query and raw text. */
  ghost predicate StepOk<R>(o: Oracles<R>, quality: R -> Reply<bool>, k: nat, a: Attempt<R>) {
    && a.raw == o.search(k, a.query)
    && a.judged == Judge(o, quality, k, a.raw)
    && |a.refinements| <= 2
    && (forall j :: 0 <= j < |a.refinements| ==> a.refinements[j] == GenerateBetterQuery(o, k, j, a.query, a.raw))
    && (a.judged.Good? || k >= MaxRetries - 1 ==> a.refinements == [])
    && (!a.judged.Good? && k < MaxRetries - 1 ==> a.refinements != [])
    && (|a.refinements| == 2 ==> a.judged.Weak? && a.refinements[0].Raises?)
  }

  /** Each attempt after the first searched the query its predecessor's last
      refiner call returned. */
  ghost predicate Chained<R>(t: seq<Attempt<R>>) {
    forall i :: 0 <= i < |t| - 1 ==>
      t[i].refinements != [] && t[i].refinements[|t[i].refinements| - 1] == Returns(t[i + 1].query)
  }

  ghost function OkFor<R>(o: Oracles<R>, quality: R -> Reply<bool>): (nat, Attempt<R>) -> bool {
    (k: nat, a: Attempt<R>) => StepOk(o, quality, k, a)
  }

  /** The result of the last weak attempt in `t`, or `init` when none was weak. */
  function LastWeak<R>(t: seq<Attempt<R>>, init: Option<R>): Option<R> {
    if t == [] then init
    else if t[|t| - 1].judged.Weak? then Some(t[|t| - 1].judged.result)
    else LastWeak(t[..|t| - 1], init)
  }

  lemma {:induction false} LastWeakCons<R>(a: Attempt<R>, t: seq<Attempt<R>>, init: Option<R>)
    ensures LastWeak([a] + t, init) == LastWeak(t, if a.judged.Weak? then Some(a.judged.result) else init)
    decreases |t|
  {
    if t != [] {
      assert ([a] + t)[..|t|] == [a] + t[..|t| - 1];
      LastWeakCons(a, t[..|t| - 1], init);
    }
  }

  lemma {:induction false} LastWeakNone<R>(t: seq<Attempt<R>>)
    requires forall i :: 0 <= i < |t| ==> !t[i].judged.Weak?
    ensures LastWeak(t, None) == None
    decreases |t|
  {
    if t != [] {
      LastWeakNone(t[..|t| - 1]);
    }
  }

  /** The last refiner call of the attempt raised. */
  predicate LastRaised<R>(a: Attempt<R>) {
    a.refinements != [] && a.refinements[|a.refinements| - 1].Raises?
  }

  /** What the loop needs to know of one step: a stop records one attempt,
      with query `q`, and returns early exactly on an accepted result or
      escapes exactly when its last refiner call raised; a step that goes on
      records an attempt with query `q` that was not accepted and did not
      escape, keeps the weak result (or `last`), and, unless it was the last
      attempt, searches next with what its last refiner call returned. */
  ghost predicate Shaped<R>(k: nat, q: string, last: Option<R>, s: Step<R>) {
    match s
    case Stop(run) =>
      && |run.trace| == 1 && run.trace[0].query == q
      && !run.exit.Exhausted?
      && (run.exit.Early? <==> run.trace[0].judged.Good?)
      && (run.exit.Early? ==> run.exit.result == run.trace[0].judged.result)
      && (run.exit.Escapes? <==> LastRaised(run.trace[0]))
    case Continue(a, next, kept) =>
      && a.query == q && !a.judged.Good? && !LastRaised(a)
      && kept == (if a.judged.Weak? then Some(a.judged.result) else last)
      && (k < MaxRetries - 1 ==> a.refinements != [] && a.refinements[|a.refinements| - 1] == Returns(next))
  }

  /** The attempts a step records satisfy `ok` at attempt number `k`. */
  ghost predicate Records<R>(ok: (nat, Attempt<R>) -> bool, k: nat, s: Step<R>) {
    match s
    case Stop(run) => |run.trace| == 1 && ok(k, run.trace[0])
    case Continue(a, _, _) => ok(k, a)
  }

  /** One attempt of `extract_with_retry` has the shape the loop relies on. */
  lemma AttemptStepShaped<R>(o: Oracles<R>, quality: R -> Reply<bool>, k: nat, q: string, last: Option<R>)
    requires k < MaxRetries
    ensures Shaped(k, q, last, AttemptStep(o, quality, k, q, last))
    ensures Records(OkFor(o, quality), k, AttemptStep(o, quality, k, q, last))
  {
  }

  lemma BodyShaped<R>(o: Oracles<R>, quality: R -> Reply<bool>)
    ensures forall k: nat, q: string, last: Option<R> :: k < MaxRetries ==> Shaped(k, q, last, Body(o, quality)(k, q, last))
  {
    forall k: nat, q: string, last: Option<R> | k < MaxRetries ensures Shaped(k, q, last, Body(o, quality)(k, q, last)) {
      AttemptStepShaped(o, quality, k, q, last);
    }
  }

  lemma BodyRecorded<R>(o: Oracles<R>, quality: R -> Reply<bool>)
    ensures forall k: nat, q: string, last: Option<R> :: k < MaxRetries ==>
      Records(OkFor(o, quality), k, Body(o, quality)(k, q, last))
  {
    forall k: nat, q: string, last: Option<R> | k < MaxRetries
      ensures Records(OkFor(o, quality), k, Body(o, quality)(k, q, last))
    {
      AttemptStepShaped(o, quality, k, q, last);
    }
  }

  /** A run from attempt `k` searches at least once and at most the attempts
      left, and starts with the query it was given. */
  lemma {:induction false} TraceShape<R>(step: StepFn<R>, k: nat, q: string, last: Option<R>)
    requires k < MaxRetries
    requires forall k: nat, q: string, last: Option<R> :: k < MaxRetries ==> Shaped(k, q, last, step(k, q, last))
    ensures var t := Loop(step, k, q, last).trace;
      1 <= |t| <= MaxRetries - k && t[0].query == q
    decreases MaxRetries - k
  {
    assert Shaped(k, q, last, step(k, q, last));
    match step(k, q, last)
    case Stop(run) =>
    case Continue(a, next, kept) =>
      if k + 1 < MaxRetries {
        TraceShape(step, k + 1, next, kept);
      }
  }

  /** Each attempt of a run starts from what the previous one's last refiner
      call returned. */
  lemma {:induction false} RunChained<R>(step: StepFn<R>, k: nat, q: string, last: Option<R>)
    requires k <= MaxRetries
    requires forall k: nat, q: string, last: Option<R> :: k < MaxRetries ==> Shaped(k, q, last, step(k, q, last))
    ensures Chained(Loop(step, k, q, last).trace)
    decreases MaxRetries - k
  {
    if k < MaxRetries {
      assert Shaped(k, q, last, step(k, q, last));
      match step(k, q, last)
      case Stop(run) =>
      case Continue(a, next, kept) =>
        RunChained(step, k + 1, next, kept);
        var rest := Loop(step, k + 1, next, kept).trace;
        var t := [a] + rest;
        assert Loop(step, k, q, last).trace == t;
        if k + 1 < MaxRetries {
          TraceShape(step, k + 1, next, kept);
        }
        forall i | 0 <= i < |t| - 1
          ensures t[i].refinements != [] && t[i].refinements[|t[i].refinements| - 1] == Returns(t[i + 1].query)
        {
          if i > 0 {
            assert t[i] == rest[i - 1] && t[i + 1] == rest[i];
          } else {
            assert k < MaxRetries - 1;
          }
        }
    }
  }

  /** An attempt satisfying `ok` at attempt number `k`, followed by attempts
      satisfying it from `k + 1` on, satisfy it from `k` on. */
  lemma RecordedCons<R>(ok: (nat, Attempt<R>) -> bool, k: nat, a: Attempt<R>, rest: seq<Attempt<R>>)
    requires ok(k, a)
    requires forall i {:trigger rest[i]} :: 0 <= i < |rest| ==> ok(k + 1 + i, rest[i])
    ensures forall i {:trigger ([a] + rest)[i]} :: 0 <= i < |[a] + rest| ==> ok(k + i, ([a] + rest)[i])
  {
    var t := [a] + rest;
    forall i | 0 <= i < |t| ensures ok(k + i, t[i]) {
      if i > 0 {
        var j := i - 1;
        assert t[i] == rest[j];
        assert ok(k + 1 + j, rest[j]);
      }
    }
  }

  /** When every step records attempts that satisfy `ok`, so does the run,
      attempt by attempt. */
  lemma {:induction false} RunRecorded<R>(step: StepFn<R>, ok: (nat, Attempt<R>) -> bool, k: nat, q: string, last: Option<R>)
    requires k <= MaxRetries
    requires forall k: nat, q: string, last: Option<R> :: k < MaxRetries ==> Records(ok, k, step(k, q, last))
    ensures forall i {:trigger Loop(step, k, q, last).trace[i]} :: 0 <= i < |Loop(step, k, q, last).trace| ==>
      ok(k + i, Loop(step, k, q, last).trace[i])
    decreases MaxRetries - k
  {
    if k < MaxRetries {
      assert Records(ok, k, step(k, q, last));
      match step(k, q, last)
      case Stop(run) =>
        assert ok(k + 0, run.trace[0]);
      case Continue(a, next, kept) =>
        RunRecorded(step, ok, k + 1, next, kept);
        var rest := Loop(step, k + 1, next, kept).trace;
        assert Loop(step, k, q, last).trace == [a] + rest;
        RecordedCons(ok, k, a, rest);
    }
  }

  /** Every attempt of a call of `extract_with_retry` followed the loop body. */
  lemma RunStepsOk<R>(o: Oracles<R>, quality: R -> Reply<bool>, query: string)
    ensures var t := RunExtract(o, quality, query).trace;
      forall i :: 0 <= i < |t| ==> StepOk(o, quality, i, t[i])
  {
    BodyRecorded(o, quality);
    RunRecorded(Body(o, quality), OkFor(o, quality), 0, query, None);
    var t := RunExtract(o, quality, query).trace;
    forall i | 0 <= i < |t| ensures StepOk(o, quality, i, t[i]) {
      assert OkFor(o, quality)(0 + i, t[i]);
    }
  }

  /** How a run ends, read off its trace (first half): it returns early
      exactly when its last attempt was accepted, and then returns that
      attempt's result; no earlier attempt was accepted. */
  lemma {:induction false} ExitEarly<R>(step: StepFn<R>, k: nat, q: string, last: Option<R>)
    requires k < MaxRetries
    requires forall k: nat, q: string, last: Option<R> :: k < MaxRetries ==> Shaped(k, q, last, step(k, q, last))
    ensures var run := Loop(step, k, q, last);
      var t := run.trace;
      && |t| > 0
      && (run.exit.Early? <==> t[|t| - 1].judged.Good?)
      && (run.exit.Early? ==> run.exit.result == t[|t| - 1].judged.result)
      && (forall i :: 0 <= i < |t| - 1 ==> !t[i].judged.Good?)
    decreases MaxRetries - k
  {
    TraceShape(step, k, q, last);
    assert Shaped(k, q, last, step(k, q, last));
    match step(k, q, last)
    case Stop(run) =>
    case Continue(a, next, kept) =>
      var run := Loop(step, k, q, last);
      if k + 1 < MaxRetries {
        ExitEarly(step, k + 1, next, kept);
        var rest := Loop(step, k + 1, next, kept);
        assert run.trace == [a] + rest.trace;
        forall i | 0 <= i < |run.trace| - 1 ensures !run.trace[i].judged.Good? {
          if i > 0 {
            assert run.trace[i] == rest.trace[i - 1];
          }
        }
      }
  }

  /** How a run ends, read off its trace (second half): it escapes exactly when
      the last refiner call of its last attempt raised; otherwise, when it did
      not return early, it has made every attempt and returns the last weak
      result, or `last` if no attempt was weak. */
  lemma {:induction false} ExitLate<R>(step: StepFn<R>, k: nat, q: string, last: Option<R>)
    requires k < MaxRetries
    requires forall k: nat, q: string, last: Option<R> :: k < MaxRetries ==> Shaped(k, q, last, step(k, q, last))
    ensures var run := Loop(step, k, q, last);
      var t := run.trace;
      && |t| > 0
      && (run.exit.Escapes? <==> LastRaised(t[|t| - 1]))
      && (run.exit.Exhausted? ==> |t| == MaxRetries - k && run.exit.last == LastWeak(t, last))
    decreases MaxRetries - k
  {
    TraceShape(step, k, q, last);
    assert Shaped(k, q, last, step(k, q, last));
    match step(k, q, last)
    case Stop(run) =>
    case Continue(a, next, kept) =>
      var run := Loop(step, k, q, last);
      if k + 1 == MaxRetries {
        assert run == Run(Exhausted(kept), [a]);
        LastWeakCons(a, [], last);
      } else {
        ExitLate(step, k + 1, next, kept);
        var rest := Loop(step, k + 1, next, kept);
        assert run.trace == [a] + rest.trace;
        assert run.trace[|run.trace| - 1] == rest.trace[|rest.trace| - 1];
        LastWeakCons(a, rest.trace, last);
      }
  }

  /** Both halves of how a run ends. */
  lemma ExitLaw<R>(step: StepFn<R>, k: nat, q: string, last: Option<R>)
    requires k < MaxRetries
    requires forall k: nat, q: string, last: Option<R> :: k < MaxRetries ==> Shaped(k, q, last, step(k, q, last))
    ensures var run := Loop(step, k, q, last);
      var t := run.trace;
      && |t| > 0
      && (run.exit.Early? <==> t[|t| - 1].judged.Good?)
      && (run.exit.Early? ==> run.exit.result == t[|t| - 1].judged.result)
      && (forall i :: 0 <= i < |t| - 1 ==> !t[i].judged.Good?)
      && (run.exit.Escapes? <==> LastRaised(t[|t| - 1]))
      && (run.exit.Exhausted? ==> |t| == MaxRetries - k && run.exit.last == LastWeak(t, last))
  {
    ExitEarly(step, k, q, last);
    ExitLate(step, k, q, last);
  }

  // ---------------------------------------------------------------------------
  // The properties of one call of `extract_with_retry`

  /** The search runs at least once and at most `MaxRetries` times, the first time
      with the caller's query unchanged, and each later time with what the
      refiner made of the previous attempt's query and raw results. The refiner
      runs after no accepted attempt and after no last attempt, so at most
      `MaxRetries - 1` refinements feed a search. */
  lemma SearchAndRefineDiscipline<R>(o: Oracles<R>, quality: R -> Reply<bool>, query: string)
    ensures var t := RunExtract(o, quality, query).trace;
      && 1 <= |t| <= MaxRetries && t[0].query == query
      && (forall i :: 0 <= i < |t| ==> t[i].raw == o.search(i, t[i].query))
      && (forall i :: 0 <= i < |t| - 1 ==>
            Returns(t[i + 1].query) == GenerateBetterQuery(o, i, |t[i].refinements| - 1, t[i].query, t[i].raw))
      && (forall i :: 0 <= i < |t| && (t[i].judged.Good? || i == MaxRetries - 1) ==> t[i].refinements == [])
  {
    BodyShaped(o, quality);
    TraceShape(Body(o, quality), 0, query, None);
    RunChained(Body(o, quality), 0, query, None);
    RunStepsOk(o, quality, query);
  }

  /** The first accepted result is returned at once: it comes from the last
      attempt made, nothing before it was accepted, and it is a reply of the
      structuring model that the quality predicate accepted. */
  lemma FirstGoodReturned<R>(o: Oracles<R>, quality: R -> Reply<bool>, query: string)
    ensures var run := RunExtract(o, quality, query);
      var t := run.trace;
      run.exit.Early? ==>
        && t[|t| - 1].judged == Good(run.exit.result)
        && o.structure(|t| - 1, t[|t| - 1].raw) == Returns(run.exit.result)
        && quality(run.exit.result) == Returns(true)
        && t[|t| - 1].refinements == []
        && (forall i :: 0 <= i < |t| - 1 ==> !t[i].judged.Good?)
  {
    BodyShaped(o, quality);
    ExitLaw(Body(o, quality), 0, query, None);
    RunStepsOk(o, quality, query);
  }

  /** Some attempt is accepted if and only if the call returns early. */
  lemma EarlyIffSomeGood<R>(o: Oracles<R>, quality: R -> Reply<bool>, query: string)
    ensures var run := RunExtract(o, quality, query);
      run.exit.Early? <==> exists i :: 0 <= i < |run.trace| && run.trace[i].judged.Good?
  {
    BodyShaped(o, quality);
    ExitLaw(Body(o, quality), 0, query, None);
  }

  /** Without an accepted attempt and without an escaping exception, all
      `MaxRetries` attempts run and the result is the LAST weak one, whatever
      the earlier weak ones were; weak results are never ranked. */
  lemma LastWeakWins<R>(o: Oracles<R>, quality: R -> Reply<bool>, query: string)
    ensures var run := RunExtract(o, quality, query);
      run.exit.Exhausted? ==>
        && |run.trace| == MaxRetries
        && run.exit.last == LastWeak(run.trace, None)
        && (forall i :: 0 <= i < MaxRetries ==> !run.trace[i].judged.Good?)
  {
    BodyShaped(o, quality);
    ExitLaw(Body(o, quality), 0, query, None);
  }

  /** A weak result remembered from a trace is the initial value or the
      result of one of its weak attempts. */
  lemma {:induction false} LastWeakIsWeak<R>(t: seq<Attempt<R>>, init: Option<R>)
    ensures LastWeak(t, init) == init
      || (LastWeak(t, init).Some? && exists i :: 0 <= i < |t| && t[i].judged == Weak(LastWeak(t, init).value))
    decreases |t|
  {
    if t != [] && !t[|t| - 1].judged.Weak? {
      LastWeakIsWeak(t[..|t| - 1], init);
      if LastWeak(t, init) != init {
        var i :| 0 <= i < |t| - 1 && t[..|t| - 1][i].judged == Weak(LastWeak(t, init).value);
        assert t[i] == t[..|t| - 1][i];
      }
    }
  }

  /** A result returned after the loop is one the quality predicate
      rejected: `last_result` is only ever set on the weak path. */
  lemma ExhaustedResultWasWeak<R>(o: Oracles<R>, quality: R -> Reply<bool>, query: string)
    ensures var run := RunExtract(o, quality, query);
      run.exit.Exhausted? && run.exit.last.Some? ==> quality(run.exit.last.value) == Returns(false)
  {
    var run := RunExtract(o, quality, query);
    if run.exit.Exhausted? && run.exit.last.Some? {
      LastWeakWins(o, quality, query);
      RunStepsOk(o, quality, query);
      LastWeakIsWeak(run.trace, None);
      var i :| 0 <= i < |run.trace| && run.trace[i].judged == Weak(run.exit.last.value);
      assert StepOk(o, quality, i, run.trace[i]);
    }
  }

  /** Two weak attempts: the second one's result is returned, not the first's. */
  lemma LaterWeakOverwrites<R>(o: Oracles<R>, quality: R -> Reply<bool>, query: string, i: nat, j: nat)
    requires var t := RunExtract(o, quality, query).trace;
      i < j < |t| && t[i].judged.Weak? && t[j].judged.Weak?
      && forall k :: j < k < |t| ==> !t[k].judged.Weak?
    requires RunExtract(o, quality, query).exit.Exhausted?
    ensures RunExtract(o, quality, query).exit.last == Some(RunExtract(o, quality, query).trace[j].judged.result)
  {
    LastWeakWins(o, quality, query);
    var t := RunExtract(o, quality, query).trace;
    LastWeakFrom(t, j);
  }

  lemma {:induction false} LastWeakFrom<R>(t: seq<Attempt<R>>, j: nat)
    requires j < |t| && t[j].judged.Weak?
    requires forall k :: j < k < |t| ==> !t[k].judged.Weak?
    ensures LastWeak(t, None) == Some(t[j].judged.result)
    decreases |t|
  {
    if j < |t| - 1 {
      LastWeakFrom(t[..|t| - 1], j);
    }
  }

  /** When every attempt raised, in structuring or in the quality predicate,
      and nothing escaped, the call returns None. */
  lemma AllRaisedGivesNone<R>(o: Oracles<R>, quality: R -> Reply<bool>, query: string)
    ensures var run := RunExtract(o, quality, query);
      (forall i :: 0 <= i < |run.trace| ==> run.trace[i].judged.StructuringRaised? || run.trace[i].judged.CheckRaised?)
      && !run.exit.Escapes?
      ==> run.exit == Exhausted(None) && PythonResult(run.exit) == Returns(None)
  {
    BodyShaped(o, quality);
    ExitLaw(Body(o, quality), 0, query, None);
    var run := RunExtract(o, quality, query);
    if (forall i :: 0 <= i < |run.trace| ==> run.trace[i].judged.StructuringRaised? || run.trace[i].judged.CheckRaised?)
      && !run.exit.Escapes?
    {
      LastWeakNone(run.trace);
    }
  }

  /** An exception escapes only from a refiner call made in the `except`
      clause: either the attempt itself raised, or it was weak and the first
      refiner call raised too. */
  lemma EscapeOnlyFromRefiner<R>(o: Oracles<R>, quality: R -> Reply<bool>, query: string)
    ensures var run := RunExtract(o, quality, query);
      var t := run.trace;
      var a := t[|t| - 1];
      run.exit.Escapes? ==>
        && |t| < MaxRetries
        && !a.judged.Good?
        && (a.judged.Weak? ==> |a.refinements| == 2 && a.refinements[0].Raises? && a.refinements[1].Raises?)
        && (!a.judged.Weak? ==> |a.refinements| == 1 && a.refinements[0].Raises?)
  {
    BodyShaped(o, quality);
    ExitLaw(Body(o, quality), 0, query, None);
    RunStepsOk(o, quality, query);
  }

  /** The structuring model's reply on attempt `k` to `raw` was a result the
      quality predicate accepted. */
  ghost predicate Accepted<R>(o: Oracles<R>, quality: R -> Reply<bool>, k: nat, raw: string) {
    o.structure(k, raw).Returns? && quality(o.structure(k, raw).value) == Returns(true)
  }

  /** A call that does not raise reports success exactly when some attempt's
      structured result was accepted by the quality predicate. */
  lemma SuccessIffSomeAccepted<R>(query: string, quality: R -> Reply<bool>, o: Oracles<R>, agentName: string)
    requires Extract(query, quality, o, agentName).Finished?
    ensures var t := RunExtract(o, quality, query).trace;
      (Extract(query, quality, o, agentName).outcome.success
       <==> exists i :: 0 <= i < |t| && Accepted(o, quality, i, t[i].raw))
  {
    EarlyIffSomeGood(o, quality, query);
    RunStepsOk(o, quality, query);
    var t := RunExtract(o, quality, query).trace;
    forall i | 0 <= i < |t| ensures t[i].judged.Good? <==> Accepted(o, quality, i, t[i].raw) {
      assert StepOk(o, quality, i, t[i]);
    }
  }

  /** A quality predicate that never accepts makes every call unsuccessful. */
  lemma NeverAcceptedNeverSucceeds<R>(o: Oracles<R>, quality: R -> Reply<bool>, query: string, agentName: string)
    requires forall r :: quality(r) != Returns(true)
    ensures !Extract(query, quality, o, agentName).Finished? || !Extract(query, quality, o, agentName).outcome.success
  {
    FirstGoodReturned(o, quality, query);
  }
}
