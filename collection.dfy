/** The deterministic part of `collect_info_node` in
    src/agents/SupervisorAgent.py: the model's reply is stripped of a
    markdown code fence, parsed as JSON, checked for the six required fields,
    and either turned into a TripRequest or answered with the list of missing
    fields.

    The three language-model calls are inputs (`Reply<string>`: their text or
    the exception they raise), and `json.loads` is the oracle `parse`, `None`
    standing for JSONDecodeError. */
module Collection {
  import opened Wrappers
  import opened Text
  import opened Requests
  import opened States

  /** A value `json.loads` returns. */
  datatype Json =
    | JNull
    | JBool(b: bool)
    | JInt(i: int)
    | JFloat(r: real)
    | JStr(s: string)
    | JList(items: seq<Json>)
    | JDict(fields: map<string, Json>)

  /** Python truthiness: None, False, 0, 0.0, "" and empty containers are false. */
  predicate Truthy(j: Json) {
    match j
    case JNull => false
    case JBool(b) => b
    case JInt(i) => i != 0
    case JFloat(r) => r != 0.0
    case JStr(s) => s != ""
    case JList(items) => items != []
    case JDict(fields) => fields != map[]
  }

  const Fence: string := "```"
  const JsonTag: string := "json"

  /** The reply text `json.loads` is given: the stripped reply, or, when it
      holds a code fence, the stripped text between its first two fences with
      each non-overlapping "json" removed in one left-to-right pass. */
  function Unfenced(content: string): string {
    var raw := Strip(content);
    if Find(raw, Fence).Some? then Strip(RemoveAll(SecondField(raw, Fence), JsonTag)) else raw
  }

  /** A reply without a fence is only stripped. */
  lemma UnfencedWithoutFence(content: string)
    requires !Contains(Strip(content), Fence)
    ensures Unfenced(content) == Strip(content)
  {
  }

  /** A fenced reply `a ``` b ``` c` (no fence inside `a` or `b`) becomes `b`
      with "json" removed and whitespace stripped: the language tag and the
      text around the block are dropped. */
  lemma UnfencedBlock(content: string, a: string, b: string, c: string)
    requires Strip(content) == a + Fence + b + Fence + c
    requires !Contains(a + Fence[..2], Fence) && !Contains(b + Fence[..2], Fence)
    ensures Unfenced(content) == Strip(RemoveAll(b, JsonTag))
  {
    assert Fence[..|Fence| - 1] == Fence[..2];
    SecondFieldBetween(a, b, c, Fence);
  }

  /** The tagged block's text before the closing fence holds no fence. */
  lemma TaggedBlockFenceFree(body: string)
    requires !Contains(body, Fence)
    ensures !Contains(JsonTag + ("\n" + body + "\n") + Fence[..2], Fence)
  {
    var tail := body + ['\n'] + Fence[..2];
    assert JsonTag + ("\n" + body + "\n") + Fence[..2] == JsonTag + ['\n'] + tail;
    AbsentFirst(JsonTag, Fence);
    assert !Contains(Fence[..2], Fence);
    if Contains(tail, Fence) {
      ContainsAcross(body, '\n', Fence[..2], Fence);
    }
    if Contains(JsonTag + ['\n'] + tail, Fence) {
      ContainsAcross(JsonTag, '\n', tail, Fence);
    }
  }

  /** Two line feeds around a text without "json" add none. */
  lemma LinesTagFree(body: string)
    requires !Contains(body, JsonTag)
    ensures !Contains("\n" + body + "\n", JsonTag)
  {
    assert !Contains([], JsonTag);
    assert "\n" + body + "\n" == [] + ['\n'] + (body + ['\n'] + []);
    if Contains(body + ['\n'] + [], JsonTag) {
      ContainsAcross(body, '\n', [], JsonTag);
    }
    if Contains([] + ['\n'] + (body + ['\n'] + []), JsonTag) {
      ContainsAcross([], '\n', body + ['\n'] + [], JsonTag);
    }
  }

  /** The reply the prompt asks for, a block tagged "json" holding the
      object, yields exactly the stripped object. */
  lemma UnfencedJsonBlock(body: string)
    requires !Contains(body, Fence) && !Contains(body, JsonTag)
    ensures Unfenced(Fence + JsonTag + "\n" + body + "\n" + Fence) == Strip(body)
  {
    var content := Fence + JsonTag + "\n" + body + "\n" + Fence;
    var inner := "\n" + body + "\n";
    var b := JsonTag + inner;
    assert content[0] == '`' && content[|content| - 1] == '`';
    StripKeepsTrimmed(content);
    assert content == [] + Fence + b + Fence + [];
    assert !Contains([] + Fence[..2], Fence);
    TaggedBlockFenceFree(body);
    UnfencedBlock(content, [], b, []);
    RemoveAllFront(inner, JsonTag);
    LinesTagFree(body);
    StripLines(body);
  }

  /** The stripped result has no whitespace at either end. */
  lemma UnfencedTrimmed(content: string)
    ensures NoEdgeSpace(Unfenced(content))
  {
    var raw := Strip(content);
    StripTrims(content);
    if Find(raw, Fence).Some? {
      StripTrims(RemoveAll(SecondField(raw, Fence), JsonTag));
    }
  }

  /** The keys of the dictionary the extraction prompt asks for. */
  const OriginKey: string := "origin"
  const DestinationKey: string := "destination"
  const NumPeopleKey: string := "num_people"
  const StartDateKey: string := "start_date"
  const EndDateKey: string := "end_date"
  const BudgetKey: string := "budget_per_person"
  const InterestsKey: string := "interests"

  /** The fields the node insists on, in the order it reports them. */
  const Required: seq<string> := [OriginKey, DestinationKey, NumPeopleKey, StartDateKey, EndDateKey, BudgetKey]

  /** `data.get(key)`: the value, or None when the key is absent. */
  function Get(data: map<string, Json>, key: string): Json {
    if key in data then data[key] else JNull
  }

  /** `[f for f in keys if not data.get(f)]`. */
  function MissingFrom(keys: seq<string>, data: map<string, Json>): seq<string> {
    if keys == [] then []
    else (if Truthy(Get(data, keys[0])) then [] else [keys[0]]) + MissingFrom(keys[1..], data)
  }

  function Missing(data: map<string, Json>): seq<string> {
    MissingFrom(Required, data)
  }

  /** `a` is `b` with some elements deleted, the rest kept in order. */
  ghost predicate Subsequence(a: seq<string>, b: seq<string>)
    decreases |b|
  {
    if a == [] then true
    else if b == [] then false
    else (a[0] == b[0] && Subsequence(a[1..], b[1..])) || Subsequence(a, b[1..])
  }

  /** The missing list names exactly the keys whose value is absent, null or
      falsy, in the order of `keys`. */
  lemma {:induction false} MissingFromExactly(keys: seq<string>, data: map<string, Json>)
    ensures forall k :: k in MissingFrom(keys, data) <==> k in keys && !Truthy(Get(data, k))
    ensures Subsequence(MissingFrom(keys, data), keys)
    decreases |keys|
  {
    if keys != [] {
      MissingFromExactly(keys[1..], data);
      var rest := MissingFrom(keys[1..], data);
      assert forall k :: k in keys <==> k == keys[0] || k in keys[1..];
      if Truthy(Get(data, keys[0])) {
        assert MissingFrom(keys, data) == rest;
        SubsequenceSkip(rest, keys);
      } else {
        assert MissingFrom(keys, data) == [keys[0]] + rest;
        assert ([keys[0]] + rest)[1..] == rest;
      }
    }
  }

  /** Dropping the head of `b` keeps a subsequence of its tail a subsequence. */
  lemma SubsequenceSkip(a: seq<string>, b: seq<string>)
    requires b != [] && Subsequence(a, b[1..])
    ensures Subsequence(a, b)
  {
  }

  /** With no value at all, every key is missing. */
  lemma {:induction false} MissingFromEmpty(keys: seq<string>)
    ensures MissingFrom(keys, map[]) == keys
    decreases |keys|
  {
    if keys != [] {
      MissingFromEmpty(keys[1..]);
      assert [keys[0]] + keys[1..] == keys;
    }
  }

  /** Exactly the required fields that are absent, null or falsy are reported,
      in the fixed order; `interests` never is; and an empty dictionary (what
      a reply that does not parse becomes) misses all six. */
  lemma MissingExactly(data: map<string, Json>)
    ensures forall k :: k in Missing(data) <==> k in Required && !Truthy(Get(data, k))
    ensures Subsequence(Missing(data), Required)
    ensures InterestsKey !in Missing(data)
    ensures Missing(map[]) == Required
  {
    MissingFromExactly(Required, data);
    MissingFromEmpty(Required);
    assert forall k :: k in Required ==> |k| != |InterestsKey|;
  }

  /** Python's `int(x)` for a parsed JSON value: floats truncate toward zero,
      booleans count as 0 and 1, anything else raises. */
  function IntOf(j: Json): Reply<int> {
    match j
    case JInt(i) => Returns(i)
    case JFloat(r) => Returns(if r >= 0.0 then r.Floor else -((-r).Floor))
    case JBool(b) => Returns(if b then 1 else 0)
    case _ => Raises
  }

  /** Python's `float(x)` for a parsed JSON value. */
  function FloatOf(j: Json): Reply<real> {
    match j
    case JInt(i) => Returns(i as real)
    case JFloat(r) => Returns(r)
    case JBool(b) => Returns(if b then 1.0 else 0.0)
    case _ => Raises
  }

  /** A `str` field of TripRequest: the model's validation accepts only strings. */
  function StrOf(j: Json): Reply<string> {
    if j.JStr? then Returns(j.s) else Raises
  }

  /** The `Optional[str]` field `interests`: None for an absent or null value. */
  function OptStrOf(j: Json): Reply<Option<string>> {
    match j
    case JNull => Returns(None)
    case JStr(s) => Returns(Some(s))
    case _ => Raises
  }

  /** `TripRequest(origin=data[OriginKey], ..., num_people=int(...),
      budget_per_person=float(...), interests=data.get(InterestsKey))`. */
  function BuildRequest(data: map<string, Json>): (r: Reply<TripRequest>)
    ensures r.Returns? ==>
      && Get(data, OriginKey) == JStr(r.value.origin)
      && Get(data, DestinationKey) == JStr(r.value.destination)
      && IntOf(Get(data, NumPeopleKey)) == Returns(r.value.numPeople)
      && Get(data, StartDateKey) == JStr(r.value.startDate)
      && Get(data, EndDateKey) == JStr(r.value.endDate)
      && FloatOf(Get(data, BudgetKey)) == Returns(r.value.budgetPerPerson)
      && OptStrOf(Get(data, InterestsKey)) == Returns(r.value.interests)
    ensures r.Returns? <==>
      && StrOf(Get(data, OriginKey)).Returns?
      && StrOf(Get(data, DestinationKey)).Returns?
      && IntOf(Get(data, NumPeopleKey)).Returns?
      && StrOf(Get(data, StartDateKey)).Returns?
      && StrOf(Get(data, EndDateKey)).Returns?
      && FloatOf(Get(data, BudgetKey)).Returns?
      && OptStrOf(Get(data, InterestsKey)).Returns?
  {
    match (StrOf(Get(data, OriginKey)), StrOf(Get(data, DestinationKey)), IntOf(Get(data, NumPeopleKey)))
    case (Returns(origin), Returns(destination), Returns(n)) =>
      (match (StrOf(Get(data, StartDateKey)), StrOf(Get(data, EndDateKey)),
              FloatOf(Get(data, BudgetKey)), OptStrOf(Get(data, InterestsKey)))
       case (Returns(start), Returns(end), Returns(budget), Returns(interests)) =>
         Returns(TripRequest(origin, destination, n, start, end, budget, interests))
       case _ => Raises)
    case _ => Raises
  }

  /** `collect_info_node(state)`, given the extraction reply, `json.loads`,
      and the replies of the confirmation and the follow-up question calls. */
  function CollectInfo(extraction: Reply<string>, parse: string -> Option<Json>,
                       confirm: Reply<string>, ask: Reply<string>): (r: Reply<Update>)
    ensures r.Returns? ==> r.value.nextStep == Some(DispatchStep) || r.value.nextStep == Some(CollectInfoStep)
    ensures r.Returns? ==> |r.value.messages| == 1 && r.value.research.None? && r.value.failedAgents.None?
    ensures r.Raises? <==>
      || extraction.Raises?
      || !Data(extraction.value, parse).JDict?
      || (var fields := Data(extraction.value, parse).fields;
          if Missing(fields) == [] then BuildRequest(fields).Raises? || confirm.Raises?
          else ask.Raises?)
  {
    match extraction
    case Raises => Raises
    case Returns(content) =>
      var data := parse(Unfenced(content)).GetOr(JDict(map[]));
      if !data.JDict? then Raises
      else
        var missing := Missing(data.fields);
        if missing == [] then
          match (BuildRequest(data.fields), confirm)
          case (Returns(req), Returns(text)) =>
            Returns(Update(messages := [AIMessage(text)], tripRequest := Some(req),
                           missingFields := Some([]), nextStep := Some(DispatchStep)))
          case _ => Raises
        else
          match ask
          case Returns(text) =>
            Returns(Update(messages := [AIMessage(text)], missingFields := Some(missing),
                           nextStep := Some(CollectInfoStep)))
          case Raises => Raises
  }

  /** The dictionary the node reads: the parsed reply, or `{}` when it does not parse. */
  function Data(content: string, parse: string -> Option<Json>): Json {
    parse(Unfenced(content)).GetOr(JDict(map[]))
  }

  /** When the node returns, it parsed a dictionary; it moves on to "dispatch"
      exactly when it built a request, which it does exactly when no required
      field is missing; otherwise it stays at "collect_info" and reports the
      missing fields, in order, without a request. */
  lemma CollectOutcome(content: string, parse: string -> Option<Json>, confirm: Reply<string>, ask: Reply<string>)
    requires CollectInfo(Returns(content), parse, confirm, ask).Returns?
    ensures var u := CollectInfo(Returns(content), parse, confirm, ask).value;
      var data := Data(content, parse);
      && data.JDict?
      && (u.nextStep == Some(DispatchStep) <==> u.tripRequest.Some?)
      && (u.tripRequest.Some? <==> forall k :: k in Required ==> Truthy(Get(data.fields, k)))
      && (u.tripRequest.Some? ==>
            u.missingFields == Some([]) && BuildRequest(data.fields) == Returns(u.tripRequest.value)
            && confirm == Returns(u.messages[0].content))
      && (u.tripRequest.None? ==>
            u.nextStep == Some(CollectInfoStep) && u.missingFields == Some(Missing(data.fields))
            && Missing(data.fields) != [] && ask == Returns(u.messages[0].content))
  {
    var data := Data(content, parse);
    MissingExactly(data.fields);
    if Missing(data.fields) != [] {
      var k := Missing(data.fields)[0];
      assert k in Missing(data.fields);
    }
    assert DispatchStep != CollectInfoStep by {
      assert |DispatchStep| != |CollectInfoStep|;
    }
  }

  /** A reply that does not parse keeps the conversation going: all six
      required fields are reported missing and the node stays at "collect_info". */
  lemma UnparseableAsksForAll(content: string, parse: string -> Option<Json>, confirm: Reply<string>, text: string)
    requires parse(Unfenced(content)).None?
    ensures CollectInfo(Returns(content), parse, confirm, Returns(text))
      == Returns(Update(messages := [AIMessage(text)], missingFields := Some(Required), nextStep := Some(CollectInfoStep)))
  {
    MissingExactly(map[]);
  }

  /** A reply that parses to something other than a dictionary makes
      `data.get` raise. */
  lemma NonDictionaryRaises(content: string, parse: string -> Option<Json>, confirm: Reply<string>, ask: Reply<string>)
    requires parse(Unfenced(content)).Some? && !parse(Unfenced(content)).value.JDict?
    ensures CollectInfo(Returns(content), parse, confirm, ask).Raises?
  {
  }
}
