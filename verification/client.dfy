/** `Gemini.run`: the request loop, the directive dispatch and the fallback.
    The HTTP endpoint is an oracle: the sequence of responses it will give,
    consumed one per fetch in the order the fetches happen. */
module Client {
  import opened Wrappers
  import opened JsValue
  import opened TextOps
  import opened Directives
  import opened Messages

  /** What `run` throws. */
  datatype Error =
    | HttpError(body: string)   // `new Error(res.getContentText())`
    | SyntaxError               // `JSON.parse` of a body that is not JSON
    | TypeError(cause: Cause)   // a property read or call on the wrong kind of value
    | FetchFailed               // the fetch itself threw: the oracle has no response left

  /** What `run` returns: a directive's value, the `"No values."` sentinel,
      or the trimmed lines of the last text. */
  datatype Output =
    | Typed(value: Value)
    | NoValues
    | Lines(lines: seq<string>)

  const Sentinel: string := "No values."

  /** The JavaScript value `run` returns for an output. */
  function ToValue(o: Output): (v: Value)
    ensures o.NoValues? ==> v == Str(Sentinel)
    ensures o.Lines? ==>
      && v.Array? && |v.elems| == |o.lines|
      && forall i :: 0 <= i < |o.lines| ==> v.elems[i] == Str(o.lines[i])
  {
    match o
    case Typed(v) => v
    case NoValues => Str(Sentinel)
    case Lines(lines) => Array(seq(|lines|, i requires 0 <= i < |lines| => Str(lines[i])))
  }

  /** The loop's local variables: `contents`, `results` and `retry`. */
  datatype State = State(contents: seq<Turn>, results: seq<Entry>, retry: int)

  /** How one response body ends an iteration: go on to the `while` test
      (`found` is the truthiness of `check`), `break`, or `return`. */
  datatype Step =
    | Continue(state: State, found: bool)
    | Stop(state: State)
    | Return(value: Value)

  /** The end of one invocation: its result, the responses it left unconsumed,
      and the payloads its own loop fetched (fetches of nested invocations excluded). */
  datatype Outcome = Outcome(result: Result<Output, Error>, rest: seq<Response>, sent: seq<Payload>)

  /** `parts.find((o) => o.hasOwnProperty("functionCall"))`, as a position:
      the first part that carries a function call, or `|parts|` when none does. */
  function FirstCall(parts: seq<Part>): (i: nat)
    ensures i <= |parts|
    ensures i < |parts| ==> parts[i].functionCall.Some?
    ensures forall j :: 0 <= j < i ==> parts[j].functionCall.None?
  {
    if |parts| == 0 || parts[0].functionCall.Some? then 0
    else 1 + FirstCall(parts[1..])
  }

  /** `candidates[0]?.content?.parts` is present. */
  predicate HasParts(candidates: seq<Candidate>) {
    |candidates| > 0 && candidates[0].parts.Some?
  }

  /** `candidates[0]`, `undefined` when there is no candidate. */
  function FirstCandidate(candidates: seq<Candidate>): Entry {
    if |candidates| == 0 then Absent else OfCandidate(candidates[0])
  }

  /** The finish reasons that make `run` give up with the sentinel. */
  predicate Blocked(finishReason: Option<string>) {
    finishReason.Some? && finishReason.value in ["OTHER", "RECITATION"]
  }

  /** The handling of one parsed response body (lines 135-164), given the
      state after the counter was decremented. */
  function Dispatch(f: Functions, s: State, body: Body): (r: Result<Step, Error>)
    ensures r.Ok? && r.value.Continue? ==>
      && IsPrefix(s.contents, r.value.state.contents)
      && IsPrefix(s.results, r.value.state.results)
      && r.value.state.retry == s.retry
    ensures r.Ok? && r.value.Stop? ==>
      && r.value.state.contents == s.contents
      && r.value.state.retry == s.retry
      && |r.value.state.results| == |s.results| + 1
      && IsPrefix(s.results, r.value.state.results)
  {
    match body
    case NotJson => Err(SyntaxError)
    case JsonNull => Err(TypeError(ReadOfNullish("candidates")))
    case Parsed(candidates) =>
      if candidates.Some? && !HasParts(candidates.value) then
        Ok(Stop(s.(results := s.results + [FirstCandidate(candidates.value)])))
      else
        var parts := if candidates.Some? then candidates.value[0].parts.value else [];
        var i := FirstCall(parts);
        if i == |parts| then
          Ok(Continue(s.(results := s.results + Entries(parts)), false))
        else
          var call := parts[i].functionCall.value;
          var withModel := s.contents + [Turn(parts, Model)];
          match Invoke(f, call.name, Or(call.args, Null))
          case Err(cause) => Err(TypeError(cause))
          case Ok(res2) =>
            if IsCustomType(call.name) then
              match ItemsOf(res2)
              case Err(cause) => Err(TypeError(cause))
              case Ok(items) => Ok(Return(Or(items, res2)))
            else
              var marked := parts + [Part(None, None, Some(res2))];
              Ok(Continue(State(withModel + [FunctionTurn(call.name, res2)], s.results + Entries(marked), s.retry), true))
  }

  /** The code after the loop (lines 166-174): the sentinel when there is no
      last result or it was blocked, otherwise its text split into trimmed
      lines; a last result without text throws when `split` is read. */
  function Fallback(results: seq<Entry>): Result<Output, Error> {
    var output := if |results| == 0 then Absent else results[|results| - 1];
    match output
    case Absent => Ok(NoValues)
    case OfCandidate(c) =>
      if Blocked(c.finishReason) then Ok(NoValues) else Err(TypeError(ReadOfNullish("split")))
    case OfPart(p) =>
      if p.text.None? then Err(TypeError(ReadOfNullish("split")))
      else Ok(Lines(TrimmedLines(p.text.value)))
  }

  function Max(a: int, b: int): int {
    if a < b then b else a
  }

  /** The payloads one loop sends: each conversation extends the one before,
      and every payload carries the same declarations. */
  predicate Chained(sent: seq<Payload>, decls: seq<Declaration>) {
    && (forall i :: 0 <= i < |sent| ==> sent[i].declarations == decls)
    && (forall i :: 0 < i < |sent| ==> IsPrefix(sent[i - 1].contents, sent[i].contents))
  }

  /** `run(q)` against the table `f` and the oracle `responses`. */
  function Run(f: Functions, q: string, responses: seq<Response>): (o: Outcome)
    decreases |responses|, 1
    ensures IsSuffix(o.rest, responses)
    ensures |o.sent| <= 5
    ensures Declarations(f).Err? ==> o == Outcome(Err(TypeError(Declarations(f).error)), responses, [])
    ensures Declarations(f).Ok? ==>
      && 1 <= |o.sent|
      && o.sent[0] == Payload([UserTurn(q)], Declarations(f).value)
      && Chained(o.sent, Declarations(f).value)
      && forall i :: 0 <= i < |o.sent| ==> IsPrefix([UserTurn(q)], o.sent[i].contents)
  {
    match Declarations(f)
    case Err(cause) => Outcome(Err(TypeError(cause)), responses, [])
    case Ok(decls) => Loop(f, q, decls, State([UserTurn(q)], [], 5), responses)
  }

  /** One pass of the `do … while` body, from the decrement to the fetch and
      the status test (lines 122-134). */
  function Loop(f: Functions, q: string, decls: seq<Declaration>, s: State, responses: seq<Response>): (o: Outcome)
    decreases |responses|, 0
    ensures IsSuffix(o.rest, responses)
    ensures 1 <= |o.sent| <= Max(1, s.retry)
    ensures o.sent[0] == Payload(s.contents, decls)
    ensures Chained(o.sent, decls)
    ensures forall i :: 0 <= i < |o.sent| ==> IsPrefix(s.contents, o.sent[i].contents)
  {
    var payload := Payload(s.contents, decls);
    var retry := s.retry - 1;
    if |responses| == 0 then Outcome(Err(FetchFailed), [], [payload])
    else
      var res := responses[0];
      if res.status == 500 && retry > 0 then
        var nested := Run(f, q, responses[1..]);
        SuffixTransitive(nested.rest, responses[1..], responses);
        if nested.result.Err? then Outcome(Err(nested.result.error), nested.rest, [payload])
        else Proceed(f, q, decls, s.(retry := retry), res.body, nested.rest)
      else if res.status != 200 then Outcome(Err(HttpError(res.text)), responses[1..], [payload])
      else Proceed(f, q, decls, s.(retry := retry), res.body, responses[1..])
  }

  /** The rest of the pass (lines 135-165) on the fetched `body`, with the
      responses still unconsumed in `rest`. */
  function Proceed(f: Functions, q: string, decls: seq<Declaration>, s: State, body: Body, rest: seq<Response>): (o: Outcome)
    decreases |rest|, 1
    ensures IsSuffix(o.rest, rest)
    ensures 1 <= |o.sent| <= 1 + Max(0, s.retry)
    ensures o.sent[0] == Payload(s.contents, decls)
    ensures Chained(o.sent, decls)
    ensures forall i :: 0 <= i < |o.sent| ==> IsPrefix(s.contents, o.sent[i].contents)
  {
    var payload := Payload(s.contents, decls);
    match Dispatch(f, s, body)
    case Err(e) => Outcome(Err(e), rest, [payload])
    case Ok(Return(v)) => Outcome(Ok(Typed(v)), rest, [payload])
    case Ok(Stop(s')) => Outcome(Fallback(s'.results), rest, [payload])
    case Ok(Continue(s', found)) =>
      if found && s'.retry > 0 then
        var next := Loop(f, q, decls, s', rest);
        var sent := [payload] + next.sent;
        forall i | 0 < i < |sent| ensures IsPrefix(s.contents, sent[i].contents) {
          PrefixTransitive(s.contents, s'.contents, sent[i].contents);
        }
        assert sent[1] == Payload(s'.contents, decls);
        Outcome(next.result, next.rest, sent)
      else Outcome(Fallback(s'.results), rest, [payload])
  }
}
