/** What `Gemini.run` promises, stated over the model in `Client`. */
module ClientProperties {
  import opened Wrappers
  import opened JsValue
  import opened TextOps
  import opened Directives
  import opened Messages
  import opened Client

  // ---- Status handling -------------------------------------------------------

  /** Any status other than 200 throws with the raw body text, unless it is a
      500 while the decremented counter is still positive; in particular a 500
      on the last attempt throws. */
  lemma NonOkThrows(f: Functions, q: string, decls: seq<Declaration>, s: State, responses: seq<Response>)
    requires |responses| > 0
    requires responses[0].status != 200
    requires !(responses[0].status == 500 && s.retry - 1 > 0)
    ensures Loop(f, q, decls, s, responses) == Outcome(Err(HttpError(responses[0].text)), responses[1..], [Payload(s.contents, decls)])
  {
  }

  /** A 200 goes straight on to the body, with the counter decremented. */
  lemma OkProceeds(f: Functions, q: string, decls: seq<Declaration>, s: State, responses: seq<Response>)
    requires |responses| > 0 && responses[0].status == 200
    ensures Loop(f, q, decls, s, responses) == Proceed(f, q, decls, s.(retry := s.retry - 1), responses[0].body, responses[1..])
  {
  }

  /** A 500 while budget is left re-runs the query first and then still reads
      the error body. An error body carries no candidates, so the loop ends
      there: the nested run's own result is discarded and, with nothing
      collected yet, `run` answers with the sentinel after a single fetch. */
  lemma ServerErrorEndsRun(f: Functions, q: string, text: string, more: seq<Response>)
    requires Declarations(f).Ok?
    requires Run(f, q, more).result.Ok?
    ensures var o := Run(f, q, [Response(500, text, Parsed(None))] + more);
      o.result == Ok(NoValues) && |o.sent| == 1 && o.rest == Run(f, q, more).rest
  {
    var responses := [Response(500, text, Parsed(None))] + more;
    assert responses[1..] == more;
    var decls := Declarations(f).value;
    var s := State([UserTurn(q)], [], 5);
    var nested := Run(f, q, more);
    assert Entries([]) == [];
    assert Dispatch(f, s.(retry := 4), Parsed(None)) == Ok(Continue(s.(retry := 4), false));
    assert Loop(f, q, decls, s, responses) == Proceed(f, q, decls, s.(retry := 4), Parsed(None), nested.rest);
  }

  /** A server that answers 500 to everything never lets `run` return: every
      500 with budget left recurses before the loop can go on, so over a finite
      list of responses the chain of nested runs only stops when they run out. */
  lemma {:induction false} AllServerErrorsFail(f: Functions, q: string, responses: seq<Response>)
    requires Declarations(f).Ok?
    requires forall i :: 0 <= i < |responses| ==> responses[i].status == 500
    ensures Run(f, q, responses).result == Err(FetchFailed)
    decreases |responses|
  {
    if |responses| > 0 {
      AllServerErrorsFail(f, q, responses[1..]);
    }
  }

  // ---- Dispatch ----------------------------------------------------------------

  /** A first candidate without `content.parts` (or no candidate at all) is
      collected as it is and ends the loop. */
  lemma PartlessCandidateStops(f: Functions, s: State, candidates: seq<Candidate>)
    requires !HasParts(candidates)
    ensures Dispatch(f, s, Parsed(Some(candidates))) == Ok(Stop(s.(results := s.results + [FirstCandidate(candidates)])))
  {
  }

  /** The parts of a body that has them; no candidates means no parts. */
  function BodyParts(candidates: Option<seq<Candidate>>): seq<Part>
    requires candidates.Some? ==> HasParts(candidates.value)
  {
    if candidates.Some? then candidates.value[0].parts.value else []
  }

  /** Parts without a function call are collected and the loop condition fails. */
  lemma NoCallContinues(f: Functions, s: State, candidates: Option<seq<Candidate>>)
    requires candidates.Some? ==> HasParts(candidates.value)
    requires forall j :: 0 <= j < |BodyParts(candidates)| ==> BodyParts(candidates)[j].functionCall.None?
    ensures Dispatch(f, s, Parsed(candidates)) == Ok(Continue(s.(results := s.results + Entries(BodyParts(candidates))), false))
  {
    assert FirstCall(BodyParts(candidates)) == |BodyParts(candidates)|;
  }

  /** What `res2.items || res2` is when `res2` is the directive's `items`
      argument: a truthy `items` nested inside it, or that argument itself. */
  function DirectiveValue(items: Value): Value {
    if items.Object? && "items" in items.props && Truthy(items.props["items"]) then items.props["items"] else items
  }

  /** With the constructor's table, a first function call naming anything
      but the five built-ins hits a property that is not a function. */
  lemma UnknownDirectiveThrows(s: State, candidates: seq<Candidate>)
    requires HasParts(candidates)
    requires FirstCall(candidates[0].parts.value) < |candidates[0].parts.value|
    requires candidates[0].parts.value[FirstCall(candidates[0].parts.value)].functionCall.value.name !in BuiltinNames
    ensures var name := candidates[0].parts.value[FirstCall(candidates[0].parts.value)].functionCall.value.name;
      Dispatch(DefaultFunctions, s, Parsed(Some(candidates))) == Err(TypeError(NotAFunction(name)))
  {
    DefaultHandlers(candidates[0].parts.value[FirstCall(candidates[0].parts.value)].functionCall.value.name);
  }

  /** With the constructor's table, the first function call naming a built-in
      returns `DirectiveValue` of `args.items`; falsy `args` (read as `null`),
      or `args` without a non-nullish `items`, throws. */
  lemma DirectiveExtraction(s: State, candidates: seq<Candidate>)
    requires HasParts(candidates)
    requires FirstCall(candidates[0].parts.value) < |candidates[0].parts.value|
    requires candidates[0].parts.value[FirstCall(candidates[0].parts.value)].functionCall.value.name in BuiltinNames
    ensures var args := candidates[0].parts.value[FirstCall(candidates[0].parts.value)].functionCall.value.args;
      var r := Dispatch(DefaultFunctions, s, Parsed(Some(candidates)));
      if args.Object? && "items" in args.props && !Nullish(args.props["items"]) then
        r == Ok(Return(DirectiveValue(args.props["items"])))
      else
        r == Err(TypeError(ReadOfNullish("items")))
  {
    var call := candidates[0].parts.value[FirstCall(candidates[0].parts.value)].functionCall.value;
    DefaultHandlers(call.name);
    if call.args.Object? && "items" in call.args.props {
      var v := call.args.props["items"];
      if !Nullish(v) {
        assert ItemsOf(v).Ok?;
      }
    }
  }

  /** A call to a non-built-in handler that succeeds appends the model turn
      (the response's parts, unmodified) and then the function turn, records
      the parts plus a `functionResponse` marker, and asks for another pass. */
  lemma ExtensionCallContinues(f: Functions, s: State, candidates: seq<Candidate>, v: Value)
    requires HasParts(candidates)
    requires FirstCall(candidates[0].parts.value) < |candidates[0].parts.value|
    requires var parts := candidates[0].parts.value;
      var call := parts[FirstCall(parts)].functionCall.value;
      && !IsCustomType(call.name)
      && Lookup(f, call.name).Some? && Lookup(f, call.name).value.Custom?
      && Lookup(f, call.name).value.apply(Or(call.args, Null)) == Ok(v)
    ensures var parts := candidates[0].parts.value;
      var call := parts[FirstCall(parts)].functionCall.value;
      Dispatch(f, s, Parsed(Some(candidates))) == Ok(Continue(State(
        s.contents + [Turn(parts, Model), FunctionTurn(call.name, v)],
        s.results + Entries(parts + [Part(None, None, Some(v))]),
        s.retry), true))
  {
    var parts := candidates[0].parts.value;
    var call := parts[FirstCall(parts)].functionCall.value;
    assert Invoke(f, call.name, Or(call.args, Null)) == Ok(v);
    assert s.contents + [Turn(parts, Model)] + [FunctionTurn(call.name, v)]
      == s.contents + [Turn(parts, Model), FunctionTurn(call.name, v)];
  }

  /** The conversation only grows by whole turns: a pass that goes on with a
      function call added exactly a model turn holding the response's parts
      and a function turn for a name outside the built-in prefix; every other
      pass leaves it as it was. */
  lemma ConversationGrowth(f: Functions, s: State, body: Body)
    ensures var r := Dispatch(f, s, body);
      && (r.Ok? && r.value.Continue? && r.value.found ==>
            var c := r.value.state.contents;
            && body.Parsed? && body.candidates.Some? && HasParts(body.candidates.value)
            && var parts := body.candidates.value[0].parts.value;
            && FirstCall(parts) < |parts|
            && !IsCustomType(parts[FirstCall(parts)].functionCall.value.name)
            && |c| == |s.contents| + 2
            && c[..|s.contents|] == s.contents
            && c[|s.contents|] == Turn(parts, Model)
            && c[|s.contents| + 1].role == Function)
      && (r.Ok? && (r.value.Stop? || (r.value.Continue? && !r.value.found)) ==>
            r.value.state.contents == s.contents)
  {
  }

  // ---- Fallback ----------------------------------------------------------------

  /** The sentinel is returned exactly when there is no last result, it is
      `undefined`, or it is a candidate blocked with `OTHER` or `RECITATION`. */
  lemma FallbackSentinel(results: seq<Entry>)
    ensures Fallback(results) == Ok(NoValues) <==>
      || |results| == 0
      || results[|results| - 1].Absent?
      || (results[|results| - 1].OfCandidate? && Blocked(results[|results| - 1].candidate.finishReason))
  {
  }

  /** A last part with text gives one trimmed line per line-feed-separated
      piece, in order; a last result with no text to split throws. */
  lemma FallbackLines(results: seq<Entry>)
    requires |results| > 0
    ensures var last := results[|results| - 1];
      && (last.OfPart? && last.part.text.Some? ==>
            var t := last.part.text.value;
            && Fallback(results).Ok? && Fallback(results).value.Lines?
            && var lines := Fallback(results).value.lines;
            && |lines| == multiset(t)['\n'] + 1
            && Join(Split(t)) == t
            && forall i :: 0 <= i < |lines| ==> lines[i] == Trim(Split(t)[i]))
      && ((last.OfPart? && last.part.text.None?) || (last.OfCandidate? && !Blocked(last.candidate.finishReason)) ==>
            Fallback(results) == Err(TypeError(ReadOfNullish("split"))))
  {
    var last := results[|results| - 1];
    if last.OfPart? && last.part.text.Some? {
      TrimmedLinesSpec(last.part.text.value);
    }
  }

  // ---- Whole runs ----------------------------------------------------------------

  /** The primary success path: a first reply whose single part calls a
      built-in directive with a non-nullish `items` returns it, through
      `DirectiveValue`, after one fetch. */
  lemma SingleDirectiveReply(q: string, name: string, v: Value, text: string, finishReason: Option<string>, more: seq<Response>)
    requires name in BuiltinNames
    requires !Nullish(v)
    ensures var reply := Response(200, text, Parsed(Some([Candidate(Some([CallPart(FunctionCall(name, Object(map["items" := v])))]), finishReason)])));
      var o := Run(DefaultFunctions, q, [reply] + more);
      o.result == Ok(Typed(DirectiveValue(v))) && |o.sent| == 1 && o.rest == more
  {
    DefaultDeclarations();
    var candidates := [Candidate(Some([CallPart(FunctionCall(name, Object(map["items" := v])))]), finishReason)];
    assert FirstCall(candidates[0].parts.value) == 0;
    var s := State([UserTurn(q)], [], 5);
    DirectiveExtraction(s.(retry := 4), candidates);
    var reply := Response(200, text, Parsed(Some(candidates)));
    var responses := [reply] + more;
    assert responses[1..] == more;
    var decls := Declarations(DefaultFunctions).value;
    assert Run(DefaultFunctions, q, responses) == Loop(DefaultFunctions, q, decls, s, responses);
    assert Loop(DefaultFunctions, q, decls, s, responses) == Proceed(DefaultFunctions, q, decls, s.(retry := 4), reply.body, more);
  }

  /** A first reply whose single part is text ends the loop there and comes
      back as that text's trimmed lines, after one fetch. */
  lemma TextReply(q: string, t: string, finishReason: Option<string>, more: seq<Response>)
    ensures var reply := Response(200, "", Parsed(Some([Candidate(Some([TextPart(t)]), finishReason)])));
      var o := Run(DefaultFunctions, q, [reply] + more);
      o.result == Ok(Lines(TrimmedLines(t))) && |o.sent| == 1 && o.rest == more
  {
    DefaultDeclarations();
    var candidates := [Candidate(Some([TextPart(t)]), finishReason)];
    var s := State([UserTurn(q)], [], 5);
    NoCallContinues(DefaultFunctions, s.(retry := 4), Some(candidates));
    assert Entries([TextPart(t)]) == [OfPart(TextPart(t))];
    var reply := Response(200, "", Parsed(Some(candidates)));
    var responses := [reply] + more;
    assert responses[1..] == more;
    var decls := Declarations(DefaultFunctions).value;
    assert Run(DefaultFunctions, q, responses) == Loop(DefaultFunctions, q, decls, s, responses);
    assert Loop(DefaultFunctions, q, decls, s, responses) == Proceed(DefaultFunctions, q, decls, s.(retry := 4), reply.body, more);
  }

  /** The text `"a\nb\nc"` comes back as the lines `a`, `b`, `c`, which
      `run` returns as the array `["a", "b", "c"]`. */
  lemma ThreeLineReply(q: string, finishReason: Option<string>, more: seq<Response>)
    ensures var reply := Response(200, "", Parsed(Some([Candidate(Some([TextPart("a\nb\nc")]), finishReason)])));
      var r := Run(DefaultFunctions, q, [reply] + more).result;
      r == Ok(Lines(["a", "b", "c"])) && ToValue(r.value) == Array([Str("a"), Str("b"), Str("c")])
  {
    TextReply(q, "a\nb\nc", finishReason, more);
    ThreeLines();
  }

  /** A reply blocked for recitation (no parts) gives the sentinel, which
      `run` returns as the string `"No values."`. */
  lemma BlockedReply(q: string, more: seq<Response>)
    ensures var reply := Response(200, "", Parsed(Some([Candidate(None, Some("RECITATION"))])));
      var r := Run(DefaultFunctions, q, [reply] + more).result;
      r == Ok(NoValues) && ToValue(r.value) == Str("No values.")
  {
    DefaultDeclarations();
    var reply := Response(200, "", Parsed(Some([Candidate(None, Some("RECITATION"))])));
    var s := State([UserTurn(q)], [], 5);
    var responses := [reply] + more;
    assert responses[1..] == more;
    var decls := Declarations(DefaultFunctions).value;
    assert Run(DefaultFunctions, q, responses) == Loop(DefaultFunctions, q, decls, s, responses);
    assert Loop(DefaultFunctions, q, decls, s, responses) == Proceed(DefaultFunctions, q, decls, s.(retry := 4), reply.body, more);
  }

  /** A reply that calls a succeeding non-built-in handler. */
  predicate CallsExtension(f: Functions, r: Response) {
    && r.status == 200
    && r.body.Parsed? && r.body.candidates.Some? && HasParts(r.body.candidates.value)
    && var parts := r.body.candidates.value[0].parts.value;
    && FirstCall(parts) < |parts|
    && var call := parts[FirstCall(parts)].functionCall.value;
    && !IsCustomType(call.name)
    && Lookup(f, call.name).Some? && Lookup(f, call.name).value.Custom?
    && Lookup(f, call.name).value.apply(Or(call.args, Null)).Ok?
  }

  /** While replies keep calling extension handlers, the loop goes on until
      the counter runs out: exactly one fetch per unit of budget. The last
      collected result is then the `functionResponse` marker, which has no
      text, so the fallback throws. */
  lemma {:induction false} ExtensionsExhaustBudget(f: Functions, q: string, decls: seq<Declaration>, s: State, responses: seq<Response>)
    requires 1 <= s.retry <= |responses|
    requires forall i :: 0 <= i < s.retry ==> CallsExtension(f, responses[i])
    ensures var o := Loop(f, q, decls, s, responses);
      |o.sent| == s.retry && o.result == Err(TypeError(ReadOfNullish("split")))
    decreases s.retry
  {
    var r := responses[0];
    assert CallsExtension(f, r);
    var candidates := r.body.candidates.value;
    var parts := candidates[0].parts.value;
    var call := parts[FirstCall(parts)].functionCall.value;
    var v := Lookup(f, call.name).value.apply(Or(call.args, Null)).value;
    var s1 := s.(retry := s.retry - 1);
    ExtensionCallContinues(f, s1, candidates, v);
    var next := Dispatch(f, s1, r.body).value.state;
    if s.retry > 1 {
      assert forall i :: 0 <= i < next.retry ==> responses[1..][i] == responses[i + 1];
      ExtensionsExhaustBudget(f, q, decls, next, responses[1..]);
    } else {
      var marked := parts + [Part(None, None, Some(v))];
      assert next.results[|next.results| - 1] == Entries(marked)[|marked| - 1];
    }
  }

  /** A whole run whose first five replies all call extension handlers makes
      exactly five fetches, the counter's initial value, and then throws. */
  lemma RunExhaustsBudget(f: Functions, q: string, responses: seq<Response>)
    requires Declarations(f).Ok?
    requires |responses| >= 5
    requires forall i :: 0 <= i < 5 ==> CallsExtension(f, responses[i])
    ensures var o := Run(f, q, responses);
      |o.sent| == 5 && o.result == Err(TypeError(ReadOfNullish("split")))
  {
    ExtensionsExhaustBudget(f, q, Declarations(f).value, State([UserTurn(q)], [], 5), responses);
  }
}
