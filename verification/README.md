# Typed output from the Gemini API — a Dafny model of `Gemini.run`

The `Gemini` class sends one natural-language query to the `generateContent`
endpoint together with five pseudo-functions, `customType_string`,
`customType_number`, `customType_boolean`, `customType_array` and
`customType_object`. The model "calls" one of them to say which type its
answer has. `run` returns that call's `items` argument, or a truthy `items`
nested in it. When no directive fires, it returns the last text of the reply split into trimmed lines, or the
sentinel `"No values."`.

This project models the constructor's function table and all of `run`: the
declaration list, the `do … while` loop with its retry counter of 5, the
status checks, the dispatch of the first function-call part, and the code
after the loop. HTTP is an oracle. `run` is given the sequence of responses
the endpoint will return, already parsed, and consumes one per fetch in the
order the fetches happen. The recursive `this.run(q)` on a 500 is modelled
as a real nested run: it consumes responses from the same oracle, its result
is discarded and its exception propagates. Time-outs and stack depth are not
modelled (see "## Left out"). Every thrown error is a value of
`Client.Error`; nothing is excluded by a precondition.

Files:
- `wrappers.dfy` — `Option`, `Result`, prefix and suffix predicates.
- `json.dfy` — JavaScript values with `undefined`, truthiness, `||`, reading `items`.
- `text.dfy` — `split("\n")`, `trim()` and their properties.
- `directives.dfy` — the function table, the constructor's table, the declaration list.
- `messages.dfy` — parts, turns, payloads, candidates and responses.
- `client.dfy` — `Run`, `Loop`, `Proceed`, `Dispatch`, `Fallback`.
- `client_properties.dfy` — lemmas about whole passes and whole runs.

Behaviour of the code worth knowing, each proved below:
- An endpoint that answers 500 to everything does not get five attempts.
  Each 500 with budget left first re-runs the query, and that nested run
  meets the same 500s. So the chain never returns normally:
  in this model, whose response list is finite, `AllServerErrorsFail` shows
  it ends only when the responses run out (`FetchFailed`). When the
  nested run does return, the outer loop then parses the 500's error body.
  That body has no `candidates`, so the loop stops after one attempt
  (`ServerErrorEndsRun`).
- The handler result `res2` already is `args.items`, so `res2.items || res2`
  returns a truthy `items` nested inside it, and otherwise `args.items`
  itself. When `args` has no non-nullish `items`, the code throws a
  TypeError (`DirectiveExtraction`).
- The extension path exists in the code: a non-`customType_` call appends a
  function turn and goes on looping. In this model the constructor's table
  never reaches it, because every other name is taken to hold no function
  (names inherited from `Object.prototype` are treated as absent; see
  "## Left out"). It is modelled over any table (`Directives.Functions`) so
  it can be stated.
- A candidate without parts whose finish reason is neither `OTHER` nor
  `RECITATION` is not answered with the sentinel. The code reads `text` of
  that candidate, finds `undefined`, and throws when it reads `split`
  (`FallbackLines`).

## Model

| member | source | states |
|---|---|---|
| Directives.DeclareSpec | ClassGemini.js:108-116 | over any key list, the `flatMap` succeeds exactly when every key but `params_` has a `params_` entry; over a key list without `params_`, it gives one declaration per key, in order, carrying that key's entry |
| Directives.DeclarationsSpec | ClassGemini.js:108-116 | for a table whose handler keys do not repeat `params_`: `params_` is skipped, the list fails exactly when a handler key has no `params_` entry, and otherwise holds one declaration per handler key, in key order, with that key's description and parameters |
| Directives.DefaultDeclarations | ClassGemini.js:14-97 | the constructor's table declares exactly the five `customType_*` directives, in order, each with its description and an `items` parameter of type STRING, NUMBER, BOOLEAN, ARRAY or OBJECT |
| Directives.DefaultHandlers | ClassGemini.js:92-96 | in the constructor's table only the five built-in names hold functions, each is `(e) => e.items`, and each starts with `customType_` |
| JsValue.ItemsOf | ClassGemini.js:92-96 | `e.items` throws exactly on `undefined` and `null`, yields an object's own `items`, and is `undefined` otherwise |
| Client.FirstCall | ClassGemini.js:141 | the part dispatched is the first one carrying a `functionCall`; no earlier part has one |
| Client.Dispatch | ClassGemini.js:135-164 | a pass that goes on only appends to the conversation and to the results and keeps the counter; a `break` adds exactly one result and nothing else |
| Client.Run | ClassGemini.js:107-165 | one invocation fetches at most 5 times; the first payload is the lone user turn with the declarations; every later payload's conversation extends the previous one and still starts with that user turn; a failing declaration list throws before any fetch |
| Client.Loop | ClassGemini.js:120-134 | a pass entered with counter `k` fetches at least once and at most `max(1, k)` times in all, and consumes responses only from the front |
| Client.Proceed | ClassGemini.js:135-165 | after a fetch with counter `k` left, at most `k` more fetches follow, each sending a conversation extending the last |
| ClientProperties.NonOkThrows | ClassGemini.js:129-134 | a status other than 200 throws an error carrying the raw body text, unless it is a 500 with the decremented counter positive; a 500 on the last attempt throws |
| ClientProperties.OkProceeds | ClassGemini.js:129-135 | a 200 goes straight on to parsing its body with the counter decremented |
| ClientProperties.ServerErrorEndsRun | ClassGemini.js:129-141 | after a 500 whose nested re-run returns, the nested result is discarded, the error body yields no parts, and `run` returns `"No values."` after one fetch of its own |
| ClientProperties.AllServerErrorsFail | ClassGemini.js:129-131 | if the endpoint only ever answers 500, `run` never returns a value: over a finite response list the nested re-runs end only when the responses run out (`FetchFailed`) |
| ClientProperties.PartlessCandidateStops | ClassGemini.js:136-139 | a first candidate without `content.parts`, or no candidate at all, is appended to the results and the loop breaks |
| ClientProperties.NoCallContinues | ClassGemini.js:140-165 | parts without any function call are all appended to the results and the loop condition is false |
| ClientProperties.UnknownDirectiveThrows | ClassGemini.js:144-147 | with the constructor's table, a first function call naming anything but the five built-ins (`params_` included) throws "not a function" |
| ClientProperties.DirectiveExtraction | ClassGemini.js:141-150 | with the constructor's table, the first call naming a built-in returns `args.items`, or the truthy `items` nested in it; falsy `args` or a missing or nullish `items` throws |
| ClientProperties.ExtensionCallContinues | ClassGemini.js:142-163 | a succeeding non-built-in call appends the model turn with the unmodified parts and then the function turn, records the parts plus a `functionResponse` marker, and asks for another pass |
| ClientProperties.ConversationGrowth | ClassGemini.js:142-164 | the conversation grows by exactly a model turn and a function turn when a call is answered and goes on, that call's name is not a `customType_` name, and every other pass leaves the conversation unchanged |
| ClientProperties.FallbackSentinel | ClassGemini.js:166-173 | the fallback is `"No values."` exactly when there is no last result, it is `undefined`, or it is a candidate finished with `OTHER` or `RECITATION` |
| ClientProperties.FallbackLines | ClassGemini.js:166-174 | a last part with text yields one trimmed line per newline-separated piece, in order, one more than the newlines; a last result without text throws on `split` |
| ClientProperties.SingleDirectiveReply | ClassGemini.js:145-150 | a first reply calling a built-in directive with a non-nullish `items` returns it (or the truthy `items` inside it) after one fetch |
| ClientProperties.TextReply | ClassGemini.js:164-174 | a first reply with a single text part returns that text's trimmed lines after one fetch |
| ClientProperties.ThreeLineReply | ClassGemini.js:174 | the reply text `"a\nb\nc"` makes `run` return the array `["a", "b", "c"]` |
| ClientProperties.BlockedReply | ClassGemini.js:136-173 | a first candidate without parts, finished with `RECITATION`, makes `run` return the string `"No values."` |
| ClientProperties.ExtensionsExhaustBudget | ClassGemini.js:151-165 | while replies keep calling extension handlers, the loop makes exactly one fetch per unit of counter and then throws, because the last result is the text-less `functionResponse` marker |
| ClientProperties.RunExhaustsBudget | ClassGemini.js:120-165 | a run whose first five replies all call extension handlers makes exactly five fetches, the counter's start value, and then throws |
| TextOps.Split | ClassGemini.js:174 | `split("\n")` yields at least one piece and no piece contains a newline |
| TextOps.JoinSplit | ClassGemini.js:174 | joining the pieces with newlines gives back the text |
| TextOps.SplitJoin | ClassGemini.js:174 | splitting a join of newline-free pieces gives back the pieces |
| TextOps.SplitCount | ClassGemini.js:174 | there is exactly one more piece than the text has newlines |
| TextOps.TrimBounds | ClassGemini.js:174 | `trim` keeps a slice whose margins are whitespace and whose ends, unless empty, are not |
| TextOps.TrimUnique | ClassGemini.js:174 | that slice is unique: any slice with whitespace margins and non-whitespace ends is what `trim` returns |
| TextOps.TrimIdempotent | ClassGemini.js:174 | trimming twice is trimming once |
| TextOps.TrimmedLinesSpec | ClassGemini.js:174 | the fallback lines are the trims of the newline-separated pieces, in order, as many as newlines plus one |
| TextOps.TrimmedLinesOfTrimmed | ClassGemini.js:174 | pieces that already have non-whitespace ends come back unchanged |

## Left out

- `UrlFetchApp.fetch`, its options, `JSON.stringify` and `JSON.parse` are Apps Script I/O and serialisation. Responses are oracle values already parsed. A fetch that throws is modelled as the oracle having no response left (`FetchFailed`).
- `console.warn` on a 500 is logging only.
- The URL built from the model name, the API version and the key is string interpolation only.
- sample5.js is demonstration code that builds a client and logs one result; it is not part of this model.
- Client.Run: `sent` lists only the payloads of this invocation's own loop. The fetches of nested re-runs are counted in the responses they consume, not listed.
- Response bodies are modelled only in the shapes the endpoint documents. `candidates` is an array of candidates or absent, `parts` is an array, a `functionCall` is an object with a string `name`, and `text` is a string. Stranger JSON (say, `candidates` as a string) is not modelled.
- Property names inherited from `Object.prototype` (such as `toString`) are treated as absent. A function call with such a name is modelled as "not a function".
- `Directives.Functions` keeps the object's key order as `params_` followed by the handler names, as the constructor writes them. Handler names are looked up first match; a JavaScript object has no duplicate keys anyway.
- Numbers are exact reals, truthy when not zero. `JSON.parse` yields no NaN, but it rounds to doubles: a literal too large becomes `Infinity` (truthy, as its real is), and a literal too small, such as `1e-400`, becomes `0` (falsy), while its real is not zero. The model does not round, so such an underflowing `args` or `items` is read as truthy in `args || null` and `res2.items || res2`.
- The mutation `parts.push(...)` of the parsed response is not observable after the push, so it is folded into the collected results.
- `JSON.stringify` drops an `undefined` `content` from a function turn. The model keeps the value in the turn.
- An extension handler (`Directives.Custom`) that throws is modelled as throwing a TypeError with a `Cause`; the class of an arbitrary handler's exception is not tracked.
- Execution-time limits and call-stack depth are not modelled. A real all-500 chain of nested re-runs can end in a platform time-out or a `RangeError`; the model reports it as `FetchFailed` once the response list is exhausted.
- Strings are sequences of Unicode scalar values, not of UTF-16 code units, so a lone surrogate that `JSON.parse` can produce (from `"\ud800"`) cannot be represented. On every string the model can represent, `split("\n")` and `trim` agree with JavaScript, because every character `trim` removes lies in the Basic Multilingual Plane.
