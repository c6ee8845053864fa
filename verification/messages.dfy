/** The shapes exchanged with the `generateContent` endpoint: conversation
    turns and parts sent in the payload, and the parsed response. */
module Messages {
  import opened Wrappers
  import opened JsValue
  import opened Directives

  /** `{ name, args }` of a function-call part; `args` is `Undefined` when absent. */
  datatype FunctionCall = FunctionCall(name: string, args: Value)

  /** A part: any of `text`, `functionCall` and `functionResponse` may be present. */
  datatype Part = Part(text: Option<string>, functionCall: Option<FunctionCall>, functionResponse: Option<Value>)

  function TextPart(t: string): Part {
    Part(Some(t), None, None)
  }

  function CallPart(call: FunctionCall): Part {
    Part(None, Some(call), None)
  }

  datatype Role = User | Model | Function

  /** One entry of `contents`. */
  datatype Turn = Turn(parts: seq<Part>, role: Role)

  /** `{ parts: [{ text: q }], role: "user" }`, the turn every conversation starts with. */
  function UserTurn(q: string): Turn {
    Turn([TextPart(q)], User)
  }

  /** The function turn that hands a handler's result back to the model. */
  function FunctionTurn(name: string, result: Value): Turn {
    var response := Object(map["name" := Str(name), "content" := result]);
    Turn([Part(None, None, Some(Object(map["name" := Str(name), "response" := response])))], Function)
  }

  /** What one fetch sends: the conversation so far and the declarations. */
  datatype Payload = Payload(contents: seq<Turn>, declarations: seq<Declaration>)

  /** A response candidate; `parts` is `None` when `content.parts` is missing. */
  datatype Candidate = Candidate(parts: Option<seq<Part>>, finishReason: Option<string>)

  /** The parsed response body: not JSON at all, the JSON `null`, or an object
      whose `candidates` is `None` when absent or falsy. */
  datatype Body =
    | NotJson
    | JsonNull
    | Parsed(candidates: Option<seq<Candidate>>)

  /** One HTTP response: status code, raw body text, and that text parsed. */
  datatype Response = Response(status: int, text: string, body: Body)

  /** An element of `results`: `candidates[0]` (possibly `undefined`) or a part. */
  datatype Entry =
    | Absent
    | OfCandidate(candidate: Candidate)
    | OfPart(part: Part)

  /** `results.push(...parts)`. */
  function Entries(parts: seq<Part>): (entries: seq<Entry>)
    ensures |entries| == |parts|
    ensures forall i :: 0 <= i < |parts| ==> entries[i] == OfPart(parts[i])
  {
    seq(|parts|, i requires 0 <= i < |parts| => OfPart(parts[i]))
  }
}
