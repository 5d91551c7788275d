/** The OpenRouter client around the HTTP calls: building the request body
    from the stored history, turning a completion response into an AI
    message, and filtering the lines of a streamed response down to the
    content deltas. The HTTP exchange itself is not modelled: the response
    body and the streamed lines are inputs, `json.loads` is an oracle. */
module LlmService {
  import opened Wrappers
  import opened Text
  import opened Values
  import opened Messages
  import opened Converters
  import opened Exceptions

  /** The role a stored message takes in a request. */
  function RoleOf(t: MessageType): string {
    match t
    case Human => "user"
    case Ai => "assistant"
    case System => "system"
  }

  /** The message type a request role stands for. */
  function TypeOfRole(role: string): Option<MessageType> {
    if role == "user" then Some(Human)
    else if role == "assistant" then Some(Ai)
    else if role == "system" then Some(System)
    else None
  }

  /** No two message types share a role, so the role gives the type back. */
  lemma RoleRoundTrip(t: MessageType)
    ensures TypeOfRole(RoleOf(t)) == Some(t)
    ensures RoleOf(t) in {"user", "assistant", "system"}
  {
  }

  /** One entry of the request's `messages` list. */
  function ApiMessage(m: ChatMessage): Value {
    Obj(map["role" := Str(RoleOf(m.msgType)), "content" := Str(m.content)])
  }

  /** `LLMService.default_params` */
  const DefaultParams: map<string, Value> :=
    map["temperature" := Real(0.7), "max_tokens" := Int(2000), "top_p" := Real(0.9),
        "frequency_penalty" := Real(0.0), "presence_penalty" := Real(0.0)]

  /** Python's `model or default`: a missing or empty name falls back. */
  function ModelOr(model: Option<string>, default: string): (name: string)
    ensures model.Some? && model.value != [] ==> name == model.value
    ensures model.None? || model.value == [] ==> name == default
  {
    if model.Some? && model.value != [] then model.value else default
  }

  /** `_build_request`: the history converted entry by entry, then the model,
      the stream flag, the default parameters, and the caller's keyword
      arguments spread last so that they win. Python's keyword binding keeps
      `messages`, `model` and `stream` out of the keyword arguments. */
  method BuildRequest(messages: seq<ChatMessage>, model: Option<string>, stream: bool,
                      kwargs: map<string, Value>, defaultModel: string)
    returns (request: map<string, Value>)
    requires "messages" !in kwargs && "model" !in kwargs && "stream" !in kwargs
    ensures request.Keys == {"model", "messages", "stream"} + DefaultParams.Keys + kwargs.Keys
    ensures request["model"] == Str(ModelOr(model, defaultModel)) && request["stream"] == Bool(stream)
    ensures forall k :: k in kwargs ==> request[k] == kwargs[k]
    ensures forall k :: k in DefaultParams && k !in kwargs ==> request[k] == DefaultParams[k]
    ensures request["messages"].List? && |request["messages"].items| == |messages|
    ensures forall i :: 0 <= i < |messages| ==> request["messages"].items[i] == ApiMessage(messages[i])
  {
    var apiMessages: seq<Value> := [];
    var i := 0;
    while i < |messages|
      invariant 0 <= i <= |messages| && |apiMessages| == i
      invariant forall j :: 0 <= j < i ==> apiMessages[j] == ApiMessage(messages[j])
    {
      apiMessages := apiMessages + [ApiMessage(messages[i])];
      i := i + 1;
    }
    request := map["model" := Str(ModelOr(model, defaultModel)), "messages" := List(apiMessages), "stream" := Bool(stream)]
      + DefaultParams + kwargs;
  }

  /** Python's `v.get(k, default)`, which fails on anything but a dict. */
  function GetDefault(v: Value, k: string, default: Value): (r: Result<Value, string>)
    ensures v.Obj? <==> r.Ok?
    ensures v.Obj? ==> r.value == GetOr(v.fields, k, default)
  {
    if v.Obj? then Ok(GetOr(v.fields, k, default))
    else Err("'" + PyTypeName(v) + "' object has no attribute 'get'")
  }

  /** Python's `v[0]` on a truthy value: the first list element or the first
      character; a dict has no key `0`; other values are not subscriptable. */
  function First(v: Value): (r: Result<Value, string>)
    requires Truthy(v)
    ensures v.List? ==> r == Ok(v.items[0])
    ensures r.Ok? ==> v.List? || v.Str?
  {
    match v
    case List(items) => Ok(items[0])
    case Str(s) => Ok(Str([s[0]]))
    case Obj(_) => Err("0")
    case _ => Err("'" + PyTypeName(v) + "' object is not subscriptable")
  }

  /** The context every response-handling failure is reported with. */
  const InvalidFormatContext: map<string, Value> := map["details" := Str("Invalid response format")]

  const NoChoicesText := "No choices in response"
  const EmptyContentText := "Empty content in response"

  /** A failure inside `_handle_response`, passed through `create_llm_exception`. */
  function ResponseFailure(text: string, renderOther: Value -> string): LlmServiceException {
    CreateLlmException(RawError(text, None, Null), InvalidFormatContext, renderOther)
  }

  /** The metadata recorded with a completion. */
  function ResponseMetadata(data: map<string, Value>, choice: map<string, Value>): map<string, Value> {
    map[
      "model" := GetOr(data, "model", Str("unknown")),
      "usage" := GetOr(data, "usage", Obj(map[])),
      "finish_reason" := Get(choice, "finish_reason"),
      "response_id" := Get(data, "id"),
      "created" := Get(data, "created")]
  }

  /** `_handle_response`: the first choice's message content as an AI
      message, or the classified failure. A content that is not text is
      refused by the message model with the validation text `invalidContent`
      gives, which is not modelled. */
  function HandleResponse(data: map<string, Value>, freshId: string, now: int,
                          invalidContent: Value -> string, renderOther: Value -> string)
    : (r: Result<ChatMessage, LlmServiceException>)
    ensures !Truthy(GetOr(data, "choices", List([]))) ==> r == Err(ResponseFailure(NoChoicesText, renderOther))
    ensures r.Ok? ==> r.value.msgType == Ai && r.value.content != [] && r.value.id == freshId && r.value.timestamp == now
    ensures r.Ok? ==>
      "choices" in data && data["choices"].List? && data["choices"].items != [] &&
      data["choices"].items[0].Obj? &&
      "message" in data["choices"].items[0].fields &&
      data["choices"].items[0].fields["message"].Obj? &&
      "content" in data["choices"].items[0].fields["message"].fields &&
      data["choices"].items[0].fields["message"].fields["content"] == Str(r.value.content) &&
      r.value.metadata == ResponseMetadata(data, data["choices"].items[0].fields)
  {
    var choices := GetOr(data, "choices", List([]));
    if !Truthy(choices) then Err(ResponseFailure(NoChoicesText, renderOther))
    else match First(choices)
      case Err(t) => Err(ResponseFailure(t, renderOther))
      case Ok(choice) =>
        match GetDefault(choice, "message", Obj(map[]))
        case Err(t) => Err(ResponseFailure(t, renderOther))
        case Ok(messageData) =>
          match GetDefault(messageData, "content", Str(""))
          case Err(t) => Err(ResponseFailure(t, renderOther))
          case Ok(content) =>
            if !Truthy(content) then Err(ResponseFailure(EmptyContentText, renderOther))
            else if !content.Str? then Err(ResponseFailure(invalidContent(content), renderOther))
            else Ok(CreateAiMessage(content.s, Some(ResponseMetadata(data, choice.fields)), freshId, now))
  }

  /** A response whose first choice carries non-empty text is accepted with
      exactly that text. */
  lemma HandleResponseAccepts(data: map<string, Value>, choice: map<string, Value>, rest: seq<Value>,
                              msg: map<string, Value>, c: string, freshId: string, now: int,
                              invalidContent: Value -> string, renderOther: Value -> string)
    requires "choices" in data && data["choices"] == List([Obj(choice)] + rest)
    requires "message" in choice && choice["message"] == Obj(msg)
    requires "content" in msg && msg["content"] == Str(c) && c != []
    ensures HandleResponse(data, freshId, now, invalidContent, renderOther).Ok?
    ensures HandleResponse(data, freshId, now, invalidContent, renderOther).value.content == c
  {
  }

  /** Both failures `_handle_response` raises itself mention no error
      keyword, so they are reported as unknown, non-recoverable errors with
      the response-format context. */
  lemma ResponseFailuresUnknown(renderOther: Value -> string)
    ensures var x := ResponseFailure(NoChoicesText, renderOther);
      x.errorType == UnknownError && !x.recoverable && x.message == NoChoicesText && x.errorDetails == InvalidFormatContext
    ensures var x := ResponseFailure(EmptyContentText, renderOther);
      x.errorType == UnknownError && !x.recoverable && x.message == EmptyContentText && x.errorDetails == InvalidFormatContext
  {
    NoChoicesUnknown();
    EmptyContentUnknown();
  }

  /** `p` cannot occur where one of its characters never does. */
  lemma AbsentChar(s: string, p: string, j: nat)
    requires j < |p| && forall i :: 0 <= i < |s| ==> s[i] != p[j]
    ensures !Contains(s, p)
  {
    forall i | 0 <= i <= |s| - |p| ensures !OccursAt(s, p, i) {
      assert s[i..i + |p|][j] == s[i + j];
    }
  }

  /** `p` cannot occur where two of its neighbouring characters never stand
      side by side. */
  lemma AbsentPair(s: string, p: string, j: nat)
    requires j + 1 < |p|
    requires forall i :: 0 <= i < |s| - 1 ==> !(s[i] == p[j] && s[i + 1] == p[j + 1])
    ensures !Contains(s, p)
  {
    forall i | 0 <= i <= |s| - |p| ensures !OccursAt(s, p, i) {
      assert s[i..i + |p|][j] == s[i + j] && s[i..i + |p|][j + 1] == s[i + j + 1];
    }
  }

  /** Neither keyword of a pair occurs when each has a character the text
      lacks. */
  lemma NeitherKeyword(s: string, a: string, ja: nat, b: string, jb: nat)
    requires ja < |a| && jb < |b|
    requires forall i :: 0 <= i < |s| ==> s[i] != a[ja] && s[i] != b[jb]
    ensures !AnyKeyword(s, [a, b])
  {
    AbsentChar(s, a, ja);
    AbsentChar(s, b, jb);
  }

  lemma NoKeywordUnknown(s: string)
    requires !AnyKeyword(s, ["timeout", "timed out"]) && !AnyKeyword(s, ["connection", "connect"])
    requires !AnyKeyword(s, ["dns", "resolve"]) && !AnyKeyword(s, ["too large", "payload"])
    requires !AnyKeyword(s, ["invalid", "malformed"])
    ensures ClassifyText(s) == UnknownError
  {
  }

  lemma LowerNoChoices()
    ensures ToLower(NoChoicesText) == "no choices in response"
  {
  }

  lemma LowerEmptyContent()
    ensures ToLower(EmptyContentText) == "empty content in response"
  {
  }

  lemma NoChoicesKeywords(s: string)
    requires s == "no choices in response"
    ensures !AnyKeyword(s, ["timeout", "timed out"]) && !AnyKeyword(s, ["connection", "connect"])
    ensures !AnyKeyword(s, ["dns", "resolve"]) && !AnyKeyword(s, ["too large", "payload"])
    ensures !AnyKeyword(s, ["invalid", "malformed"])
  {
    NeitherKeyword(s, "timeout", 0, "timed out", 0);
    NeitherKeyword(s, "connection", 6, "connect", 6);
    NeitherKeyword(s, "dns", 0, "resolve", 4);
    NeitherKeyword(s, "too large", 0, "payload", 1);
    NeitherKeyword(s, "invalid", 2, "malformed", 0);
  }

  lemma NoChoicesUnknown()
    ensures ClassifyText(ToLower(NoChoicesText)) == UnknownError
  {
    LowerNoChoices();
    NoChoicesKeywords(ToLower(NoChoicesText));
    NoKeywordUnknown(ToLower(NoChoicesText));
  }

  /** "connect" and "connection" both need "nn", which the text lacks. */
  lemma EmptyContentKeywords(s: string)
    requires s == "empty content in response"
    ensures !AnyKeyword(s, ["timeout", "timed out"]) && !AnyKeyword(s, ["connection", "connect"])
    ensures !AnyKeyword(s, ["dns", "resolve"]) && !AnyKeyword(s, ["too large", "payload"])
    ensures !AnyKeyword(s, ["invalid", "malformed"])
  {
    NeitherKeyword(s, "timeout", 5, "timed out", 4);
    AbsentPair(s, "connection", 2);
    AbsentPair(s, "connect", 2);
    NeitherKeyword(s, "dns", 0, "resolve", 4);
    NeitherKeyword(s, "too large", 4, "payload", 1);
    NeitherKeyword(s, "invalid", 2, "malformed", 1);
  }

  lemma EmptyContentUnknown()
    ensures ClassifyText(ToLower(EmptyContentText)) == UnknownError
  {
    LowerEmptyContent();
    EmptyContentKeywords(ToLower(EmptyContentText));
    NoKeywordUnknown(ToLower(EmptyContentText));
  }
}

/** The line filter of `stream_completion`: which lines of a streamed
    response are skipped, which end the stream, and which yield content. */
module LlmStream {
  import opened Wrappers
  import opened Text
  import opened Values
  import opened Exceptions
  import opened LlmService

  /** What one line of a streamed response does to the stream. */
  datatype LineAction = Skip | Stop | Yield(content: Value) | Fail(text: string)

  const DataPrefix := "data: "

  /** The delta content carried by one decoded chunk: nothing when there are
      no choices or the content is empty, an error when a level is not a
      dict or not indexable. */
  function ChunkContent(chunk: Value): (r: Result<Option<Value>, string>)
    ensures r.Ok? && r.value.Some? ==> Truthy(r.value.value)
  {
    match GetDefault(chunk, "choices", List([]))
    case Err(t) => Err(t)
    case Ok(choices) =>
      if !Truthy(choices) then Ok(None)
      else match First(choices)
        case Err(t) => Err(t)
        case Ok(choice) =>
          match GetDefault(choice, "delta", Obj(map[]))
          case Err(t) => Err(t)
          case Ok(delta) =>
            match GetDefault(delta, "content", Str(""))
            case Err(t) => Err(t)
            case Ok(content) => if Truthy(content) then Ok(Some(content)) else Ok(None)
  }

  /** One turn of the `stream_completion` loop on a line; `parse` is
      `json.loads`, `None` when the payload does not decode. A line whose
      `strip()` is empty is one made of whitespace only. */
  function LineStep(line: string, parse: string -> Option<Value>): (a: LineAction)
    ensures a.Yield? ==> Truthy(a.content)
    ensures a != Skip ==> StartsWith(line, DataPrefix)
  {
    if IsBlank(line) || !StartsWith(line, DataPrefix) then Skip
    else
      var data := line[|DataPrefix|..];
      if StripsTo(data, "[DONE]") then Stop
      else match parse(data)
        case None => Skip
        case Some(chunk) =>
          match ChunkContent(chunk)
          case Err(t) => Fail(t)
          case Ok(None) => Skip
          case Ok(Some(c)) => Yield(c)
  }

  /** What the consumer of a stream sees: the contents yielded, and the
      error text the stream ended with, if any. */
  datatype StreamOutcome = StreamOutcome(chunks: seq<Value>, failure: Option<string>)

  /** What each line does, in order. */
  function Actions(lines: seq<string>, parse: string -> Option<Value>): (acts: seq<LineAction>)
    ensures |acts| == |lines|
  {
    seq(|lines|, i requires 0 <= i < |lines| => LineStep(lines[i], parse))
  }

  /** The loop over the line actions: skip, stop, fail, or yield and go on. */
  function Run(acts: seq<LineAction>): (o: StreamOutcome)
    ensures |o.chunks| <= |acts|
  {
    if acts == [] then StreamOutcome([], None)
    else
      var rest := Run(acts[1..]);
      match acts[0]
      case Skip => rest
      case Stop => StreamOutcome([], None)
      case Fail(t) => StreamOutcome([], Some(t))
      case Yield(c) => StreamOutcome([c] + rest.chunks, rest.failure)
  }

  /** One step of the loop. */
  lemma RunCons(acts: seq<LineAction>, i: nat)
    requires i < |acts|
    ensures acts[i] == Skip ==> Run(acts[i..]) == Run(acts[i + 1..])
    ensures acts[i] == Stop ==> Run(acts[i..]) == StreamOutcome([], None)
    ensures acts[i].Fail? ==> Run(acts[i..]) == StreamOutcome([], Some(acts[i].text))
    ensures acts[i].Yield? ==>
      Run(acts[i..]) == StreamOutcome([acts[i].content] + Run(acts[i + 1..]).chunks, Run(acts[i + 1..]).failure)
  {
    assert acts[i..][0] == acts[i] && acts[i..][1..] == acts[i + 1..];
  }

  /** The stream as a function of its lines. */
  function Stream(lines: seq<string>, parse: string -> Option<Value>): StreamOutcome {
    Run(Actions(lines, parse))
  }

  lemma {:induction false} RunYieldsTruthy(acts: seq<LineAction>)
    requires forall i :: 0 <= i < |acts| && acts[i].Yield? ==> Truthy(acts[i].content)
    ensures forall i :: 0 <= i < |Run(acts).chunks| ==> Truthy(Run(acts).chunks[i])
  {
    if acts != [] {
      RunYieldsTruthy(acts[1..]);
    }
  }

  /** Only non-empty contents are yielded. */
  lemma StreamChunksTruthy(lines: seq<string>, parse: string -> Option<Value>)
    ensures forall i :: 0 <= i < |Stream(lines, parse).chunks| ==> Truthy(Stream(lines, parse).chunks[i])
  {
    RunYieldsTruthy(Actions(lines, parse));
  }

  /** The exception a failing stream raises: the error passed through
      `create_llm_exception` with the model name as context. */
  function StreamFailure(text: string, modelName: string, renderOther: Value -> string): LlmServiceException {
    CreateLlmException(RawError(text, None, Null), map["model_name" := Str(modelName)], renderOther)
  }

  /** `stream_completion` after the request is sent: the line loop with its
      `continue`s and its `break`. */
  method StreamCompletion(lines: seq<string>, parse: string -> Option<Value>, model: Option<string>,
                          defaultModel: string, renderOther: Value -> string)
    returns (chunks: seq<Value>, error: Option<LlmServiceException>)
    ensures chunks == Stream(lines, parse).chunks
    ensures error.None? <==> Stream(lines, parse).failure.None?
    ensures error.Some? ==>
      error.value == StreamFailure(Stream(lines, parse).failure.value, ModelOr(model, defaultModel), renderOther)
  {
    ghost var acts := Actions(lines, parse);
    chunks := [];
    error := None;
    var i := 0;
    while i < |lines|
      invariant 0 <= i <= |lines|
      invariant Run(acts) == StreamOutcome(chunks + Run(acts[i..]).chunks, Run(acts[i..]).failure)
    {
      var a := LineStep(lines[i], parse);
      assert a == acts[i];
      RunCons(acts, i);
      match a {
        case Skip =>
        case Stop =>
          assert chunks + [] == chunks;
          return;
        case Fail(t) =>
          assert chunks + [] == chunks;
          error := Some(StreamFailure(t, ModelOr(model, defaultModel), renderOther));
          return;
        case Yield(c) =>
          assert chunks + ([c] + Run(acts[i + 1..]).chunks) == (chunks + [c]) + Run(acts[i + 1..]).chunks;
          chunks := chunks + [c];
      }
      i := i + 1;
    }
    assert acts[i..] == [];
    assert chunks + [] == chunks;
  }

  lemma ActionsAppend(a: seq<string>, b: seq<string>, parse: string -> Option<Value>)
    ensures Actions(a + b, parse) == Actions(a, parse) + Actions(b, parse)
  {
  }

  lemma {:induction false} RunStops(acts: seq<LineAction>, more: seq<LineAction>)
    requires acts != [] && acts[|acts| - 1] == Stop
    ensures Run(acts + more) == Run(acts)
  {
    if |acts| > 1 {
      assert (acts + more)[1..] == acts[1..] + more;
      RunStops(acts[1..], more);
    }
  }

  /** Lines after the `[DONE]` line are never read. */
  lemma StreamStopsAtDone(lines: seq<string>, more: seq<string>, parse: string -> Option<Value>)
    requires lines != [] && LineStep(lines[|lines| - 1], parse) == Stop
    ensures Stream(lines + more, parse) == Stream(lines, parse)
  {
    ActionsAppend(lines, more, parse);
    RunStops(Actions(lines, parse), Actions(more, parse));
  }

  lemma {:induction false} RunSkips(noise: seq<LineAction>, acts: seq<LineAction>)
    requires forall i :: 0 <= i < |noise| ==> noise[i] == Skip
    ensures Run(noise + acts) == Run(acts)
  {
    if noise != [] {
      assert (noise + acts)[0] == noise[0] && (noise + acts)[1..] == noise[1..] + acts;
      RunSkips(noise[1..], acts);
    } else {
      assert noise + acts == acts;
    }
  }

  /** Lines the loop skips change nothing. */
  lemma StreamSkipsNoise(noise: seq<string>, lines: seq<string>, parse: string -> Option<Value>)
    requires forall i :: 0 <= i < |noise| ==> LineStep(noise[i], parse) == Skip
    ensures Stream(noise + lines, parse) == Stream(lines, parse)
  {
    ActionsAppend(noise, lines, parse);
    RunSkips(Actions(noise, parse), Actions(lines, parse));
  }

  /** A line is skipped when it is blank or is not a data line. */
  lemma NonDataSkipped(line: string, parse: string -> Option<Value>)
    requires IsBlank(line) || !StartsWith(line, DataPrefix)
    ensures LineStep(line, parse) == Skip
  {
  }

  lemma DataLineNotBlank(payload: string)
    ensures !IsBlank(DataPrefix + payload) && StartsWith(DataPrefix + payload, DataPrefix)
  {
    var line := DataPrefix + payload;
    assert line[0] == 'd' && !IsSpace('d');
    assert line[..|DataPrefix|] == DataPrefix;
  }

  /** A data line whose payload strips to `[DONE]` ends the stream. */
  lemma DoneLineStops(payload: string, parse: string -> Option<Value>)
    requires Strip(payload) == "[DONE]"
    ensures LineStep(DataPrefix + payload, parse) == Stop
  {
    StripsToSpec(payload, "[DONE]");
    DataLineNotBlank(payload);
    assert (DataPrefix + payload)[|DataPrefix|..] == payload;
  }

  /** The chunk a provider sends for one piece of content. */
  function DeltaChunk(c: string): Value {
    Obj(map["choices" := List([Obj(map["delta" := Obj(map["content" := Str(c)])])])])
  }

  lemma DeltaChunkContent(c: string)
    requires c != []
    ensures ChunkContent(DeltaChunk(c)) == Ok(Some(Str(c)))
  {
    var choice := Obj(map["delta" := Obj(map["content" := Str(c)])]);
    assert GetDefault(DeltaChunk(c), "choices", List([])) == Ok(List([choice]));
    assert First(List([choice])) == Ok(choice);
    assert GetDefault(choice, "delta", Obj(map[])) == Ok(Obj(map["content" := Str(c)]));
  }

  lemma DeltaLineYields(c: string, payload: string, parse: string -> Option<Value>)
    requires c != [] && parse(payload) == Some(DeltaChunk(c)) && Strip(payload) != "[DONE]"
    ensures LineStep(DataPrefix + payload, parse) == Yield(Str(c))
  {
    StripsToSpec(payload, "[DONE]");
    DeltaChunkContent(c);
    DataLineNotBlank(payload);
    assert (DataPrefix + payload)[|DataPrefix|..] == payload;
  }

  /** Yields up to a stop give exactly the yielded contents. */
  lemma {:induction false} RunYieldsThenStop(acts: seq<LineAction>, n: nat)
    requires n < |acts| && acts[n] == Stop
    requires forall i :: 0 <= i < n ==> acts[i].Yield?
    ensures Run(acts) == StreamOutcome(seq(n, i requires 0 <= i < n => acts[i].content), None)
  {
    if n > 0 {
      RunYieldsThenStop(acts[1..], n - 1);
      assert [acts[0].content] + seq(n - 1, i requires 0 <= i < n - 1 => acts[1..][i].content)
          == seq(n, i requires 0 <= i < n => acts[i].content);
    }
  }

  /** The data lines carrying the given payloads. */
  function Framed(payloads: seq<string>): (lines: seq<string>)
    ensures |lines| == |payloads|
  {
    seq(|payloads|, i requires 0 <= i < |payloads| => DataPrefix + payloads[i])
  }

  /** The pieces of content as yielded values. */
  function Strs(cs: seq<string>): (vs: seq<Value>)
    ensures |vs| == |cs|
  {
    seq(|cs|, i requires 0 <= i < |cs| => Str(cs[i]))
  }

  lemma FramedYields(cs: seq<string>, payloads: seq<string>, rest: seq<string>, parse: string -> Option<Value>, i: nat)
    requires |payloads| == |cs| && i < |cs|
    requires cs[i] != [] && parse(payloads[i]) == Some(DeltaChunk(cs[i])) && Strip(payloads[i]) != "[DONE]"
    ensures Actions(Framed(payloads) + [DataPrefix + "[DONE]"] + rest, parse)[i] == Yield(Str(cs[i]))
  {
    var all := Framed(payloads) + [DataPrefix + "[DONE]"] + rest;
    assert all[i] == DataPrefix + payloads[i];
    DeltaLineYields(cs[i], payloads[i], parse);
  }

  lemma FramedStops(payloads: seq<string>, done: string, rest: seq<string>, parse: string -> Option<Value>)
    requires StripsTo(done, "[DONE]")
    ensures Actions(Framed(payloads) + [DataPrefix + done] + rest, parse)[|payloads|] == Stop
  {
    var all := Framed(payloads) + [DataPrefix + done] + rest;
    assert all[|payloads|] == DataPrefix + done;
    DataLineNotBlank(done);
    assert (DataPrefix + done)[|DataPrefix|..] == done;
  }

  lemma DoneMarkerTrimmed()
    ensures StripsTo("[DONE]", "[DONE]")
  {
  }

  lemma FramedActions(cs: seq<string>, payloads: seq<string>, rest: seq<string>, parse: string -> Option<Value>)
    requires |payloads| == |cs|
    requires forall i :: 0 <= i < |cs| ==>
      cs[i] != [] && parse(payloads[i]) == Some(DeltaChunk(cs[i])) && Strip(payloads[i]) != "[DONE]"
    ensures var acts := Actions(Framed(payloads) + [DataPrefix + "[DONE]"] + rest, parse);
      |cs| < |acts| && forall i :: 0 <= i < |cs| ==> acts[i] == Yield(Str(cs[i]))
  {
    forall i | 0 <= i < |cs|
      ensures Actions(Framed(payloads) + [DataPrefix + "[DONE]"] + rest, parse)[i] == Yield(Str(cs[i]))
    {
      FramedYields(cs, payloads, rest, parse, i);
    }
  }

  /** Round trip: a stream of data lines, one per non-empty piece of
      content, closed by `[DONE]`, yields exactly those pieces in order,
      whatever follows. */
  lemma StreamRoundTrip(cs: seq<string>, payloads: seq<string>, rest: seq<string>,
                        parse: string -> Option<Value>)
    requires |payloads| == |cs|
    requires forall i :: 0 <= i < |cs| ==>
      cs[i] != [] && parse(payloads[i]) == Some(DeltaChunk(cs[i])) && Strip(payloads[i]) != "[DONE]"
    ensures Stream(Framed(payloads) + [DataPrefix + "[DONE]"] + rest, parse) == StreamOutcome(Strs(cs), None)
  {
    var acts := Actions(Framed(payloads) + [DataPrefix + "[DONE]"] + rest, parse);
    FramedActions(cs, payloads, rest, parse);
    DoneMarkerTrimmed();
    FramedStops(payloads, "[DONE]", rest, parse);
    RunYieldsThenStop(acts, |cs|);
    assert seq(|cs|, i requires 0 <= i < |cs| => acts[i].content) == Strs(cs);
  }
}
