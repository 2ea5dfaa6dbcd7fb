/**
 * The Ollama provider adapter: outbound message reshaping, the request
 * body, the normalisation of a non-streaming reply (native tool calls, the
 * heuristic that recovers a tool call written as JSON text, the
 * content/tool-call exclusivity rule and the finish reason) and the mapping
 * of transport errors. The HTTP transport and `uuid()` are supplied: the
 * transport as a function of URL and body, `uuid()` as a counter.
 */
module Ollama {
  import opened Wrappers
  import opened Strings
  import opened Json
  import opened Types

  const DefaultBaseUrl: string := "http://localhost:11434"
  const DefaultModel: string := "qwen2.5-coder:7b"

  // ---------------------------------------------------------------- wire shapes

  /** One entry of a native `message.tool_calls` array. */
  datatype WireToolCall = WireToolCall(name: string, arguments: Json)

  /** `message.tool_calls`: falsy or absent, truthy but not an array, or an array. */
  datatype WireToolCalls = Missing | NotAnArray | Calls(calls: seq<WireToolCall>)

  datatype WireMessage = WireMessage(content: Option<string>, toolCalls: WireToolCalls)

  /** The body of a non-streaming `/api/chat` reply; `done` is its truthiness. */
  datatype WireResponse = WireResponse(message: WireMessage, done: bool)

  /** A tool call as Ollama expects it back: no id, arguments as a parsed value. */
  datatype OllamaToolCall = OllamaToolCall(name: string, arguments: Json)

  datatype OllamaMessage = OllamaMessage(role: string, content: string, toolCalls: Option<seq<OllamaToolCall>>)

  datatype OllamaBody = OllamaBody(model: string, messages: seq<OllamaMessage>, tools: Option<seq<ToolDefinition>>, stream: bool)

  /** What the POST resolves to: a reply, a transport (axios) error with the
      reply's `error` field if it had one, or any other thrown error. */
  datatype Transport =
    | Delivered(data: WireResponse)
    | HttpFailure(responseError: Option<string>, message: string)
    | OtherFailure(message: string)

  /** A failed `chat`: the wrapped "Ollama API error" or an error rethrown as it was. */
  datatype ProviderError = ApiError(message: string) | Rethrown(message: string)

  // ---------------------------------------------------------------- base URL

  /** `baseURL.replace(/\/$/, "")`: one trailing slash, if present, is removed. */
  function StripTrailingSlash(url: string): (r: string)
    ensures url == (if url != [] && url[|url| - 1] == '/' then r + "/" else r)
  {
    if url != [] && url[|url| - 1] == '/' then url[..|url| - 1] else url
  }

  /** Only one slash goes: the result of stripping "//" still ends in "/". */
  lemma StripRemovesOnlyOne(url: string)
    requires |url| >= 2 && url[|url| - 1] == '/' && url[|url| - 2] == '/'
    ensures |StripTrailingSlash(url)| == |url| - 1
    ensures StripTrailingSlash(StripTrailingSlash(url)) != StripTrailingSlash(url)
  {
  }

  // ---------------------------------------------------------------- outbound

  /** The tool calls of an assistant message with their arguments parsed back to values. */
  function ConvertToolCalls(calls: seq<ToolCall>, parse: string -> Result<Json, string>): (r: Result<seq<OllamaToolCall>, string>)
    ensures r.Ok? <==> forall k :: 0 <= k < |calls| ==> parse(calls[k].arguments).Ok?
    ensures r.Ok? ==> |r.value| == |calls|
                      && forall k :: 0 <= k < |calls| ==>
                           r.value[k] == OllamaToolCall(calls[k].name, parse(calls[k].arguments).value)
  {
    if calls == [] then Ok([])
    else
      match parse(calls[0].arguments)
      case Err(e) => Err(e)
      case Ok(a) =>
        match ConvertToolCalls(calls[1..], parse)
        case Err(e) => Err(e)
        case Ok(rest) =>
          assert forall k :: 1 <= k < |calls| ==> calls[1..][k - 1] == calls[k];
          Ok([OllamaToolCall(calls[0].name, a)] + rest)
  }

  /** One message in Ollama's shape. */
  function ConvertMessage(m: Message, parse: string -> Result<Json, string>): Result<OllamaMessage, string> {
    match m
    case Tool(content, _, _) => Ok(OllamaMessage("tool", content, None))
    case Assistant(content, Some(calls)) =>
      (match ConvertToolCalls(calls, parse)
       case Err(e) => Err(e)
       case Ok(converted) => Ok(OllamaMessage("assistant", content, Some(converted))))
    case Assistant(content, None) => Ok(OllamaMessage("assistant", content, None))
    case User(content) => Ok(OllamaMessage("user", content, None))
    case System(content) => Ok(OllamaMessage("system", content, None))
  }

  /** `convertToOllamaMessages`: the messages in order, failing with the first
      arguments text that does not parse. */
  function ConvertToOllamaMessages(ms: seq<Message>, parse: string -> Result<Json, string>): (r: Result<seq<OllamaMessage>, string>)
    ensures r.Ok? <==> forall k :: 0 <= k < |ms| ==> ConvertMessage(ms[k], parse).Ok?
    ensures r.Ok? ==> |r.value| == |ms|
                      && forall k :: 0 <= k < |ms| ==> r.value[k] == ConvertMessage(ms[k], parse).value
    ensures r.Err? ==> exists k :: 0 <= k < |ms| && ConvertMessage(ms[k], parse) == Err(r.error)
                                   && forall j :: 0 <= j < k ==> ConvertMessage(ms[j], parse).Ok?
  {
    if ms == [] then Ok([])
    else
      assert forall k :: 1 <= k < |ms| ==> ms[1..][k - 1] == ms[k];
      match ConvertMessage(ms[0], parse)
      case Err(e) => Err(e)
      case Ok(m) =>
        match ConvertToOllamaMessages(ms[1..], parse)
        case Err(e) =>
          var k :| 0 <= k < |ms[1..]| && ConvertMessage(ms[1..][k], parse) == Err(e)
                   && forall j :: 0 <= j < k ==> ConvertMessage(ms[1..][j], parse).Ok?;
          assert ConvertMessage(ms[k + 1], parse) == Err(e);
          Err(e)
        case Ok(rest) => Ok([m] + rest)
  }

  /** Reshaping keeps every message's role and content; `tool` messages stay
      role "tool" and lose their id and name; assistant tool calls lose their id. */
  lemma ConvertKeepsRolesAndContent(ms: seq<Message>, parse: string -> Result<Json, string>, k: nat)
    requires k < |ms|
    requires ConvertToOllamaMessages(ms, parse).Ok?
    ensures var o := ConvertToOllamaMessages(ms, parse).value[k];
            && o.role == Role(ms[k])
            && o.content == ms[k].content
            && (ms[k].Tool? ==> o.role == "tool" && o.toolCalls.None?)
            && (o.toolCalls.Some? <==> ms[k].Assistant? && ms[k].toolCalls.Some?)
            && (o.toolCalls.Some? ==>
                  |o.toolCalls.value| == |ms[k].toolCalls.value|
                  && forall j :: 0 <= j < |o.toolCalls.value| ==>
                       o.toolCalls.value[j].name == ms[k].toolCalls.value[j].name
                       && parse(ms[k].toolCalls.value[j].arguments) == Ok(o.toolCalls.value[j].arguments))
  {
    assert ConvertMessage(ms[k], parse).Ok?;
    match ms[k]
    case Assistant(_, Some(calls)) =>
      assert ConvertToolCalls(calls, parse).Ok?;
    case _ =>
  }

  /** The request body: the request's model unless it is absent or empty,
      the reshaped messages, the tools as given, and never streamed. */
  function RequestBody(request: ChatRequest, defaultModel: string, parse: string -> Result<Json, string>): (r: Result<OllamaBody, string>)
    ensures r.Ok? <==> ConvertToOllamaMessages(request.messages, parse).Ok?
    ensures r.Err? ==> r.error == ConvertToOllamaMessages(request.messages, parse).error
    ensures r.Ok? ==> && r.value.model == (if request.model.Some? && request.model.value != "" then request.model.value else defaultModel)
                      && r.value.tools == request.tools
                      && !r.value.stream
                      && r.value.messages == ConvertToOllamaMessages(request.messages, parse).value
  {
    match ConvertToOllamaMessages(request.messages, parse)
    case Err(e) => Err(e)
    case Ok(messages) =>
      var model := match request.model { case Some(m) => if m != "" then m else defaultModel case None => defaultModel };
      Ok(OllamaBody(model, messages, request.tools, false))
  }

  // ---------------------------------------------------------------- inbound

  /** `call_${uuid()}` with `uuid()` modelled as the counter value `n`. */
  function CallId(n: nat): string {
    "call_" + NatToString(n)
  }

  lemma CallIdInjective(a: nat, b: nat)
    requires CallId(a) == CallId(b)
    ensures a == b
  {
    assert NatToString(a) == CallId(a)[5..] == CallId(b)[5..] == NatToString(b);
    NatToStringInjective(a, b);
  }

  /** Arguments kept when already text, otherwise `JSON.stringify`-ed. */
  function ArgumentsText(a: Json, stringify: Json -> string): string {
    if a.JString? then a.s else stringify(a)
  }

  /** The call built from one native entry, given the counter value it takes. */
  function NativeToolCall(c: WireToolCall, n: nat, stringify: Json -> string): ToolCall {
    ToolCall(CallId(n), c.name, ArgumentsText(c.arguments, stringify))
  }

  /** The native `tool_calls` array, one call per entry in order, the k-th
      taking the id of counter value `next + k`. */
  function MapNativeToolCalls(calls: seq<WireToolCall>, next: nat, stringify: Json -> string): (r: seq<ToolCall>)
    ensures |r| == |calls|
    ensures forall k :: 0 <= k < |calls| ==> r[k] == NativeToolCall(calls[k], next + k, stringify)
  {
    if calls == [] then []
    else
      var rest := MapNativeToolCalls(calls[1..], next + 1, stringify);
      [NativeToolCall(calls[0], next, stringify)] + rest
  }

  /** The ids given to one reply's native tool calls are pairwise distinct. */
  lemma NativeIdsDistinct(calls: seq<WireToolCall>, next: nat, stringify: Json -> string, i: nat, j: nat)
    requires i < j < |calls|
    ensures MapNativeToolCalls(calls, next, stringify)[i].id != MapNativeToolCalls(calls, next, stringify)[j].id
  {
    if CallId(next + i) == CallId(next + j) {
      CallIdInjective(next + i, next + j);
    }
  }

  /** A parse outcome the heuristic accepts: a value whose `name` and `arguments` are truthy. */
  predicate IsToolCallCandidate(v: Result<Json, string>) {
    v.Ok? && Truthy(Field(v.value, "name")) && Truthy(Field(v.value, "arguments"))
  }

  /** The smallest end `e >= from` for which `content[start..e]` is accepted. */
  function FirstCandidateEnd(content: string, start: nat, from: nat, parse: string -> Result<Json, string>): (r: Option<nat>)
    requires start <= from
    ensures r.Some? ==> from <= r.value <= |content| && IsToolCallCandidate(parse(content[start..r.value]))
    decreases |content| + 1 - from
  {
    if from > |content| then None
    else if IsToolCallCandidate(parse(content[start..from])) then Some(from)
    else FirstCandidateEnd(content, start, from + 1, parse)
  }

  /** No shorter prefix than the one `FirstCandidateEnd` finds is accepted,
      and it finds none only if no prefix is accepted. */
  lemma {:induction false} FirstCandidateEndIsFirst(content: string, start: nat, from: nat, parse: string -> Result<Json, string>)
    requires start <= from
    ensures match FirstCandidateEnd(content, start, from, parse)
            case Some(e) =>
              forall e' :: from <= e' < e ==> !IsToolCallCandidate(parse(content[start..e']))
            case None =>
              forall e' :: from <= e' <= |content| ==> !IsToolCallCandidate(parse(content[start..e']))
    decreases |content| + 1 - from
  {
    if from <= |content| && !IsToolCallCandidate(parse(content[start..from])) {
      FirstCandidateEndIsFirst(content, start, from + 1, parse);
    }
  }

  /** The value the heuristic recovers from `content`: the first accepted
      prefix starting at the first `{`, growing one character at a time. */
  function HeuristicCandidate(content: string, parse: string -> Result<Json, string>): (r: Option<Json>)
    ensures r.Some? ==> Contains(content, "{") && IsToolCallCandidate(Ok(r.value))
  {
    var start := IndexOf(content, '{');
    if start == -1 then None
    else
      match FirstCandidateEnd(content, start, start + 1, parse)
      case None => None
      case Some(e) =>
        ContainsChar(content, '{');
        Some(parse(content[start..e]).value)
  }

  /** When the text itself is the first accepted prefix, the heuristic recovers
      exactly its parse: the case of a model answering with a bare JSON call. */
  lemma HeuristicTakesWholeObject(content: string, parse: string -> Result<Json, string>, v: Json)
    requires content != [] && content[0] == '{'
    requires parse(content) == Ok(v) && IsToolCallCandidate(Ok(v))
    requires forall e :: 1 <= e < |content| ==> parse(content[..e]).Err?
    ensures HeuristicCandidate(content, parse) == Some(v)
  {
    assert IndexOf(content, '{') == 0;
    FirstCandidateEndIsFirst(content, 0, 1, parse);
    assert content[0..|content|] == content;
    assert forall e :: 1 <= e <= |content| ==> content[0..e] == content[..e];
  }

  /** The heuristic as the source runs it: `endIdx` grows from just past the
      first `{` until a prefix is accepted or the text is exhausted. */
  method ScanForToolCall(content: string, parse: string -> Result<Json, string>) returns (parsed: Option<Json>)
    ensures parsed == HeuristicCandidate(content, parse)
  {
    var startIdx := IndexOf(content, '{');
    parsed := None;
    if startIdx != -1 {
      var endIdx := startIdx + 1;
      while endIdx <= |content| && parsed.None?
        invariant startIdx + 1 <= endIdx <= |content| + 1
        invariant parsed.None?
        invariant FirstCandidateEnd(content, startIdx, startIdx + 1, parse) == FirstCandidateEnd(content, startIdx, endIdx, parse)
        decreases |content| + 1 - endIdx
      {
        var candidate := parse(content[startIdx..endIdx]);
        if IsToolCallCandidate(candidate) {
          parsed := Some(candidate.value);
          break;
        }
        endIdx := endIdx + 1;
      }
    }
  }

  /** The name of a recovered call: kept when it is a string, otherwise its JSON text. */
  function NameText(v: Json, stringify: Json -> string): string {
    if v.JString? then v.s else stringify(v)
  }

  /** The one call the heuristic builds from an accepted value. */
  function HeuristicToolCall(v: Json, next: nat, stringify: Json -> string): ToolCall
    requires IsToolCallCandidate(Ok(v))
  {
    ToolCall(CallId(next), NameText(Field(v, "name").value, stringify), ArgumentsText(Field(v, "arguments").value, stringify))
  }

  /** The heuristic path is taken: no native array and the text includes `{`. */
  predicate HeuristicApplies(m: WireMessage) {
    !m.toolCalls.Calls? && m.content.Some? && Contains(m.content.value, "{")
  }

  /** The tool calls of the normalised reply and the counter after it. */
  function NormalizedToolCalls(m: WireMessage, next: nat, json: JsonCodec): (Option<seq<ToolCall>>, nat) {
    if m.toolCalls.Calls? then
      (Some(MapNativeToolCalls(m.toolCalls.calls, next, json.stringify)), next + |m.toolCalls.calls|)
    else if HeuristicApplies(m) then
      match HeuristicCandidate(m.content.value, json.parse)
      case None => (None, next)
      case Some(v) => (Some([HeuristicToolCall(v, next, json.stringify)]), next + 1)
    else (None, next)
  }

  /** `parseOllamaResponse`: the normalised reply and the counter after it. */
  function NormalizedResponse(w: WireResponse, next: nat, json: JsonCodec): (ChatResponse, nat) {
    var (toolCalls, next') := NormalizedToolCalls(w.message, next, json);
    (ChatResponse(if toolCalls.Some? then "" else w.message.content.GetOr(""),
                  toolCalls,
                  if w.done then "stop" else "length"),
     next')
  }

  /** Content and tool calls are exclusive: content is "" whenever tool calls
      were produced; otherwise it is the received text (or "") and the
      `tool_calls` key is absent. A non-empty content therefore never comes with tool calls. */
  lemma NormalizedExclusive(w: WireResponse, next: nat, json: JsonCodec)
    ensures var r := NormalizedResponse(w, next, json).0;
            && (r.toolCalls.Some? ==> r.content == "")
            && (r.toolCalls.None? ==> r.content == w.message.content.GetOr(""))
            && (r.content != "" ==> r.toolCalls.None?)
  {
  }

  /** The finish reason is "stop" exactly when `done` is truthy, and "length" otherwise. */
  lemma NormalizedFinishReason(w: WireResponse, next: nat, json: JsonCodec)
    ensures NormalizedResponse(w, next, json).0.finishReason == "stop" <==> w.done
    ensures !w.done ==> NormalizedResponse(w, next, json).0.finishReason == "length"
  {
  }

  /** A native array maps one-to-one and in order; the text is then not scanned. */
  lemma NormalizedNative(w: WireResponse, next: nat, json: JsonCodec)
    requires w.message.toolCalls.Calls?
    ensures var (r, next') := NormalizedResponse(w, next, json);
            var calls := w.message.toolCalls.calls;
            && r.toolCalls.Some? && |r.toolCalls.value| == |calls|
            && r.content == ""
            && next' == next + |calls|
            && forall k :: 0 <= k < |calls| ==>
                 && r.toolCalls.value[k].name == calls[k].name
                 && StartsWith(r.toolCalls.value[k].id, "call_")
                 && (calls[k].arguments.JString? ==> r.toolCalls.value[k].arguments == calls[k].arguments.s)
  {
  }

  /** Without a native array the reply carries tool calls only when the text
      contains `{` and some prefix from the first `{` is accepted; then it
      carries exactly one, built from the first such prefix. */
  lemma NormalizedHeuristic(w: WireResponse, next: nat, json: JsonCodec)
    requires !w.message.toolCalls.Calls?
    ensures var (r, next') := NormalizedResponse(w, next, json);
            && (r.toolCalls.Some? <==> HeuristicApplies(w.message) && HeuristicCandidate(w.message.content.value, json.parse).Some?)
            && (r.toolCalls.Some? ==>
                  && |r.toolCalls.value| == 1
                  && r.toolCalls.value[0] == HeuristicToolCall(HeuristicCandidate(w.message.content.value, json.parse).value, next, json.stringify)
                  && r.toolCalls.value[0].id == CallId(next)
                  && next' == next + 1)
            && (r.toolCalls.None? ==> next' == next)
  {
  }

  /** The recovered call carries the recovered object's `name` (its JSON text
      when it is not a string) and its `arguments` (kept when a string,
      stringified otherwise). */
  lemma HeuristicCallFields(w: WireResponse, next: nat, json: JsonCodec)
    requires !w.message.toolCalls.Calls? && NormalizedResponse(w, next, json).0.toolCalls.Some?
    ensures var call := NormalizedResponse(w, next, json).0.toolCalls.value[0];
            var v := HeuristicCandidate(w.message.content.value, json.parse).value;
            && Field(v, "name").Some? && Field(v, "arguments").Some?
            && (Field(v, "name").value.JString? ==> call.name == Field(v, "name").value.s)
            && (!Field(v, "name").value.JString? ==> call.name == json.stringify(Field(v, "name").value))
            && (Field(v, "arguments").value.JString? ==> call.arguments == Field(v, "arguments").value.s)
            && (!Field(v, "arguments").value.JString? ==> call.arguments == json.stringify(Field(v, "arguments").value))
  {
    NormalizedHeuristic(w, next, json);
  }

  /** A model that answers with a bare JSON call, such as
      `{"name": "get_weather", "arguments": {...}}`, gets exactly that call
      back, with the content emptied. */
  lemma BareObjectBecomesCall(w: WireResponse, next: nat, json: JsonCodec, name: string, v: Json)
    requires !w.message.toolCalls.Calls? && w.message.content.Some?
    requires var c := w.message.content.value;
             && c != [] && c[0] == '{'
             && json.parse(c) == Ok(v) && IsToolCallCandidate(Ok(v))
             && (forall e :: 1 <= e < |c| ==> json.parse(c[..e]).Err?)
    requires Field(v, "name") == Some(JString(name))
    ensures var r := NormalizedResponse(w, next, json).0;
            && r.content == ""
            && r.toolCalls.Some? && |r.toolCalls.value| == 1
            && r.toolCalls.value[0].name == name
            && r.toolCalls.value[0].arguments == ArgumentsText(Field(v, "arguments").value, json.stringify)
  {
    var c := w.message.content.value;
    HeuristicTakesWholeObject(c, json.parse, v);
    assert c[..1] == "{";
    assert HeuristicApplies(w.message);
  }

  /** The message of a failed POST. */
  function ApiErrorMessage(responseError: Option<string>, message: string): (r: string)
    ensures StartsWith(r, "Ollama API error: ")
    ensures responseError.Some? && responseError.value != "" ==> r[18..] == responseError.value
    ensures (responseError.None? || responseError.value == "") ==> r[18..] == message
  {
    "Ollama API error: " + (if responseError.Some? && responseError.value != "" then responseError.value else message)
  }

  class OllamaProvider {
    var baseUrl: string
    var defaultModel: string
    /** The `uuid()` stand-in: the next fresh id number. */
    var idCounter: nat

    constructor(baseUrl: string := DefaultBaseUrl, defaultModel: string := DefaultModel)
      ensures this.baseUrl == StripTrailingSlash(baseUrl)
      ensures this.defaultModel == defaultModel
      ensures idCounter == 0
    {
      this.baseUrl := StripTrailingSlash(baseUrl);
      this.defaultModel := defaultModel;
      idCounter := 0;
    }

    /** `parseOllamaResponse`, consuming one counter value per tool call it builds. */
    method ParseOllamaResponse(response: WireResponse, json: JsonCodec) returns (r: ChatResponse)
      modifies this`idCounter
      ensures (r, idCounter) == NormalizedResponse(response, old(idCounter), json)
    {
      var message := response.message;
      ghost var spec := NormalizedToolCalls(message, idCounter, json);
      var toolCalls: Option<seq<ToolCall>> := None;
      if message.toolCalls.Calls? {
        toolCalls := Some(MapNativeToolCalls(message.toolCalls.calls, idCounter, json.stringify));
        idCounter := idCounter + |message.toolCalls.calls|;
      } else if message.content.Some? && Contains(message.content.value, "{") {
        assert HeuristicApplies(message);
        var parsed := ScanForToolCall(message.content.value, json.parse);
        if parsed.Some? {
          toolCalls := Some([HeuristicToolCall(parsed.value, idCounter, json.stringify)]);
          idCounter := idCounter + 1;
        }
      }
      assert (toolCalls, idCounter) == spec;
      r := ChatResponse(if toolCalls.Some? then "" else message.content.GetOr(""),
                        toolCalls,
                        if response.done then "stop" else "length");
    }

    /** `chat`: build the body (a failing argument parse escapes as it is),
        POST it to `<baseUrl>/api/chat`, and normalise the reply or map the error. */
    method Chat(request: ChatRequest, post: (string, OllamaBody) -> Transport, json: JsonCodec)
      returns (r: Result<ChatResponse, ProviderError>)
      modifies this`idCounter
      ensures var body := RequestBody(request, defaultModel, json.parse);
              match body
              case Err(e) => r == Err(Rethrown(e)) && idCounter == old(idCounter)
              case Ok(b) =>
                match post(baseUrl + "/api/chat", b)
                case Delivered(w) => (r.Ok? && (r.value, idCounter) == NormalizedResponse(w, old(idCounter), json))
                case HttpFailure(e, m) => r == Err(ApiError(ApiErrorMessage(e, m))) && idCounter == old(idCounter)
                case OtherFailure(m) => r == Err(Rethrown(m)) && idCounter == old(idCounter)
    {
      var body := RequestBody(request, defaultModel, json.parse);
      if body.Err? {
        return Err(Rethrown(body.error));
      }
      var reply := post(baseUrl + "/api/chat", body.value);
      match reply {
        case Delivered(w) =>
          var response := ParseOllamaResponse(w, json);
          r := Ok(response);
        case HttpFailure(e, m) =>
          r := Err(ApiError(ApiErrorMessage(e, m)));
        case OtherFailure(m) =>
          r := Err(Rethrown(m));
      }
    }
  }
}
