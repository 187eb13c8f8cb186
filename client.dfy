/**
 * The chat client of the Information Science Spark API
 * (`infosci_spark_client/client.py`): construction of the endpoint, argument
 * validation and request construction, extraction of one answer from a
 * buffered reply, and the per-line protocol over a streamed reply.
 *
 * The HTTP transport, the JSON decoder and Python's `str()` of a decoded
 * value are not part of this model; they are supplied as the functions of an
 * `Environment`.
 */
module Client {
  import opened Wrappers
  import opened JsonValues
  import opened Text

  /** The base address used when the caller supplies none. */
  const DefaultBaseUrl: string := "https://4300spark.infosci.cornell.edu"

  /** The path appended to the base address. */
  const ChatPath: string := "/api/chat"

  /** The prefix an event payload may carry on its line. */
  const DataPrefix: string := "data: "

  /** The line (after trimming) that ends a stream. */
  const DoneMarker: string := "[DONE]"

  /** The character `base_url.rstrip("/")` removes. */
  predicate IsSlash(c: char)
  {
    c == '/'
  }

  /** One entry of the conversation: `{"role": ..., "content": ...}`. */
  datatype Message = Message(role: string, content: string)

  /**
   * A value of the request payload dictionary: the message list, the
   * `stream` flag or the reasoning level.
   */
  datatype PayloadValue = Messages(messages: seq<Message>) | Flag(flag: bool) | Level(level: string)

  /** The request handed to the transport (`requests.post(...)`). */
  datatype Request = Request(
    url: string,
    payload: map<string, PayloadValue>,
    headers: map<string, string>,
    stream: bool)

  /**
   * `{"content": ..., "reasoning": ...}`. Both fields hold whatever JSON value
   * the upstream sent under the corresponding key (the source does not
   * convert them), or the empty string by default.
   */
  datatype ChatResult = ChatResult(content: Json, reasoning: Json)

  /** What a successful call returns in each mode. */
  datatype Answer = Single(result: ChatResult) | Chunks(results: seq<ChatResult>)

  /** The exceptions a call can raise to its caller. */
  datatype ClientError =
    | InvalidReasoningLevel(got: string)   // ValueError, raised before any request
    | MalformedBody                        // response.json() could not decode the body
    | UnexpectedShape                      // TypeError / KeyError / AttributeError on the decoded body

  /**
   * The collaborators the client calls but that are not modelled: the
   * transport in buffered mode (the body it receives for a request), the
   * transport in streaming mode (the lines `iter_lines` delivers), the JSON
   * decoder, and `str()` of a decoded value.
   */
  datatype Environment = Environment(
    post: Request -> string,
    postStream: Request -> seq<string>,
    parse: string -> Option<Json>,
    render: Json -> string)

  // ---------------------------------------------------------------------------
  // Argument validation and payload construction
  // ---------------------------------------------------------------------------

  /** `reasoning_level in {"low", "medium", "high", None}`. */
  predicate ValidReasoningLevel(level: Option<string>)
  {
    level == None || level == Some("low") || level == Some("medium") || level == Some("high")
  }

  // ---------------------------------------------------------------------------
  // The first choice of an OpenAI-style envelope
  // ---------------------------------------------------------------------------

  /**
   * How `"choices" in data and len(data["choices"]) > 0` followed by
   * `data["choices"][0]` and a `.get` on the result ends: there are no
   * choices (the condition is false), the first choice is a dictionary, or
   * Python raises (a `TypeError`, `KeyError` or `AttributeError`).
   */
  datatype FirstChoice = NoChoices | Choice(fields: map<string, Json>) | Raises

  /**
   * The first choice of `data`, following Python's semantics of `in`, `len`
   * and indexing on each kind of decoded value.
   */
  function FirstChoiceOf(data: Json): (first: FirstChoice)
  {
    match data
    case JObject(fields) =>
      if "choices" !in fields then NoChoices
      else
        (match fields["choices"]
         case JArray(items) =>
           if |items| == 0 then NoChoices
           else if items[0].JObject? then Choice(items[0].fields)
           else Raises                         // `.get` on a non-dictionary
         case JString(s) => if |s| == 0 then NoChoices else Raises   // `.get` on a one-character string
         case JObject(m) => if |m| == 0 then NoChoices else Raises   // `m[0]`: no integer keys
         case _ => Raises)                                           // `len` of null, bool or number
    case JArray(items) =>
      if JString("choices") in items then Raises else NoChoices     // list indices must be integers
    case JString(s) =>
      if Contains(s, "choices") then Raises else NoChoices          // string indices must be integers
    case _ => Raises                                                // `in` on null, bool or number
  }

  // ---------------------------------------------------------------------------
  // Buffered mode
  // ---------------------------------------------------------------------------

  /**
   * The answer `_non_stream_chat` builds from the decoded body.
   */
  function ExtractReply(data: Json, showThinking: bool, render: Json -> string): (r: Result<ChatResult, ClientError>)
    ensures FirstChoiceOf(data) == NoChoices ==> r == Success(ChatResult(JString(render(data)), EmptyString))
    ensures FirstChoiceOf(data) == Raises ==> r == Failure(UnexpectedShape)
    ensures r.Success? && !showThinking ==> r.value.reasoning == EmptyString
    ensures FirstChoiceOf(data).Choice? ==>
      var message := Get(FirstChoiceOf(data).fields, "message", JObject(map[]));
      if message.JObject? then
        r == Success(ChatResult(
          Get(message.fields, "content", EmptyString),
          if showThinking then Get(message.fields, "reasoning_content", EmptyString) else EmptyString))
      else r == Failure(UnexpectedShape)
  {
    match FirstChoiceOf(data)
    case NoChoices => Success(ChatResult(JString(render(data)), EmptyString))
    case Raises => Failure(UnexpectedShape)
    case Choice(choice) =>
      var message := Get(choice, "message", JObject(map[]));
      if !message.JObject? then Failure(UnexpectedShape)
      else
        var content := Get(message.fields, "content", EmptyString);
        var reasoning := if showThinking then Get(message.fields, "reasoning_content", EmptyString) else EmptyString;
        Success(ChatResult(content, reasoning))
  }

  /** The buffered outcome for a whole response body: decode it, then extract. */
  function BufferedReply(body: string, showThinking: bool, env: Environment): (r: Result<ChatResult, ClientError>)
    ensures r == Failure(MalformedBody) <==> env.parse(body) == None
    ensures r.Failure? ==> r.error == MalformedBody || r.error == UnexpectedShape
    ensures r.Success? && !showThinking ==> r.value.reasoning == EmptyString
    ensures env.parse(body).Some? && env.parse(body).value.JObject? &&
            ("choices" !in env.parse(body).value.fields || env.parse(body).value.fields["choices"] == JArray([])) ==>
      r == Success(ChatResult(JString(env.render(env.parse(body).value)), EmptyString))
  {
    match env.parse(body)
    case None => Failure(MalformedBody)
    case Some(data) => ExtractReply(data, showThinking, env.render)
  }

  // ---------------------------------------------------------------------------
  // Streaming mode: the per-line protocol
  // ---------------------------------------------------------------------------

  /** How the framing of one line is read, before any JSON decoding. */
  datatype Frame = Ignored | Done | Event(text: string)

  /**
   * The framing of one streamed line: empty, whitespace-only and `:` comment
   * lines are ignored; an exact `data: ` prefix is removed; what then trims
   * to `[DONE]` ends the stream; anything else is an event payload.
   */
  function FrameOf(line: string): (frame: Frame)
  {
    if line == [] then Ignored
    else if line[0] == ':' || Strip(line) == [] then Ignored
    else
      var text := if DataPrefix <= line then line[|DataPrefix|..] else line;
      if Strip(text) == DoneMarker then Done else Event(text)
  }

  /** What handling one line contributes to the stream. */
  datatype Step = Skip | Stop | Emit(result: ChatResult, finished: bool)

  /** A step that ends the stream: `[DONE]`, or a chunk with a truthy finish reason. */
  predicate Ends(step: Step)
  {
    step.Stop? || (step.Emit? && step.finished)
  }

  /**
   * The step for one decoded event: a chunk when the first choice is a
   * dictionary whose `delta` is a dictionary, and nothing otherwise (every
   * exception is caught by the loop).
   */
  function ChunkStep(data: Json, showThinking: bool): (step: Step)
  {
    match FirstChoiceOf(data)
    case Choice(choice) =>
      var delta := Get(choice, "delta", JObject(map[]));
      if !delta.JObject? then Skip
      else
        var content := Get(delta.fields, "content", EmptyString);
        var reasoning := if showThinking then Get(delta.fields, "reasoning_content", EmptyString) else EmptyString;
        Emit(ChatResult(content, reasoning), Truthy(Get(choice, "finish_reason", JNull)))
    case _ => Skip
  }

  /** The step for one whole line: framing, decoding, then the chunk. */
  function LineStep(line: string, showThinking: bool, parse: string -> Option<Json>): (step: Step)
  {
    match FrameOf(line)
    case Ignored => Skip
    case Done => Stop
    case Event(text) =>
      match parse(text)
      case None => Skip
      case Some(data) => ChunkStep(data, showThinking)
  }

  /** The step of each line, in order. */
  function Steps(lines: seq<string>, showThinking: bool, parse: string -> Option<Json>): (steps: seq<Step>)
    ensures |steps| == |lines|
  {
    if lines == [] then [] else [LineStep(lines[0], showThinking, parse)] + Steps(lines[1..], showThinking, parse)
  }

  /** Position `i` of the steps is the step of line `i`. */
  lemma {:induction false} StepsAt(lines: seq<string>, i: nat, showThinking: bool, parse: string -> Option<Json>)
    requires i < |lines|
    ensures Steps(lines, showThinking, parse)[i] == LineStep(lines[i], showThinking, parse)
    decreases i
  {
    if i > 0 {
      StepsAt(lines[1..], i - 1, showThinking, parse);
    }
  }

  /**
   * The results yielded by a sequence of steps: each emitted chunk in order,
   * up to and including the first step that ends the stream.
   */
  function Collect(steps: seq<Step>): (r: seq<ChatResult>)
    ensures |r| <= |steps|
  {
    if steps == [] then []
    else
      match steps[0]
      case Skip => Collect(steps[1..])
      case Stop => []
      case Emit(result, finished) => if finished then [result] else [result] + Collect(steps[1..])
  }

  /** The results a stream of lines yields, one line after the other. */
  function StreamResults(lines: seq<string>, showThinking: bool, parse: string -> Option<Json>): (r: seq<ChatResult>)
    ensures |r| <= |lines|
  {
    Collect(Steps(lines, showThinking, parse))
  }

  /** The results of a sequence whose first step is `step` and whose later steps yield `rest`. */
  function AfterStep(step: Step, rest: seq<ChatResult>): (results: seq<ChatResult>)
  {
    match step
    case Skip => rest
    case Stop => []
    case Emit(result, finished) => if finished then [result] else [result] + rest
  }

  /** `Collect` taken one step at position `i`. */
  lemma CollectAt(steps: seq<Step>, i: nat)
    requires i < |steps|
    ensures Collect(steps[i..]) == AfterStep(steps[i], Collect(steps[i + 1..]))
  {
    assert steps[i..][0] == steps[i] && steps[i..][1..] == steps[i + 1..];
  }

  /**
   * If `done` followed by the results of `steps[i..]` are the results of
   * `steps`, then handling step `i` keeps that so: a skip leaves `done` as it
   * is, a stop makes `done` the whole answer, and an emitted chunk is appended
   * to `done` (and is the last one when it finishes the stream).
   */
  lemma CollectAdvance(steps: seq<Step>, i: nat, done: seq<ChatResult>)
    requires i < |steps|
    requires done + Collect(steps[i..]) == Collect(steps)
    ensures steps[i] == Skip ==> done + Collect(steps[i + 1..]) == Collect(steps)
    ensures steps[i] == Stop ==> done == Collect(steps)
    ensures steps[i].Emit? && steps[i].finished ==> done + [steps[i].result] == Collect(steps)
    ensures steps[i].Emit? && !steps[i].finished ==>
      (done + [steps[i].result]) + Collect(steps[i + 1..]) == Collect(steps)
  {
    CollectAt(steps, i);
    if steps[i].Emit? {
      var later := Collect(steps[i + 1..]);
      assert (done + [steps[i].result]) + later == done + ([steps[i].result] + later);
    }
  }

  /**
   * The work the stream loop does on one line: skip blank, whitespace-only and
   * comment lines, drop an exact `data: ` prefix, stop on `[DONE]`, decode the
   * text, skip what does not decode or has no choices, and otherwise yield the
   * delta's content (and reasoning when asked) with the choice's finish flag.
   */
  method ReadLine(lines: seq<string>, i: nat, showThinking: bool, parse: string -> Option<Json>) returns (step: Step)
    requires i < |lines|
    ensures step == Steps(lines, showThinking, parse)[i]
  {
    StepsAt(lines, i, showThinking, parse);
    var line := lines[i];
    if line == [] {
      return Skip;
    }
    if line[0] == ':' || Strip(line) == [] {
      return Skip;
    }
    var text := line;
    if DataPrefix <= text {
      text := text[|DataPrefix|..];
    }
    if Strip(text) == DoneMarker {
      return Stop;
    }
    assert FrameOf(line) == Event(text);
    var decoded := parse(text);
    if decoded.None? {
      return Skip;
    }
    var first := FirstChoiceOf(decoded.value);
    if !first.Choice? {
      return Skip;
    }
    var choice := first.fields;
    var delta := Get(choice, "delta", JObject(map[]));
    if !delta.JObject? {
      return Skip;
    }
    var content := Get(delta.fields, "content", EmptyString);
    var reasoning := if showThinking then Get(delta.fields, "reasoning_content", EmptyString) else EmptyString;
    var finished := Truthy(Get(choice, "finish_reason", JNull));
    return Emit(ChatResult(content, reasoning), finished);
  }

  // ---------------------------------------------------------------------------
  // The client object
  // ---------------------------------------------------------------------------

  class LLMClient {
    const apiKey: string
    const baseUrl: string
    const chatEndpoint: string

    /**
     * Keeps the credential, removes every trailing `/` from the base address
     * and appends the chat path. Nothing is sent.
     */
    constructor (apiKey: string, baseUrl: string := DefaultBaseUrl)
      ensures this.apiKey == apiKey
      ensures this.baseUrl <= baseUrl
      ensures forall i | |this.baseUrl| <= i < |baseUrl| :: baseUrl[i] == '/'
      ensures this.baseUrl == [] || this.baseUrl[|this.baseUrl| - 1] != '/'
      ensures this.chatEndpoint == this.baseUrl + ChatPath
    {
      this.apiKey := apiKey;
      this.baseUrl := RStrip(baseUrl, IsSlash);
      this.chatEndpoint := RStrip(baseUrl, IsSlash) + ChatPath;
    }

    /**
     * Validates the reasoning level, builds the payload and headers, and
     * hands them to the buffered or the streaming handler. `sent` is the
     * request given to the transport, if any.
     */
    method Chat(messages: seq<Message>, stream: bool, showThinking: bool, reasoningLevel: Option<string>, env: Environment)
      returns (sent: Option<Request>, r: Result<Answer, ClientError>)
      ensures sent.None? <==> !ValidReasoningLevel(reasoningLevel)
      ensures !ValidReasoningLevel(reasoningLevel) ==> r == Failure(InvalidReasoningLevel(reasoningLevel.value))
      ensures sent.Some? ==>
        var request := sent.value;
        && request.url == chatEndpoint
        && request.stream == stream
        && request.payload.Keys == {"messages", "stream"} + (if reasoningLevel.Some? then {"reasoning_level"} else {})
        && request.payload["messages"] == Messages(messages)
        && request.payload["stream"] == Flag(stream)
        && (reasoningLevel.Some? ==> request.payload["reasoning_level"] == Level(reasoningLevel.value))
        && request.headers == map["Authorization" := "Bearer " + apiKey, "Content-Type" := "application/json"]
      ensures sent.Some? && stream ==>
        r == Success(Chunks(StreamResults(env.postStream(sent.value), showThinking, env.parse)))
      ensures sent.Some? && !stream ==>
        r == match BufferedReply(env.post(sent.value), showThinking, env)
             case Success(result) => Success(Single(result))
             case Failure(e) => Failure(e)
    {
      if !ValidReasoningLevel(reasoningLevel) {
        return None, Failure(InvalidReasoningLevel(reasoningLevel.value));
      }
      var payload := map["messages" := Messages(messages), "stream" := Flag(stream)];
      if reasoningLevel.Some? {
        payload := payload["reasoning_level" := Level(reasoningLevel.value)];
      }
      var headers := map["Authorization" := "Bearer " + apiKey, "Content-Type" := "application/json"];
      if stream {
        var request, results := StreamChat(payload, headers, showThinking, env);
        sent, r := Some(request), Success(Chunks(results));
      } else {
        var request, result := NonStreamChat(payload, headers, showThinking, env);
        sent := Some(request);
        match result
        case Success(one) => r := Success(Single(one));
        case Failure(e) => r := Failure(e);
      }
    }

    /** Posts the payload and extracts one answer from the decoded body. */
    method NonStreamChat(payload: map<string, PayloadValue>, headers: map<string, string>, showThinking: bool, env: Environment)
      returns (sent: Request, r: Result<ChatResult, ClientError>)
      ensures sent == Request(chatEndpoint, payload, headers, false)
      ensures r == BufferedReply(env.post(sent), showThinking, env)
    {
      sent := Request(chatEndpoint, payload, headers, false);
      var body := env.post(sent);
      r := BufferedReply(body, showThinking, env);
    }

    /**
     * Posts the payload for incremental delivery and runs the per-line loop
     * over the lines received, collecting what it yields.
     */
    method StreamChat(payload: map<string, PayloadValue>, headers: map<string, string>, showThinking: bool, env: Environment)
      returns (sent: Request, results: seq<ChatResult>)
      ensures sent == Request(chatEndpoint, payload, headers, true)
      ensures results == StreamResults(env.postStream(sent), showThinking, env.parse)
    {
      sent := Request(chatEndpoint, payload, headers, true);
      var lines := env.postStream(sent);
      ghost var steps := Steps(lines, showThinking, env.parse);
      results := [];
      assert steps[0..] == steps;
      for i := 0 to |lines|
        invariant results + Collect(steps[i..]) == Collect(steps)
      {
        var step := ReadLine(lines, i, showThinking, env.parse);
        CollectAdvance(steps, i, results);
        match step
        case Skip =>
          continue;
        case Stop =>
          break;
        case Emit(result, finished) =>
          results := results + [result];
          if finished {
            break;
          }
      }
    }
  }
}
