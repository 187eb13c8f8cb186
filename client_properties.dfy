/**
 * Properties of the chat client model: the endpoint, the buffered answer and
 * the streamed results.
 */
module ClientProperties {
  import opened Wrappers
  import opened JsonValues
  import opened Text
  import opened Client

  // ---------------------------------------------------------------------------
  // Endpoint
  // ---------------------------------------------------------------------------

  /** Extra trailing slashes on the base address leave the derived endpoint unchanged. */
  lemma EndpointIgnoresTrailingSlashes(base: string, slashes: string)
    requires forall i | 0 <= i < |slashes| :: slashes[i] == '/'
    ensures RStrip(base + slashes, IsSlash) + ChatPath == RStrip(base, IsSlash) + ChatPath
  {
    RStripIgnoresTrailing(base, slashes, IsSlash);
  }

  /**
   * Two clients built from the same credential and from base addresses that
   * differ only in trailing slashes send the same request and return the same
   * answer for every call.
   */
  method ConstructedAlike(apiKey: string, base: string, slashes: string,
                          messages: seq<Message>, stream: bool, showThinking: bool,
                          reasoningLevel: Option<string>, env: Environment)
    returns (sent1: Option<Request>, r1: Result<Answer, ClientError>,
             sent2: Option<Request>, r2: Result<Answer, ClientError>)
    requires forall i | 0 <= i < |slashes| :: slashes[i] == '/'
    ensures sent1 == sent2 && r1 == r2
  {
    var first := new LLMClient(apiKey, base);
    var second := new LLMClient(apiKey, base + slashes);
    RStripCharacterised(base, IsSlash, first.baseUrl);
    RStripCharacterised(base + slashes, IsSlash, second.baseUrl);
    EndpointIgnoresTrailingSlashes(base, slashes);
    assert first.chatEndpoint == second.chatEndpoint && first.apiKey == second.apiKey;
    sent1, r1 := first.Chat(messages, stream, showThinking, reasoningLevel, env);
    sent2, r2 := second.Chat(messages, stream, showThinking, reasoningLevel, env);
    if sent1.Some? {
      var p1, p2 := sent1.value.payload, sent2.value.payload;
      assert p1.Keys == p2.Keys;
      assert forall k | k in p1 :: p1[k] == p2[k];
      assert p1 == p2;
      assert sent1.value == sent2.value;
    }
  }

  // ---------------------------------------------------------------------------
  // The envelope and the per-line protocol, case by case
  // ---------------------------------------------------------------------------

  /** The first choice is found exactly for a non-empty `choices` list whose first entry is a dictionary. */
  lemma FirstChoiceShape(data: Json)
    ensures FirstChoiceOf(data).Choice? <==>
      (data.JObject? && "choices" in data.fields && data.fields["choices"].JArray? &&
       |data.fields["choices"].items| > 0 && data.fields["choices"].items[0].JObject?)
    ensures FirstChoiceOf(data).Choice? ==> FirstChoiceOf(data).fields == data.fields["choices"].items[0].fields
    ensures data.JObject? && "choices" !in data.fields ==> FirstChoiceOf(data) == NoChoices
    ensures data.JObject? && "choices" in data.fields && data.fields["choices"] == JArray([]) ==> FirstChoiceOf(data) == NoChoices
  {
  }

  /** The framing of a line: which lines are ignored, and what text an event carries. */
  lemma FrameOfCases(line: string)
    ensures FrameOf(line) == Ignored <==> (line == [] || line[0] == ':' || Strip(line) == [])
    ensures FrameOf(line).Event? ==> Strip(FrameOf(line).text) != DoneMarker
    ensures FrameOf(line).Event? ==> FrameOf(line).text == if DataPrefix <= line then line[|DataPrefix|..] else line
  {
  }

  /** A decoded event yields a chunk exactly when its first choice and that choice's `delta` are dictionaries. */
  lemma ChunkStepShape(data: Json, showThinking: bool)
    ensures ChunkStep(data, showThinking) != Stop
    ensures ChunkStep(data, showThinking).Emit? <==> (FirstChoiceOf(data).Choice? && Get(FirstChoiceOf(data).fields, "delta", JObject(map[])).JObject?)
    ensures ChunkStep(data, showThinking).Emit? ==>
      var choice := FirstChoiceOf(data).fields;
      var delta := Get(choice, "delta", JObject(map[])).fields;
      ChunkStep(data, showThinking).result.content == Get(delta, "content", EmptyString) &&
      ChunkStep(data, showThinking).result.reasoning == (if showThinking then Get(delta, "reasoning_content", EmptyString) else EmptyString) &&
      (ChunkStep(data, showThinking).finished <==> Truthy(Get(choice, "finish_reason", JNull)))
  {
  }

  // ---------------------------------------------------------------------------
  // Buffered mode
  // ---------------------------------------------------------------------------

  /** A reply with `choices[0].message` gives its content and, when asked for, its reasoning. */
  lemma BufferedTakesFirstMessage(content: string, reasoning: string, showThinking: bool, render: Json -> string)
    ensures
      var message := JObject(map["content" := JString(content), "reasoning_content" := JString(reasoning)]);
      var data := JObject(map["choices" := JArray([JObject(map["message" := message])])]);
      ExtractReply(data, showThinking, render) ==
        Success(ChatResult(JString(content), if showThinking then JString(reasoning) else EmptyString))
  {
  }

  /** A reply without usable `choices` falls back to its rendering, with empty reasoning. */
  lemma BufferedFallback(data: Json, showThinking: bool, render: Json -> string)
    requires data.JObject?
    requires "choices" !in data.fields || data.fields["choices"] == JArray([])
    ensures ExtractReply(data, showThinking, render) == Success(ChatResult(JString(render(data)), EmptyString))
  {
  }

  // ---------------------------------------------------------------------------
  // Streaming mode: what single lines do
  // ---------------------------------------------------------------------------

  /** Blank, whitespace-only and comment lines contribute nothing. */
  lemma BlankAndCommentLinesSkipped(line: string, showThinking: bool, parse: string -> Option<Json>)
    requires line == [] || line[0] == ':' || forall i | 0 <= i < |line| :: IsSpace(line[i])
    ensures LineStep(line, showThinking, parse) == Skip
  {
    StripEmptyIffBlank(line);
  }

  /**
   * A `data: ` line is read as the text after the prefix: it ends the stream
   * when that text trims to `[DONE]`, and otherwise is decoded as it stands.
   */
  lemma DataPrefixRemoved(text: string, showThinking: bool, parse: string -> Option<Json>)
    ensures Strip(text) == DoneMarker ==> LineStep(DataPrefix + text, showThinking, parse) == Stop
    ensures Strip(text) != DoneMarker ==>
      LineStep(DataPrefix + text, showThinking, parse) ==
        match parse(text)
        case None => Skip
        case Some(data) => ChunkStep(data, showThinking)
  {
    var line := DataPrefix + text;
    StripKeepsFirst(line);
    assert DataPrefix <= line && line[|DataPrefix|..] == text;
  }

  /** A line that trims to `[DONE]`, with or without the `data: ` prefix, ends the stream. */
  lemma DoneLineStops(w1: string, w2: string, showThinking: bool, parse: string -> Option<Json>)
    requires forall i | 0 <= i < |w1| :: IsSpace(w1[i])
    requires forall i | 0 <= i < |w2| :: IsSpace(w2[i])
    ensures LineStep(w1 + DoneMarker + w2, showThinking, parse) == Stop
    ensures LineStep(DataPrefix + (w1 + DoneMarker + w2), showThinking, parse) == Stop
  {
    var line := w1 + DoneMarker + w2;
    StripPadded(w1, DoneMarker, w2);
    assert IsSpace(line[0]) || line[0] == '[' by {
      if |w1| > 0 { assert line[0] == w1[0]; } else { assert line[0] == DoneMarker[0]; }
    }
    assert |line| > 0 && line[0] != ':' && line[0] != DataPrefix[0];
    assert !(DataPrefix <= line);
    assert Strip(line) != [];
    assert FrameOf(line) == Done;
    DataPrefixRemoved(line, showThinking, parse);
  }

  /**
   * An event payload, with or without the `data: ` prefix, that does not
   * decode, has no usable first choice, or whose `delta` is not a dictionary,
   * contributes nothing and does not end the stream.
   */
  lemma UnusableEventSkipped(line: string, showThinking: bool, parse: string -> Option<Json>)
    requires FrameOf(line).Event?
    requires
      var decoded := parse(FrameOf(line).text);
      || decoded == None
      || !FirstChoiceOf(decoded.value).Choice?
      || !Get(FirstChoiceOf(decoded.value).fields, "delta", JObject(map[])).JObject?
    ensures LineStep(line, showThinking, parse) == Skip
  {
  }

  // ---------------------------------------------------------------------------
  // Streaming mode: whole streams
  // ---------------------------------------------------------------------------

  /** Some step of `steps` ends the stream. */
  predicate Halts(steps: seq<Step>)
  {
    exists i | 0 <= i < |steps| :: Ends(steps[i])
  }

  /** Some line of `lines` ends the stream. */
  predicate Stops(lines: seq<string>, showThinking: bool, parse: string -> Option<Json>)
  {
    Halts(Steps(lines, showThinking, parse))
  }

  /** `Halts` of a sequence with a first step. */
  lemma HaltsCons(steps: seq<Step>)
    requires steps != []
    ensures Halts(steps) <==> Ends(steps[0]) || Halts(steps[1..])
  {
    if Halts(steps[1..]) {
      var i :| 0 <= i < |steps[1..]| && Ends(steps[1..][i]);
      assert steps[i + 1] == steps[1..][i];
    }
    if Halts(steps) {
      var i :| 0 <= i < |steps| && Ends(steps[i]);
      if i > 0 {
        assert steps[1..][i - 1] == steps[i];
      }
    }
  }

  /**
   * Steps run after `a` contribute only when no step of `a` ended the
   * stream.
   */
  lemma {:induction false} CollectAppend(a: seq<Step>, b: seq<Step>)
    ensures Collect(a + b) == Collect(a) + (if Halts(a) then [] else Collect(b))
    decreases |a|
  {
    if a == [] {
      assert a + b == b;
    } else {
      assert (a + b)[0] == a[0] && (a + b)[1..] == a[1..] + b;
      HaltsCons(a);
      CollectAppend(a[1..], b);
    }
  }

  /**
   * The stream over `a + b` yields what `a` yields, followed by what `b`
   * yields unless a line of `a` already ended the stream: lines after the end
   * are never examined.
   */
  lemma StreamAppend(a: seq<string>, b: seq<string>, showThinking: bool, parse: string -> Option<Json>)
    ensures StreamResults(a + b, showThinking, parse) ==
      StreamResults(a, showThinking, parse) +
      (if Stops(a, showThinking, parse) then [] else StreamResults(b, showThinking, parse))
  {
    var sa, sb := Steps(a, showThinking, parse), Steps(b, showThinking, parse);
    StepsAppend(a, b, showThinking, parse);
    CollectAppend(sa, sb);
  }

  /** The steps of two runs of lines, one after the other, are their steps one after the other. */
  lemma {:induction false} StepsAppend(a: seq<string>, b: seq<string>, showThinking: bool, parse: string -> Option<Json>)
    ensures Steps(a + b, showThinking, parse) == Steps(a, showThinking, parse) + Steps(b, showThinking, parse)
  {
    if a == [] {
      assert a + b == b;
    } else {
      var first := [LineStep(a[0], showThinking, parse)];
      assert (a + b)[0] == a[0] && (a + b)[1..] == a[1..] + b;
      StepsAppend(a[1..], b, showThinking, parse);
      assert first + (Steps(a[1..], showThinking, parse) + Steps(b, showThinking, parse)) ==
        (first + Steps(a[1..], showThinking, parse)) + Steps(b, showThinking, parse);
    }
  }

  /** The first step of a stream with a first line. */
  lemma StreamCons(line: string, rest: seq<string>, showThinking: bool, parse: string -> Option<Json>)
    ensures StreamResults([line] + rest, showThinking, parse) ==
      AfterStep(LineStep(line, showThinking, parse), StreamResults(rest, showThinking, parse))
  {
    var steps := Steps([line] + rest, showThinking, parse);
    assert steps[1..] == Steps(rest, showThinking, parse);
    CollectAt(steps, 0);
    assert steps[0..] == steps;
  }

  /** A line that contributes nothing can be removed without changing the results. */
  lemma SkippedLineInert(pre: seq<string>, line: string, post: seq<string>, showThinking: bool, parse: string -> Option<Json>)
    requires LineStep(line, showThinking, parse) == Skip
    ensures StreamResults(pre + [line] + post, showThinking, parse) == StreamResults(pre + post, showThinking, parse)
  {
    StreamAppend(pre, [line] + post, showThinking, parse);
    StreamAppend(pre, post, showThinking, parse);
    StreamCons(line, post, showThinking, parse);
    assert pre + [line] + post == pre + ([line] + post);
  }

  /** Nothing after a `[DONE]` line is yielded, and the line itself yields nothing. */
  lemma DoneEndsStream(pre: seq<string>, line: string, post: seq<string>, showThinking: bool, parse: string -> Option<Json>)
    requires LineStep(line, showThinking, parse) == Stop
    ensures StreamResults(pre + [line] + post, showThinking, parse) == StreamResults(pre, showThinking, parse)
  {
    StreamAppend(pre, [line] + post, showThinking, parse);
    StreamCons(line, post, showThinking, parse);
    assert pre + [line] + post == pre + ([line] + post);
  }

  /**
   * A chunk with a truthy finish reason is the last result: the stream yields
   * it (unless an earlier line ended the stream) and nothing after it.
   */
  lemma FinishReasonEndsStream(pre: seq<string>, line: string, post: seq<string>, showThinking: bool, parse: string -> Option<Json>)
    requires LineStep(line, showThinking, parse).Emit? && LineStep(line, showThinking, parse).finished
    ensures StreamResults(pre + [line] + post, showThinking, parse) ==
      StreamResults(pre, showThinking, parse) +
      (if Stops(pre, showThinking, parse) then [] else [LineStep(line, showThinking, parse).result])
  {
    StreamAppend(pre, [line] + post, showThinking, parse);
    StreamCons(line, post, showThinking, parse);
    assert pre + [line] + post == pre + ([line] + post);
  }

  /** Steps whose chunks all have empty reasoning yield only results with empty reasoning. */
  lemma {:induction false} CollectHidesReasoning(steps: seq<Step>)
    requires forall i | 0 <= i < |steps| :: steps[i].Emit? ==> steps[i].result.reasoning == EmptyString
    ensures forall k | 0 <= k < |Collect(steps)| :: Collect(steps)[k].reasoning == EmptyString
    decreases |steps|
  {
    if steps != [] {
      assert forall i | 0 <= i < |steps[1..]| :: steps[1..][i] == steps[i + 1];
      CollectHidesReasoning(steps[1..]);
    }
  }

  /** Without `show_thinking` every streamed result has empty reasoning. */
  lemma StreamHidesReasoning(lines: seq<string>, parse: string -> Option<Json>)
    ensures forall k | 0 <= k < |StreamResults(lines, false, parse)| ::
      StreamResults(lines, false, parse)[k].reasoning == EmptyString
  {
    var steps := Steps(lines, false, parse);
    forall i | 0 <= i < |steps| && steps[i].Emit? ensures steps[i].result.reasoning == EmptyString {
      StepsAt(lines, i, false, parse);
    }
    CollectHidesReasoning(steps);
  }

  /** Without `show_thinking` the reasoning is empty in both modes. */
  lemma ReasoningHiddenInBothModes(body: string, lines: seq<string>, env: Environment)
    ensures BufferedReply(body, false, env).Success? ==> BufferedReply(body, false, env).value.reasoning == EmptyString
    ensures forall k | 0 <= k < |StreamResults(lines, false, env.parse)| ::
      StreamResults(lines, false, env.parse)[k].reasoning == EmptyString
  {
    StreamHidesReasoning(lines, env.parse);
  }

  // ---------------------------------------------------------------------------
  // A worked stream
  // ---------------------------------------------------------------------------

  /**
   * Two `data: ` chunks, the second with finish reason "stop": the stream
   * yields "a" then "b" and never looks at what follows, `[DONE]` included.
   */
  lemma TwoChunksThenFinish(textA: string, textB: string, rest: seq<string>, showThinking: bool, parse: string -> Option<Json>)
    requires |textA| > 0 && textA[0] == '{' && |textB| > 0 && textB[0] == '{'
    requires parse(textA) == Some(JObject(map["choices" := JArray([
      JObject(map["delta" := JObject(map["content" := JString("a")])])])]))
    requires parse(textB) == Some(JObject(map["choices" := JArray([
      JObject(map["delta" := JObject(map["content" := JString("b")]), "finish_reason" := JString("stop")])])]))
    ensures StreamResults([DataPrefix + textA, DataPrefix + textB] + rest, showThinking, parse) ==
      [ChatResult(JString("a"), EmptyString), ChatResult(JString("b"), EmptyString)]
  {
    var choiceA := map["delta" := JObject(map["content" := JString("a")])];
    var choiceB := map["delta" := JObject(map["content" := JString("b")]), "finish_reason" := JString("stop")];
    PlainChunk(textA, choiceA, "a", showThinking, parse);
    assert Get(choiceA, "finish_reason", JNull) == JNull;
    PlainChunk(textB, choiceB, "b", showThinking, parse);
    assert Get(choiceB, "finish_reason", JNull) == JString("stop");
    EmitThenFinish(DataPrefix + textA, DataPrefix + textB, rest, showThinking, parse);
  }

  /** A line that emits and continues, then a line that emits and finishes: the stream is those two results. */
  lemma EmitThenFinish(lineA: string, lineB: string, rest: seq<string>, showThinking: bool, parse: string -> Option<Json>)
    requires LineStep(lineA, showThinking, parse).Emit? && !LineStep(lineA, showThinking, parse).finished
    requires LineStep(lineB, showThinking, parse).Emit? && LineStep(lineB, showThinking, parse).finished
    ensures StreamResults([lineA, lineB] + rest, showThinking, parse) ==
      [LineStep(lineA, showThinking, parse).result, LineStep(lineB, showThinking, parse).result]
  {
    var stepA, stepB := LineStep(lineA, showThinking, parse), LineStep(lineB, showThinking, parse);
    var tail := Steps(rest, showThinking, parse);
    assert Steps([lineA, lineB] + rest, showThinking, parse) == [stepA, stepB] + tail;
    CollectEmitThenFinish(stepA, stepB, tail);
  }

  /** An emitting step that continues, then one that finishes: the rest is never looked at. */
  lemma CollectEmitThenFinish(stepA: Step, stepB: Step, tail: seq<Step>)
    requires stepA.Emit? && !stepA.finished && stepB.Emit? && stepB.finished
    ensures Collect([stepA, stepB] + tail) == [stepA.result, stepB.result]
  {
    assert ([stepA, stepB] + tail)[1..] == [stepB] + tail;
  }

  /** A `data: ` line whose only choice carries a delta with content alone. */
  lemma PlainChunk(text: string, choice: map<string, Json>, content: string, showThinking: bool, parse: string -> Option<Json>)
    requires |text| > 0 && text[0] == '{'
    requires parse(text) == Some(JObject(map["choices" := JArray([JObject(choice)])]))
    requires "delta" in choice && choice["delta"] == JObject(map["content" := JString(content)])
    ensures LineStep(DataPrefix + text, showThinking, parse) ==
      Emit(ChatResult(JString(content), EmptyString), Truthy(Get(choice, "finish_reason", JNull)))
  {
    StripKeepsFirst(text);
    assert Strip(text) != DoneMarker;
    DataPrefixRemoved(text, showThinking, parse);
    ChunkOfChoice(choice, content, showThinking);
  }

  /** The chunk step for a body whose only choice carries a delta with content alone. */
  lemma ChunkOfChoice(choice: map<string, Json>, content: string, showThinking: bool)
    requires "delta" in choice && choice["delta"] == JObject(map["content" := JString(content)])
    ensures ChunkStep(JObject(map["choices" := JArray([JObject(choice)])]), showThinking) ==
      Emit(ChatResult(JString(content), EmptyString), Truthy(Get(choice, "finish_reason", JNull)))
  {
    var data := JObject(map["choices" := JArray([JObject(choice)])]);
    assert FirstChoiceOf(data) == Choice(choice);
  }
}
