# A verified model of the Spark chat client

This project models `LLMClient`, the chat client of the Information Science
Spark API (`infosci_spark_client/client.py`), in Dafny and proves properties
of the model. The client:

- derives its chat endpoint from a base address;
- validates the optional reasoning level;
- builds the request payload and headers;
- either posts once and extracts one answer from an OpenAI-style reply
  (buffered mode), or posts for incremental delivery and runs a per-line
  Server-Sent-Events loop that yields `{content, reasoning}` chunks until
  `[DONE]` or a chunk with a finish reason (streaming mode).

Files:

- `wrappers.dfy`: `Option` and `Result`.
- `json_values.dfy`: decoded JSON values, together with the two pieces of
  Python semantics the client relies on: truthiness and `dict.get` with a
  default.
- `text.dfy`: Python's `str.rstrip(chars)`, `str.strip()` (over the
  characters for which `str.isspace()` holds) and the substring test
  `sub in s`.
- `client.dfy`: the client itself.
  - `LLMClient` is a class whose constructor fixes the key, the base address
    and the endpoint.
  - `Chat`, `NonStreamChat` and `StreamChat` are its methods.
  - The streaming loop is a `for` loop that calls `ReadLine` on each line.
    It is proved against `StreamResults`, a function over the lines.
  - `StreamResults` folds the per-line `LineStep` with `Collect`.
    `LineStep` in turn is `FrameOf` (the framing), then the decoder, then
    `ChunkStep` (the envelope).
  - `FirstChoiceOf` covers every way `"choices" in data and
    len(data["choices"]) > 0` followed by `data["choices"][0]` can end for a
    decoded value. It distinguishes no choices, a dictionary, and a Python
    exception, following Python's `in`, `len` and indexing on lists, strings
    and dictionaries.
- `client_properties.dfy`: lemmas about the model.

The HTTP transport, the JSON decoder and Python's `str()` of a decoded value
are not modelled. They are the four functions of an `Environment` value that
every call receives:

- `post`: the body received for a buffered request;
- `postStream`: the lines received for a streamed request;
- `parse`: the decoder, which returns `None` when the text does not decode;
- `render`: `str()` of a decoded value.

Three behaviours of the buffered path that the model keeps as the code has
them:

- A body that is not valid JSON is not recovered: `response.json()`
  (`client.py:115`) raises, so the model returns `Failure(MalformedBody)`.
- Only a false `choices` test (`client.py:118`) leads to the fallback. A
  `choices` value that has a length but cannot be indexed, or a first choice
  or `message` that is not a dictionary, raises; the model returns
  `Failure(UnexpectedShape)`.
- The fallback content is `str(data)` of the decoded value
  (`client.py:130`), not the body text; the model returns `render(data)`.

## Model

| member | source | states |
|---|---|---|
| Text.RStrip | infosci_spark_client/client.py:40 | `rstrip` with a character set returns a prefix of its input. Everything it removed is in the set, and the result does not end in a character of the set. |
| Text.RStripCharacterised | infosci_spark_client/client.py:40 | Those three properties determine the result of `rstrip`, so any string with them is that result. |
| Text.RStripIgnoresTrailing | infosci_spark_client/client.py:40 | Appending characters of the set before `rstrip` does not change the result. |
| Text.StripEmptyIffBlank | infosci_spark_client/client.py:165 | `s.strip()` is empty exactly when every character of `s` is whitespace, in both directions. |
| Text.StripKeepsFirst | infosci_spark_client/client.py:173 | A string that starts with a non-space character keeps that character first after `strip()`. |
| Text.StripPadded | infosci_spark_client/client.py:173 | `strip()` of a word padded on both sides with whitespace is the word, provided the word neither starts nor ends in whitespace. |
| Client.LLMClient.constructor | infosci_spark_client/client.py:31-41 | The key is kept. The stored base address is the argument with every trailing `/` removed, and no more. The endpoint is that address followed by `/api/chat`. |
| Client.LLMClient.Chat | infosci_spark_client/client.py:72-93 | No request is sent exactly when the reasoning level is not one of low, medium, high or absent, and then the call fails with `InvalidReasoningLevel`. Otherwise exactly one request goes to the endpoint. Its payload has exactly the keys `messages` and `stream`, plus `reasoning_level` when a level is given, each holding the argument. Its headers are exactly the bearer token and the JSON content type, and its stream flag is the argument. The answer is the buffered reply or the stream's results. |
| Client.LLMClient.NonStreamChat | infosci_spark_client/client.py:107-130 | It posts one non-streaming request with the given payload and headers to the endpoint, and the answer is exactly the buffered reply to the body received. |
| Client.LLMClient.StreamChat | infosci_spark_client/client.py:149-203 | It posts one streaming request to the endpoint, and the loop's results are exactly `StreamResults` of the lines received. |
| Client.ReadLine | infosci_spark_client/client.py:159-196 | The loop body's handling of line `i` is exactly step `i` of the stream. |
| Client.ExtractReply | infosci_spark_client/client.py:117-130 | With no choices the answer is the rendering of the body with empty reasoning. When Python would raise it is `UnexpectedShape`. With a first choice it is `message.content`, plus `message.reasoning_content` only when thinking is shown, or `UnexpectedShape` when `message` is not a dictionary. Reasoning is empty whenever thinking is not shown. |
| Client.BufferedReply | infosci_spark_client/client.py:115-130 | The reply is `MalformedBody` exactly when the body does not decode. Every failure is `MalformedBody` or `UnexpectedShape`. Reasoning is empty whenever thinking is not shown. A decoded dictionary without `choices`, or with an empty `choices` list, gives its rendering as content with empty reasoning. |
| Client.StreamResults | infosci_spark_client/client.py:158-196 | A stream yields at most one result per line. |
| ClientProperties.EndpointIgnoresTrailingSlashes | infosci_spark_client/client.py:40-41 | Extra trailing slashes on the base address leave the derived endpoint unchanged. |
| ClientProperties.ConstructedAlike | infosci_spark_client/client.py:31-93 | Two clients built from the same key, with base addresses that differ only in trailing slashes, send the same request and get the same answer for every call. |
| ClientProperties.FirstChoiceShape | infosci_spark_client/client.py:118-119 | A first choice is found exactly when `choices` is a non-empty list whose first entry is a dictionary, and that entry is what is used. A dictionary without `choices`, or with an empty list, has no choices. |
| ClientProperties.FrameOfCases | infosci_spark_client/client.py:159-174 | A line is ignored exactly when it is empty, starts with `:`, or strips to nothing. Otherwise an event carries the text after an exact `data: ` prefix, or the whole line, and never a text that trims to `[DONE]`. |
| ClientProperties.ChunkStepShape | infosci_spark_client/client.py:180-196 | A decoded event never stops the stream by itself. It yields a chunk exactly when the first choice and its `delta` are dictionaries. The chunk is `delta.content`, plus `delta.reasoning_content` when thinking is shown, and it ends the stream exactly when the choice's `finish_reason` is truthy. |
| ClientProperties.BufferedTakesFirstMessage | infosci_spark_client/client.py:118-127 | For a reply with one choice carrying a message, the answer is that message's content, with its reasoning exactly when thinking is shown. |
| ClientProperties.BufferedFallback | infosci_spark_client/client.py:129-130 | A dictionary without `choices`, or with an empty `choices` list, yields its rendering as content with empty reasoning. |
| ClientProperties.BlankAndCommentLinesSkipped | infosci_spark_client/client.py:159-166 | Empty lines, `:` comment lines and whitespace-only lines contribute nothing. |
| ClientProperties.DataPrefixRemoved | infosci_spark_client/client.py:169-177 | A `data: ` line is read as the text after the prefix. It ends the stream when that text trims to `[DONE]`, and is otherwise decoded as it stands. |
| ClientProperties.DoneLineStops | infosci_spark_client/client.py:169-174 | `[DONE]` padded with whitespace ends the stream, with or without the `data: ` prefix. |
| ClientProperties.UnusableEventSkipped | infosci_spark_client/client.py:176-203 | An event payload, with or without the `data: ` prefix, that does not decode, has no usable first choice, or whose `delta` is not a dictionary contributes nothing and does not end the stream. |
| ClientProperties.StreamAppend | infosci_spark_client/client.py:158-196 | Lines `a + b` yield what `a` yields, followed by what `b` yields unless a line of `a` ended the stream. Lines after the end are never examined. |
| ClientProperties.StreamCons | infosci_spark_client/client.py:158-196 | A stream is its first line's step applied to the results of the remaining lines. |
| ClientProperties.SkippedLineInert | infosci_spark_client/client.py:198-203 | Removing a line that contributes nothing leaves the results unchanged. |
| ClientProperties.DoneEndsStream | infosci_spark_client/client.py:173-174 | A `[DONE]` line yields nothing, and nothing after it is yielded. |
| ClientProperties.FinishReasonEndsStream | infosci_spark_client/client.py:189-196 | A chunk with a truthy finish reason is yielded (unless the stream already ended) and is the last result. |
| ClientProperties.StreamHidesReasoning | infosci_spark_client/client.py:186 | Without `show_thinking` every streamed result has empty reasoning. |
| ClientProperties.ReasoningHiddenInBothModes | infosci_spark_client/client.py:122-186 | Without `show_thinking` the reasoning is empty in the buffered answer and in every streamed result. |
| ClientProperties.TwoChunksThenFinish | infosci_spark_client/client.py:169-196 | Two `data: ` chunks with content "a" and "b", the second with finish reason "stop", yield exactly those two results, whatever follows. |
| ClientProperties.EmitThenFinish | infosci_spark_client/client.py:189-196 | A chunk that continues, followed by a chunk that finishes, yields exactly those two results. |
| ClientProperties.PlainChunk | infosci_spark_client/client.py:169-192 | A `data: ` line whose only choice has a delta with content alone yields that content, with empty reasoning. It finishes exactly when the choice's finish reason is truthy. |
| ClientProperties.ChunkOfChoice | infosci_spark_client/client.py:180-192 | The same as `PlainChunk`, for the decoded event. |

## Left out

- HTTP transport: `requests.post` is the `post` / `postStream` function of the `Environment`. `raise_for_status` and connection failures are not modelled, because the transport is not part of this model.
- Request bodies: the JSON encoding of the payload and the headers is not modelled. The model keeps the payload and headers as maps.
- `json.loads`, `response.json()` and `str()` of a decoded value are the `parse` and `render` parameters. The real decoder is not part of this model, and NaN or infinite numbers are not representable in `Json`.
- `Json` objects are unordered maps and numbers are reals, so the model merges values Python keeps apart: dictionaries that differ only in key order, and `1` against `1.0`. `render` therefore gives both members of such a pair the same text, where `str(data)` in the fallback (`client.py:130`) prints them differently.
- UTF-8: `line.decode('utf-8')` is not modelled, because lines are given as strings. An empty byte line is the empty string.
- Laziness: `_stream_chat` is a generator, so the request is sent only when iteration starts, results reach the caller one at a time, and the connection is released when the generator ends. The model posts at once and returns all results as one sequence.
- Exceptions: the distinct Python exceptions of malformed replies (`TypeError`, `KeyError`, `AttributeError`) are merged into `UnexpectedShape`. The message text of the `ValueError` is not modelled; `InvalidReasoningLevel` only carries the rejected level.
- Messages: the message list is passed through untouched (`Message` with role and content). Messages with other keys are not modelled.
- Client.StreamResults: states only the bound of one result per line. Its meaning is given by `StreamAppend`, `StreamCons` and the other stream lemmas.
- `setup.py` and the package `__init__.py` hold only packaging and re-exports, so they are not part of this model.
