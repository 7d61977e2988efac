# model-sse-proxy in Dafny

A verified model of the core of model-sse-proxy. This Go gateway accepts chat-completion requests in
the OpenAI shape and forwards them to a private backend. It then relays the backend's answer back
in the OpenAI envelope, as one buffered JSON reply or as a server-sent event stream.

- `wrappers.dfy`: module `Wrappers`, with `Option` and `Result`.
- `models.dfy`: module `Models`, the request translation of `models.go`.
  - A message's raw `content` is a string, an array of items, or anything else.
  - Each array item is a JSON object or some other value. An object is seen through its `type`,
    `text` and `image_url.url` fields, each present only when it holds a string.
  - The model resolves the backend service name through the model map.
  - It detects an `"input_image"` item, which selects the multimodal request shape.
  - It normalises every message into an ordered list of content items.
  - The code is written as the source's loops (methods `DetectImage`, `ConvertContent`,
    `ConvertMessages`, `ConvertToTextRequest`, `ConvertToMultiModalRequest` and
    `ConvertOpenAIToPrivateAPI`). Each is proved equal to a specification function (`HasImage`,
    `ContentOf`, `MessagesOf`, `BuildRequest`, `Translate`), and the lemmas state what those
    functions guarantee.
- `relay.dfy`: module `Relay`, the response relay inside `openAIProxyHandler` in `main.go`.
  - `ScanLines` models the line scanner.
  - `RelayStream` is the streaming loop, proved to relay exactly the decodable data frames, one
    event each, in order.
  - Buffered mode is modelled by `BufferedOutcome`, with its usage synthesis (`Split`,
    `BufferedUsage`).
  - `RelayResponse` joins these behind the status pass-through.
  - JSON decoding and encoding are the parameters `parse` and `encode`. The uuid and the clock
    value are the parameters `sessionId` and `created`.

Four points where the Go code behaves differently from what a reader might expect; the model follows
the code:
- Image detection looks at the raw item `type` being the string `"input_image"`. It runs before
  normalisation. An image item needs no URL, and its `type` is copied verbatim.
- An object element without a string `type` makes the Go code panic. The model turns this into
  the error `UntypedItem`, raised at the first such element in order.
- Completion tokens are the pieces of a split on single spaces, not on whitespace. Two adjacent
  spaces count an empty piece, and the empty text counts 1.
- Stream chunks carry an all-zero `usage` block; it is not omitted.

## Model

| member | source | states |
|---|---|---|
| `Models.ConvertOpenAIToPrivateAPI` | models.go:120-160 | the result is `Translate`: service name resolved through the model map, shape chosen by image detection, then the chosen conversion |
| `Models.DetectImage` | models.go:134-152 | the flag is true iff some message has array content with an object item whose `type` is the string "input_image"; string content never counts |
| `Models.ConvertContent` | models.go:172-201 | string content gives one "text" item; array content is converted item by item; any other content is `UnsupportedContent` |
| `Models.ConvertMessages` | models.go:168-208 | the message loop equals `MessagesOf`: one backend message per input message, in order, and the first failing content aborts with its error |
| `Models.ConvertToTextRequest` | models.go:162-217 | empty message list is `EmptyMessages`; otherwise the text request with configured credentials, the given service name, the converted messages and `stream` copied |
| `Models.ConvertToMultiModalRequest` | models.go:219-274 | same as the text request but in the multimodal shape |
| `Models.ItemsOf` | models.go:183-197 | an array yields at most one item per element, and its only failure is `UntypedItem` |
| `Models.MessagesOf` | models.go:169-208 | a successful conversion has exactly as many messages as the input |
| `Models.ItemsOfConcat` | models.go:183-197 | converting `a + b` is converting `a` then `b` and concatenating, so items keep array order and elements are independent |
| `Models.ItemsOfSingle` | models.go:184-196 | a one-element array converts to exactly what its element contributes |
| `Models.NonMapSkipped` | models.go:184 | a non-object element leaves no trace: `a + [NonMap] + b` converts like `a + b` |
| `Models.ItemsOfSucceeds` | models.go:185-187 | an array converts iff every object element has a string `type` |
| `Models.ItemsOfObjects` | models.go:185-196 | for typed objects: one item per element, in order, `type` copied, `text` copied only when a string (else empty), image URL set only when `image_url.url` is a string |
| `Models.StringMatchesTextItem` | models.go:175-180 | a string content is one "text" item holding the string, identical to the array `[{"type":"text","text":s}]` |
| `Models.MessagesOfConcat` | models.go:169-208 | the message list converts part by part; an error in the earlier part wins |
| `Models.MessagesOfSpec` | models.go:203-207 | the messages convert iff every content does; message k then has input k's role and the items of its content |
| `Models.MessagesOfFirstError` | models.go:199-200 | the first message whose content fails decides the error of the whole list |
| `Models.TranslateEmpty` | models.go:163-166 | an empty message list is `EmptyMessages` for the translation and for both shapes |
| `Models.TranslateEnvelope` | models.go:126-159 | on success: credentials from the configuration, `stream` copied, multimodal iff an image item is present, service name `ModelMap[model]` when the map exists and has the key, else the model verbatim |
| `Models.TranslateMessages` | models.go:169-216 | the translation succeeds iff the message list is non-empty and every content converts; same message count, same roles in the same order, each content normalised |
| `Models.TranslateUnsupported` | models.go:199-200 | content that is neither string nor array aborts the whole translation with `UnsupportedContent` when every earlier message converts, with no partial request |
| `Relay.ScanLines` | main.go:141-149 | no line the scanner yields contains a newline |
| `Relay.ScanLinesRoundTrip` | main.go:141-149 | without carriage returns, a newline-terminated body is exactly its lines each followed by a newline |
| `Relay.Frames` | main.go:148-163 | a stream has no more frames than lines |
| `Relay.RelayStream` | main.go:141-192 | one event `data: <json>\n\n` per decodable data frame, in backend order, each the chunk of that frame's text under the shared session id and timestamp; the accumulator is the frames' texts concatenated in order |
| `Relay.FramesConcat` | main.go:148-192 | the frames of `a + b` are the frames of `a` followed by those of `b` |
| `Relay.SkippedLine` | main.go:150-160 | an empty line, a line without `data:`, or a frame that fails to decode yields nothing, and later lines are relayed as if it were absent |
| `Relay.RelayedLine` | main.go:154-163 | a decodable data line yields exactly its frame, between the frames of the lines around it |
| `Relay.NonDataStreamIsSilent` | main.go:150-154 | a stream of only empty and non-data lines produces no event |
| `Relay.MalformedFrameTolerated` | main.go:157-160 | good, malformed, good gives exactly two events, the good frames' chunks in order |
| `Relay.StreamPrefix` | main.go:148-201 | a stream cut at a line boundary (including the scanner's token limit) relays a prefix of the frames of the whole stream |
| `Relay.ScanLinesConcat` | main.go:141-149 | once a part of the body ends at a newline, the lines of the rest follow that part's lines unchanged |
| `Relay.StreamCut` | main.go:141-163 | a body cut anywhere: the completed lines relay a prefix of the whole body's frames, and the cut-off last line adds at most the one frame it decodes to on its own |
| `Relay.TruncatedLineAddsFrame` | main.go:148-160 | that extra frame can be new: a data line whose payload decodes only without its tail relays nothing whole, yet relays a frame when cut before the tail |
| `Relay.StreamChunkShape` | main.go:165-181 | every chunk has the session id, timestamp, "chat.completion.chunk", "deepseek-chat", the fixed fingerprint, one choice at index 0 with the frame text as delta and nil finish reason; chunks differ only by their text |
| `Relay.Split` | main.go:227 | at least one piece, and no piece contains a space |
| `Relay.SplitJoin` | main.go:227 | joining the pieces with single spaces gives back the text |
| `Relay.SplitCount` | main.go:227 | the number of pieces is the number of spaces plus one |
| `Relay.BufferedUsageSpec` | main.go:226-228 | completion tokens are the spaces plus one, prompt tokens 13, total their sum, cached and hit tokens 0, cache-miss tokens equal the prompt tokens |
| `Relay.CompletionTokenExamples` | main.go:227 | the empty text counts 1 token, "a b" 2, "a  b" 3 |
| `Relay.BufferedOutcomeSpec` | main.go:206-255 | an unreadable or undecodable body is a 500; otherwise a 200 reply with one choice at index 0, role "assistant", the backend text verbatim, finish reason "stop", and exactly the synthesised usage `BufferedUsage` of that text |
| `Relay.RelayResponse` | main.go:126-204 | a non-200 backend status is passed to the caller with the backend body; status 200 relays the stream or the buffered reply as above |

## Left out

- Configuration loading (`config.go`) is left out, including the default file, the `sync.Once`
  singleton and the target URL. The translator takes an immutable `Config` value instead.
- HTTP plumbing in `main.go` is left out: CORS headers, the OPTIONS and method checks, reading and
  decoding the caller's body, and building and sending the outbound request (main.go:43-123).
  Flushes, log-file setup and `ListenAndServe` are left out too.
  - Translation errors becoming a 400, and request serialisation errors becoming a 500
    (main.go:81-94), are plumbing around `ConvertOpenAIToPrivateAPI`. Only the translation's
    result is modelled.
- JSON is not modelled. Decoding is the parameter `parse` and encoding is the parameter `encode`.
  - `encode` is total, so the marshal-failure `continue` (main.go:183-187) and the encoder failure
    after a buffered 200 (main.go:258-262) are not modelled. Marshalling these records of strings
    and integers does not fail.
  - How an empty content-item list serialises (a nil Go slice becomes `null`) is a serialisation
    detail that is not modelled.
- The uuid and the clock are the parameters `sessionId` and `created`. `RelayResponse` uses
  `sessionId` as the buffered reply's id as well.
- The line scanner's 64 KiB token limit is not modelled. A line that long ends the stream at a line
  boundary, which `StreamPrefix` covers.
- A read error or an early close in the middle of a line is modelled only through `StreamCut`. It
  relays the completed lines' frames, then the cut-off line as a line of its own. Such a stream is
  not promised to relay a prefix of the whole body's frames (`TruncatedLineAddsFrame`).
- Logging is left out everywhere, including the final log of the accumulated text. The
  accumulator is returned as `fullResponse` so that it can be stated.
- The text of a non-200 pass-through, "目标返回状态 <status>: <body>", is represented by the
  constructor `Upstream(status, body)` and is not rendered.
- The nil-request check (models.go:122-124) is not modelled. The handler always passes the address
  of a decoded request.
- The Go runtime panic on an object item without a string `type` (models.go:186, models.go:243) is
  modelled as the error `UntypedItem`, not as a panic.
- Integers are unbounded. The Go `int` token counts and the `int64` timestamp cannot overflow for
  any reply text that fits in memory.
