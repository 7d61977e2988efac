/** Response relay: how the gateway turns the backend's answer into the caller's chat-completion
    envelope, either one buffered JSON reply with synthesised token usage, or an event stream in
    which every backend data frame becomes one chunk. JSON decoding and encoding are parameters
    (`parse`, `encode`); the session id and the creation time are parameters too. */
module Relay {
  import opened Wrappers

  const StatusOK: int := 200
  const StatusInternalServerError: int := 500

  /** The prefix that marks a backend line as a data frame. */
  const DataPrefix: string := "data:"

  const ChunkObject: string := "chat.completion.chunk"
  const CompletionObject: string := "chat.completion"
  const ModelLabel: string := "deepseek-chat"
  const Fingerprint: string := "fp_8802369eaa_prod0425fp8"
  const AssistantRole: string := "assistant"
  const StopReason: string := "stop"

  /** The fixed prompt-token figure of buffered replies; the input is never tokenised. */
  const PromptTokens: int := 13

  /** Plain-text bodies of the gateway's own 500 responses. */
  const InternalErrorText: string := "内部服务器错误"
  const ParseErrorText: string := "解析响应失败"

  /** One backend reply or stream frame (its opaque `data` member is never read). */
  datatype PrivateResponse = PrivateResponse(
    success: bool, code: int,
    errorMessage: Option<string>, errorDetail: Option<string>,
    requestId: Option<string>, responseId: Option<string>,
    responseMessage: string)

  datatype Message = Message(role: string, content: string)

  datatype Delta = Delta(content: string)

  datatype Choice = Choice(index: int, message: Message, delta: Delta,
                           logProbs: Option<string>, finishReason: Option<string>)

  datatype PromptTokensDetails = PromptTokensDetails(cachedTokens: int)

  datatype Usage = Usage(promptTokens: int, completionTokens: int, totalTokens: int,
                         promptTokensDetails: PromptTokensDetails,
                         promptCacheHitTokens: int, promptCacheMissTokens: int)

  /** The caller-facing envelope, shared by stream chunks and buffered replies. */
  datatype OpenAIResponse = OpenAIResponse(
    id: string, objectKind: string, created: int, model: string, systemFingerprint: string,
    choices: seq<Choice>, usage: Usage)

  /** What the backend answered: its status, the body bytes that arrived, and whether reading
      the body ended in a transport error. */
  datatype BackendReply = BackendReply(status: int, body: string, readFailed: bool)

  /** What the caller receives once the backend has answered. `Upstream` is a plain-text error
      with the backend's own status whose text is "目标返回状态 <status>: <body>". */
  datatype CallerResponse =
    | Upstream(status: int, body: string)
    | PlainError(status: int, text: string)
    | JsonReply(status: int, reply: OpenAIResponse)
    | EventStream(events: seq<string>)

  // ---------------------------------------------------------------------------------------------
  // Reading the backend stream line by line
  // ---------------------------------------------------------------------------------------------

  function DropCR(s: string): string
  {
    if |s| > 0 && s[|s| - 1] == '\r' then s[..|s| - 1] else s
  }

  /** The position of the first newline, or the length when there is none. */
  function NewlineIndex(s: string): (i: nat)
    ensures i <= |s|
    ensures i < |s| ==> s[i] == '\n'
    ensures forall k :: 0 <= k < i ==> s[k] != '\n'
    decreases |s|
  {
    if s == [] || s[0] == '\n' then 0 else 1 + NewlineIndex(s[1..])
  }

  /** The lines a line scanner yields: the body cut at each newline, one trailing carriage return
      dropped from each line, a final line without newline kept when it is not empty. */
  function ScanLines(body: string): (lines: seq<string>)
    ensures forall k :: 0 <= k < |lines| ==> '\n' !in lines[k]
    decreases |body|
  {
    if body == [] then []
    else
      var i := NewlineIndex(body);
      if i == |body| then [DropCR(body)]
      else [DropCR(body[..i])] + ScanLines(body[i + 1..])
  }

  /** Each line followed by a newline. */
  function NewlineTerminated(lines: seq<string>): string
  {
    if lines == [] then "" else lines[0] + "\n" + NewlineTerminated(lines[1..])
  }

  /** Without carriage returns, a body whose last line is terminated is exactly its lines put back
      together: the scanner loses and invents nothing. */
  lemma {:induction false} ScanLinesRoundTrip(body: string)
    requires '\r' !in body
    requires body != [] ==> body[|body| - 1] == '\n'
    ensures NewlineTerminated(ScanLines(body)) == body
    decreases |body|
  {
    if body != [] {
      var i := NewlineIndex(body);
      assert i < |body|;
      var line, rest := body[..i], body[i + 1..];
      assert body == line + "\n" + rest by {
        assert body[i] == '\n';
      }
      assert ScanLines(body) == [line] + ScanLines(rest) by {
        assert '\r' !in line;
        assert DropCR(line) == line;
      }
      assert NewlineTerminated(ScanLines(rest)) == rest by {
        assert '\r' !in rest;
        assert rest != [] ==> rest[|rest| - 1] == '\n';
        ScanLinesRoundTrip(rest);
      }
      assert NewlineTerminated([line] + ScanLines(rest)) == line + "\n" + NewlineTerminated(ScanLines(rest)) by {
        assert ([line] + ScanLines(rest))[1..] == ScanLines(rest);
      }
    }
  }

  /** The scanner reads a body line by line: once a part of the body ends at a newline, the lines
      of the rest follow the lines of that part unchanged. */
  lemma {:induction false} ScanLinesConcat(p: string, s: string)
    requires p == [] || p[|p| - 1] == '\n'
    ensures ScanLines(p + s) == ScanLines(p) + ScanLines(s)
    decreases |p|
  {
    if p != [] {
      var i := NewlineIndex(p);
      assert i < |p|;
      assert NewlineIndex(p + s) == i by {
        assert (p + s)[i] == '\n';
      }
      var rest := p[i + 1..];
      assert (p + s)[..i] == p[..i];
      assert (p + s)[i + 1..] == rest + s;
      assert rest == [] || rest[|rest| - 1] == '\n';
      ScanLinesConcat(rest, s);
      assert ScanLines(p + s) == [DropCR(p[..i])] + (ScanLines(rest) + ScanLines(s));
      assert ScanLines(p) == [DropCR(p[..i])] + ScanLines(rest);
    } else {
      assert p + s == s;
    }
  }

  // ---------------------------------------------------------------------------------------------
  // Streaming mode
  // ---------------------------------------------------------------------------------------------

  predicate StartsWith(s: string, prefix: string)
  {
    |prefix| <= |s| && s[..|prefix|] == prefix
  }

  /** The text a backend line hands to the JSON decoder, or None when the line is skipped without
      decoding: an empty line, or one without the data prefix. */
  function Payload(line: string): Option<string>
  {
    if line == "" then None
    else if StartsWith(line, DataPrefix) then Some(line[|DataPrefix|..])
    else None
  }

  /** The frame a line carries, or None when the line is skipped or its payload fails to decode. */
  function FrameOf(line: string, parse: string -> Option<PrivateResponse>): Option<PrivateResponse>
  {
    match Payload(line)
    case None => None
    case Some(payload) => parse(payload)
  }

  /** The frames of a stream, in arrival order. */
  function Frames(lines: seq<string>, parse: string -> Option<PrivateResponse>): (frames: seq<PrivateResponse>)
    ensures |frames| <= |lines|
    decreases |lines|
  {
    if lines == [] then []
    else
      var init := Frames(lines[..|lines| - 1], parse);
      match FrameOf(lines[|lines| - 1], parse)
      case None => init
      case Some(frame) => init + [frame]
  }

  /** The concatenated response text of the frames, in order. */
  function Accumulated(frames: seq<PrivateResponse>): string
    decreases |frames|
  {
    if frames == [] then "" else Accumulated(frames[..|frames| - 1]) + frames[|frames| - 1].responseMessage
  }

  const NoUsage: Usage := Usage(0, 0, 0, PromptTokensDetails(0), 0, 0)

  /** The caller chunk for one frame's text. */
  function StreamChunk(sessionId: string, created: int, content: string): OpenAIResponse
  {
    OpenAIResponse(sessionId, ChunkObject, created, ModelLabel, Fingerprint,
                   [Choice(0, Message("", ""), Delta(content), None, None)], NoUsage)
  }

  /** One server-sent event carrying an encoded chunk. */
  function SseEvent(json: string): string
  {
    "data: " + json + "\n\n"
  }

  /** The events relay the stream's frames one for one, in order, each as the chunk of that
      frame's text under the one session id and creation time. */
  predicate RelaysFrames(events: seq<string>, lines: seq<string>, parse: string -> Option<PrivateResponse>,
                         encode: OpenAIResponse -> string, sessionId: string, created: int)
  {
    var frames := Frames(lines, parse);
    && |events| == |frames|
    && forall k :: 0 <= k < |events| ==>
         events[k] == SseEvent(encode(StreamChunk(sessionId, created, frames[k].responseMessage)))
  }

  /** The streaming loop: skips empty and non-data lines and frames that fail to decode, writes
      one event per decoded frame and accumulates the frames' text. */
  method RelayStream(lines: seq<string>, parse: string -> Option<PrivateResponse>,
                     encode: OpenAIResponse -> string, sessionId: string, created: int)
    returns (events: seq<string>, fullResponse: string)
    ensures RelaysFrames(events, lines, parse, encode, sessionId, created)
    ensures fullResponse == Accumulated(Frames(lines, parse))
  {
    events := [];
    fullResponse := "";
    var i := 0;
    while i < |lines|
      invariant 0 <= i <= |lines|
      invariant RelaysFrames(events, lines[..i], parse, encode, sessionId, created)
      invariant fullResponse == Accumulated(Frames(lines[..i], parse))
    {
      var line := lines[i];
      assert lines[..i + 1][..i] == lines[..i];
      assert Frames(lines[..i + 1], parse) ==
        match FrameOf(line, parse)
        case None => Frames(lines[..i], parse)
        case Some(frame) => Frames(lines[..i], parse) + [frame];
      if line == "" {
        i := i + 1;
        continue;
      }
      if StartsWith(line, DataPrefix) {
        var jsonData := line[|DataPrefix|..];
        var privateResp := parse(jsonData);
        if privateResp.None? {
          i := i + 1;
          continue;
        }
        fullResponse := fullResponse + privateResp.value.responseMessage;
        var openAIResp := StreamChunk(sessionId, created, privateResp.value.responseMessage);
        events := events + [SseEvent(encode(openAIResp))];
      }
      i := i + 1;
    }
    assert lines[..i] == lines;
  }

  /** Relaying a stream is relaying its parts: frames keep their order and no line affects
      another line's frame. */
  lemma {:induction false} FramesConcat(a: seq<string>, b: seq<string>, parse: string -> Option<PrivateResponse>)
    ensures Frames(a + b, parse) == Frames(a, parse) + Frames(b, parse)
    decreases |b|
  {
    if b == [] {
      assert a + b == a;
    } else {
      var init := b[..|b| - 1];
      FramesConcat(a, init, parse);
      assert (a + b)[..|a + b| - 1] == a + init;
      assert (a + b)[|a + b| - 1] == b[|b| - 1];
    }
  }

  /** A line that is empty, lacks the data prefix, or fails to decode produces nothing, and the
      lines after it are relayed as if it had never arrived. */
  lemma SkippedLine(a: seq<string>, line: string, b: seq<string>, parse: string -> Option<PrivateResponse>)
    requires line == "" || !StartsWith(line, DataPrefix) || parse(line[|DataPrefix|..]).None?
    ensures FrameOf(line, parse).None?
    ensures Frames(a + [line] + b, parse) == Frames(a + b, parse)
  {
    assert [line][..0] == [];
    FramesConcat(a, [line], parse);
    FramesConcat(a + [line], b, parse);
    FramesConcat(a, b, parse);
  }

  /** A data line that decodes yields exactly its frame, between those of the lines around it. */
  lemma RelayedLine(a: seq<string>, line: string, b: seq<string>, parse: string -> Option<PrivateResponse>)
    requires line != "" && StartsWith(line, DataPrefix) && parse(line[|DataPrefix|..]).Some?
    ensures Frames(a + [line] + b, parse) == Frames(a, parse) + [parse(line[|DataPrefix|..]).value] + Frames(b, parse)
  {
    assert [line][..0] == [];
    FramesConcat(a, [line], parse);
    FramesConcat(a + [line], b, parse);
  }

  /** A stream of only empty and non-data lines relays nothing. */
  lemma {:induction false} NonDataStreamIsSilent(lines: seq<string>, parse: string -> Option<PrivateResponse>)
    requires forall k :: 0 <= k < |lines| ==> lines[k] == "" || !StartsWith(lines[k], DataPrefix)
    ensures Frames(lines, parse) == []
    decreases |lines|
  {
    if lines != [] {
      var init := lines[..|lines| - 1];
      assert forall k :: 0 <= k < |init| ==> init[k] == lines[k];
      NonDataStreamIsSilent(init, parse);
    }
  }

  /** Two good frames around a malformed one give exactly two events, the good frames' in order. */
  lemma MalformedFrameTolerated(good1: string, bad: string, good2: string, parse: string -> Option<PrivateResponse>,
                                encode: OpenAIResponse -> string, sessionId: string, created: int,
                                events: seq<string>)
    requires FrameOf(good1, parse).Some? && FrameOf(bad, parse).None? && FrameOf(good2, parse).Some?
    requires RelaysFrames(events, [good1, bad, good2], parse, encode, sessionId, created)
    ensures |events| == 2
    ensures events[0] == SseEvent(encode(StreamChunk(sessionId, created, FrameOf(good1, parse).value.responseMessage)))
    ensures events[1] == SseEvent(encode(StreamChunk(sessionId, created, FrameOf(good2, parse).value.responseMessage)))
  {
    var f1, f2 := FrameOf(good1, parse).value, FrameOf(good2, parse).value;
    assert [good1][..0] == [];
    assert Frames([good1], parse) == [f1];
    assert [good1, bad][..1] == [good1];
    assert Frames([good1, bad], parse) == [f1];
    assert [good1, bad, good2][..2] == [good1, bad];
    assert Frames([good1, bad, good2], parse) == [f1, f2];
  }

  /** A stream cut at a line boundary relays a prefix of what the whole stream would have
      relayed, and nothing else. */
  lemma StreamPrefix(lines: seq<string>, n: nat, parse: string -> Option<PrivateResponse>)
    requires n <= |lines|
    ensures Frames(lines[..n], parse) <= Frames(lines, parse)
  {
    var head, tail := lines[..n], lines[n..];
    assert head + tail == lines;
    FramesConcat(head, tail, parse);
    var early, late := Frames(head, parse), Frames(tail, parse);
    assert Frames(lines, parse) == early + late;
    assert (early + late)[..|early|] == early;
  }

  /** A line without a newline scans as itself, minus a trailing carriage return, or as nothing
      when it is empty. */
  lemma ScanLinesPartial(partial: string)
    requires '\n' !in partial
    ensures ScanLines(partial) == (if partial == [] then [] else [DropCR(partial)])
  {
    if partial != [] {
      assert NewlineIndex(partial) == |partial|;
    }
  }

  /** A body that arrives only up to a cut, as `done + partial` where `done` holds the completed
      lines and `partial` the cut-off start of the next one, while the whole body would have been
      `done + partial + rest` (the backend closes or a read fails mid-stream). The completed lines
      relay a prefix of what the whole body would have relayed, and the cut-off line adds at most
      the one frame it decodes to on its own: it is handed to the loop as a line of its own, so
      that frame need not be one of the whole body's. */
  lemma StreamCut(done: string, partial: string, rest: string, parse: string -> Option<PrivateResponse>)
    requires done == [] || done[|done| - 1] == '\n'
    requires '\n' !in partial
    ensures Frames(ScanLines(done), parse) <= Frames(ScanLines(done + partial + rest), parse)
    ensures Frames(ScanLines(done + partial), parse) ==
      Frames(ScanLines(done), parse) + (if partial == [] then [] else Frames([DropCR(partial)], parse))
  {
    var early := ScanLines(done);
    assert Frames(early, parse) <= Frames(ScanLines(done + partial + rest), parse) by {
      var whole := ScanLines(done + partial + rest);
      assert whole == early + ScanLines(partial + rest) by {
        assert done + partial + rest == done + (partial + rest);
        ScanLinesConcat(done, partial + rest);
      }
      assert whole[..|early|] == early;
      StreamPrefix(whole, |early|, parse);
    }
    ScanLinesConcat(done, partial);
    ScanLinesPartial(partial);
    FramesConcat(early, ScanLines(partial), parse);
  }

  /** A cut can add a frame the whole body lacks: when the decoder accepts a payload but rejects
      it with more text after it, the data line holding the longer payload relays nothing, while
      the same body cut right after the shorter payload relays its frame. */
  lemma TruncatedLineAddsFrame(payload: string, extra: string, parse: string -> Option<PrivateResponse>)
    requires '\n' !in payload + extra && '\r' !in payload + extra
    requires parse(payload).Some? && parse(payload + extra).None?
    ensures Frames(ScanLines(DataPrefix + payload + extra + "\n"), parse) == []
    ensures Frames(ScanLines(DataPrefix + payload), parse) == [parse(payload).value]
  {
    var cut, line := DataPrefix + payload, DataPrefix + payload + extra;
    assert '\n' !in cut && '\n' !in line by {
      assert cut == DataPrefix + payload && line == DataPrefix + (payload + extra);
    }
    assert DropCR(cut) == cut && DropCR(line) == line by {
      assert cut[|cut| - 1] != '\r' && line[|line| - 1] != '\r';
    }
    assert Payload(cut) == Some(payload) by {
      assert cut[..|DataPrefix|] == DataPrefix && cut[|DataPrefix|..] == payload;
    }
    assert Payload(line) == Some(payload + extra) by {
      assert line[..|DataPrefix|] == DataPrefix && line[|DataPrefix|..] == payload + extra;
    }
    ScanLinesPartial(cut);
    assert Frames([cut], parse) == [parse(payload).value] by {
      assert [cut][..0] == [];
    }
    assert ScanLines(line + "\n") == [line] by {
      var body := line + "\n";
      assert NewlineIndex(body) == |line| by {
        assert body[|line|] == '\n';
        assert forall k :: 0 <= k < |line| ==> body[k] == line[k];
      }
      assert body[..|line|] == line && body[|line| + 1..] == [];
    }
    assert Frames([line], parse) == [] by {
      assert [line][..0] == [];
    }
  }

  /** Every chunk of one stream carries the session id, creation time, object kind, model label
      and fingerprint, and one choice at index 0 whose delta is the frame's text, with no finish
      reason and no log probabilities; the text is the only thing that tells two chunks apart. */
  lemma StreamChunkShape(sessionId: string, created: int, content: string, other: string)
    ensures var c := StreamChunk(sessionId, created, content);
      && c.id == sessionId && c.created == created
      && c.objectKind == ChunkObject && c.model == ModelLabel && c.systemFingerprint == Fingerprint
      && |c.choices| == 1 && c.choices[0].index == 0
      && c.choices[0].delta.content == content
      && c.choices[0].finishReason.None? && c.choices[0].logProbs.None?
    ensures StreamChunk(sessionId, created, content) == StreamChunk(sessionId, created, other) <==> content == other
  {
  }

  // ---------------------------------------------------------------------------------------------
  // Buffered mode
  // ---------------------------------------------------------------------------------------------

  /** The pieces of a string between single spaces, empty pieces included. */
  function Split(s: string): (parts: seq<string>)
    ensures |parts| >= 1
    ensures forall k :: 0 <= k < |parts| ==> ' ' !in parts[k]
    decreases |s|
  {
    if s == [] then [""]
    else
      var rest := Split(s[1..]);
      if s[0] == ' ' then [""] + rest else [[s[0]] + rest[0]] + rest[1..]
  }

  /** Pieces put back together with a single space between neighbours. */
  function Join(parts: seq<string>): string
    decreases |parts|
  {
    if parts == [] then "" else if |parts| == 1 then parts[0] else parts[0] + " " + Join(parts[1..])
  }

  lemma {:induction false} SplitJoin(s: string)
    ensures Join(Split(s)) == s
    decreases |s|
  {
    if s != [] {
      var rest := Split(s[1..]);
      SplitJoin(s[1..]);
      if s[0] == ' ' {
        assert ([""] + rest)[1..] == rest;
        assert s == [s[0]] + s[1..];
      } else {
        var parts := [[s[0]] + rest[0]] + rest[1..];
        if |rest| == 1 {
          assert s == [s[0]] + rest[0];
        } else {
          assert parts[1..] == rest[1..];
          assert Join(rest) == rest[0] + " " + Join(rest[1..]);
          assert s == [s[0]] + s[1..];
        }
      }
    }
  }

  /** The number of pieces is the number of spaces plus one. */
  lemma {:induction false} SplitCount(s: string)
    ensures |Split(s)| == multiset(s)[' '] + 1
    decreases |s|
  {
    if s != [] {
      SplitCount(s[1..]);
      assert s == [s[0]] + s[1..];
      assert multiset(s) == multiset([s[0]]) + multiset(s[1..]);
    }
  }

  /** The completion-token estimate of a buffered reply: the number of pieces of its text. */
  function CompletionTokens(message: string): int
  {
    |Split(message)|
  }

  function BufferedUsage(message: string): Usage
  {
    var completion := CompletionTokens(message);
    Usage(PromptTokens, completion, PromptTokens + completion, PromptTokensDetails(0), 0, PromptTokens)
  }

  function BufferedReply(reply: PrivateResponse, replyId: string, created: int): OpenAIResponse
  {
    OpenAIResponse(replyId, CompletionObject, created, ModelLabel, Fingerprint,
                   [Choice(0, Message(AssistantRole, reply.responseMessage), Delta(""), None, Some(StopReason))],
                   BufferedUsage(reply.responseMessage))
  }

  /** The usage block counts one completion token more than the text has single spaces (so the
      empty text counts one), a fixed 13 prompt tokens, all of them cache misses, and their sum. */
  lemma BufferedUsageSpec(message: string)
    ensures var u := BufferedUsage(message);
      && u.completionTokens == multiset(message)[' '] + 1
      && u.promptTokens == 13
      && u.totalTokens == u.promptTokens + u.completionTokens
      && u.promptTokensDetails.cachedTokens == 0
      && u.promptCacheHitTokens == 0
      && u.promptCacheMissTokens == u.promptTokens
  {
    SplitCount(message);
  }

  /** Pinned cases: the empty text is one token; a run of two spaces counts an empty piece. */
  lemma CompletionTokenExamples()
    ensures CompletionTokens("") == 1
    ensures CompletionTokens("a b") == 2
    ensures CompletionTokens("a  b") == 3
  {
  }

  /** Buffered mode once the backend has answered 200: a body that cannot be read or decoded is a
      500, anything else becomes one reply. */
  function BufferedOutcome(backend: BackendReply, parse: string -> Option<PrivateResponse>,
                           replyId: string, created: int): CallerResponse
  {
    if backend.readFailed then PlainError(StatusInternalServerError, InternalErrorText)
    else
      match parse(backend.body)
      case None => PlainError(StatusInternalServerError, ParseErrorText)
      case Some(reply) => JsonReply(StatusOK, BufferedReply(reply, replyId, created))
  }

  /** The buffered reply has one choice at index 0: the assistant's message holding the backend's
      text verbatim, finish reason "stop"; its usage is the synthesised one. An unreadable or
      undecodable body is a 500 and never a reply. */
  lemma BufferedOutcomeSpec(backend: BackendReply, parse: string -> Option<PrivateResponse>,
                            replyId: string, created: int)
    ensures var r := BufferedOutcome(backend, parse, replyId, created);
      && (r.JsonReply? <==> !backend.readFailed && parse(backend.body).Some?)
      && (!r.JsonReply? ==> r.PlainError? && r.status == StatusInternalServerError)
      && (r.JsonReply? ==>
            var msg := parse(backend.body).value.responseMessage;
            && r.status == StatusOK
            && r.reply.id == replyId && r.reply.created == created
            && r.reply.objectKind == CompletionObject
            && r.reply.model == ModelLabel && r.reply.systemFingerprint == Fingerprint
            && |r.reply.choices| == 1
            && r.reply.choices[0].index == 0
            && r.reply.choices[0].message == Message(AssistantRole, msg)
            && r.reply.choices[0].finishReason == Some(StopReason)
            && r.reply.usage.completionTokens == multiset(msg)[' '] + 1
            && r.reply.usage.totalTokens == PromptTokens + r.reply.usage.completionTokens
            && r.reply.usage == BufferedUsage(msg))
  {
    if !backend.readFailed && parse(backend.body).Some? {
      BufferedUsageSpec(parse(backend.body).value.responseMessage);
    }
  }

  // ---------------------------------------------------------------------------------------------
  // The relay as a whole
  // ---------------------------------------------------------------------------------------------

  /** After the backend has answered: a non-200 status goes back to the caller unchanged with the
      backend's body; otherwise the stream or the buffered reply is relayed. */
  method RelayResponse(stream: bool, backend: BackendReply, parse: string -> Option<PrivateResponse>,
                       encode: OpenAIResponse -> string, sessionId: string, created: int)
    returns (response: CallerResponse, fullResponse: string)
    ensures backend.status != StatusOK ==> response == Upstream(backend.status, backend.body)
    ensures backend.status == StatusOK && !stream ==> response == BufferedOutcome(backend, parse, sessionId, created)
    ensures backend.status == StatusOK && stream ==>
      && response.EventStream?
      && RelaysFrames(response.events, ScanLines(backend.body), parse, encode, sessionId, created)
      && fullResponse == Accumulated(Frames(ScanLines(backend.body), parse))
  {
    fullResponse := "";
    if backend.status != StatusOK {
      return Upstream(backend.status, backend.body), fullResponse;
    }
    if stream {
      var events;
      events, fullResponse := RelayStream(ScanLines(backend.body), parse, encode, sessionId, created);
      response := EventStream(events);
    } else {
      response := BufferedOutcome(backend, parse, sessionId, created);
    }
  }
}
