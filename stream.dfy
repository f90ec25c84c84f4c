/** The streaming chat pipeline of client.go: the SSE line loop `parseSSEStream` and
    the sequential path of `StreamedChat` (marshal, send, status check, read).

    The response body is given as its lines, already split, followed by an optional
    read failure that ends it. JSON decoding of a payload is the parameter `decode`,
    None standing for a payload that fails to unmarshal. Sending on the event channel
    is appending to the sequence of emitted events. */
module EventStream {
  import opened Wrappers
  import opened Text
  import opened Types
  import opened SkaldClient

  const DataPrefix := "data: "
  const CommentPrefix := ":"
  const DoneKind := "done"
  const ReadErrorPrefix := "error reading stream: "

  /** A response body: its lines, then possibly a read failure instead of a clean end. */
  datatype Body = Body(lines: seq<string>, readError: Option<string>)

  /** What a stream read ends with: the events sent, in order, and the returned error. */
  datatype StreamResult = StreamResult(events: seq<ChatStreamEvent>, err: Option<string>)

  // ---------------------------------------------------------------------------
  // Line decoding (client.go:456-467)
  // ---------------------------------------------------------------------------

  datatype Line = Skip | Data(payload: string)

  /** Empty and ':' lines are skipped; only a line with the exact prefix "data: "
      carries a payload, the rest of the line; any other line is skipped too. */
  function ClassifyLine(line: string): (k: Line)
    ensures k.Data? <==> HasPrefix(line, DataPrefix)
    ensures k.Data? ==> line == DataPrefix + k.payload
  {
    if line == "" || HasPrefix(line, CommentPrefix) then
      assert line != "" ==> line[0] == ':' && DataPrefix[0] == 'd';
      Skip
    else if HasPrefix(line, DataPrefix) then Data(line[|DataPrefix|..])
    else Skip
  }

  /** The event a line yields: None for a skipped line and for a payload that fails to decode. */
  function LineEvent(line: string, decode: string -> Option<ChatStreamEvent>): Option<ChatStreamEvent> {
    match ClassifyLine(line)
    case Skip => None
    case Data(payload) => decode(payload)
  }

  lemma LineFraming(decode: string -> Option<ChatStreamEvent>)
    ensures ClassifyLine("") == Skip
    ensures ClassifyLine(": ping") == Skip
    ensures ClassifyLine("data:x") == Skip
    ensures ClassifyLine("event: token") == Skip
    ensures ClassifyLine("data: ") == Data("")
  {
    assert !HasPrefix("data:x", DataPrefix) by { assert "data:x"[5] != DataPrefix[5]; }
    assert !HasPrefix("event: token", DataPrefix) by { assert "event: token"[0] != DataPrefix[0]; }
    assert !HasPrefix(": ping", DataPrefix) by { assert ": ping"[0] != DataPrefix[0]; }
  }

  // ---------------------------------------------------------------------------
  // The specification of the line loop (client.go:449-483)
  // ---------------------------------------------------------------------------

  /** The loop's run over some lines: events sent, lines consumed, whether it stopped on done. */
  datatype Scan = Scan(events: seq<ChatStreamEvent>, consumed: nat, sawDone: bool)

  function ScanLines(lines: seq<string>, decode: string -> Option<ChatStreamEvent>): (s: Scan)
    ensures s.consumed <= |lines|
    ensures !s.sawDone ==> s.consumed == |lines|
    ensures forall i :: 0 <= i < |s.events| - 1 ==> s.events[i].kind != DoneKind
    ensures s.sawDone <==> |s.events| > 0 && s.events[|s.events| - 1].kind == DoneKind
    decreases |lines|
  {
    if lines == [] then Scan([], 0, false)
    else
      match LineEvent(lines[0], decode)
      case None =>
        var rest := ScanLines(lines[1..], decode);
        Scan(rest.events, rest.consumed + 1, rest.sawDone)
      case Some(e) =>
        if e.kind == DoneKind then Scan([e], 1, true)
        else
          var rest := ScanLines(lines[1..], decode);
          Scan([e] + rest.events, rest.consumed + 1, rest.sawDone)
  }

  /** The run reads exactly its first `consumed` lines: the result is the same on those
      lines alone. */
  lemma {:induction false} ConsumedLinesSuffice(lines: seq<string>, decode: string -> Option<ChatStreamEvent>)
    ensures ScanLines(lines[..ScanLines(lines, decode).consumed], decode) == ScanLines(lines, decode)
    decreases |lines|
  {
    if lines != [] {
      var ev, rest := LineEvent(lines[0], decode), ScanLines(lines[1..], decode);
      ScanUnfold(lines, 0, decode);
      assert lines[0..] == lines;
      var c := Step(ev, rest).consumed;
      PrefixUnfold(lines, c, decode);
      if !(ev.Some? && ev.value.kind == DoneKind) {
        ConsumedLinesSuffice(lines[1..], decode);
      }
    }
  }

  /** A run that stopped on done stopped at the line carrying that done. */
  lemma {:induction false} DoneLineIsLastConsumed(lines: seq<string>, decode: string -> Option<ChatStreamEvent>)
    requires ScanLines(lines, decode).sawDone
    ensures 0 < ScanLines(lines, decode).consumed
    ensures LineEvent(lines[ScanLines(lines, decode).consumed - 1], decode) ==
            Some(ScanLines(lines, decode).events[|ScanLines(lines, decode).events| - 1])
    decreases |lines|
  {
    var ev, rest := LineEvent(lines[0], decode), ScanLines(lines[1..], decode);
    ScanUnfold(lines, 0, decode);
    assert lines[0..] == lines;
    if !(ev.Some? && ev.value.kind == DoneKind) {
      StepPastNonDone(ev, rest);
      DoneLineIsLastConsumed(lines[1..], decode);
      assert lines[rest.consumed] == lines[1..][rest.consumed - 1];
    }
  }

  /** A line that is not done keeps the rest's final event and adds one consumed line. */
  lemma StepPastNonDone(ev: Option<ChatStreamEvent>, rest: Scan)
    requires !(ev.Some? && ev.value.kind == DoneKind) && |rest.events| > 0
    ensures Step(ev, rest).consumed == rest.consumed + 1
    ensures Step(ev, rest).sawDone == rest.sawDone
    ensures |Step(ev, rest).events| > 0
    ensures Step(ev, rest).events[|Step(ev, rest).events| - 1] == rest.events[|rest.events| - 1]
  {
  }

  /** The loop over a non-empty prefix, unfolded once. */
  lemma PrefixUnfold(lines: seq<string>, c: nat, decode: string -> Option<ChatStreamEvent>)
    requires 0 < c <= |lines|
    ensures ScanLines(lines[..c], decode) == Step(LineEvent(lines[0], decode), ScanLines(lines[1..][..c - 1], decode))
  {
    ScanUnfold(lines[..c], 0, decode);
    assert lines[..c][0..] == lines[..c];
    assert lines[..c][1..] == lines[1..][..c - 1];
  }

  /** One step of the loop: what the first remaining line does to the rest of the run. */
  function Step(e: Option<ChatStreamEvent>, rest: Scan): Scan {
    match e
    case None => Scan(rest.events, rest.consumed + 1, rest.sawDone)
    case Some(ev) =>
      if ev.kind == DoneKind then Scan([ev], 1, true)
      else Scan([ev] + rest.events, rest.consumed + 1, rest.sawDone)
  }

  lemma ScanUnfold(lines: seq<string>, i: nat, decode: string -> Option<ChatStreamEvent>)
    requires i < |lines|
    ensures ScanLines(lines[i..], decode) == Step(LineEvent(lines[i], decode), ScanLines(lines[i + 1..], decode))
  {
    assert lines[i..][0] == lines[i];
    assert lines[i..][1..] == lines[i + 1..];
  }

  /** The loop invariant: the events sent so far, followed by what the remaining
      lines give, are what the whole run gives. */
  ghost predicate Resumes(lines: seq<string>, i: nat, sent: seq<ChatStreamEvent>,
                          decode: string -> Option<ChatStreamEvent>)
    requires i <= |lines|
  {
    && ScanLines(lines, decode).events == sent + ScanLines(lines[i..], decode).events
    && ScanLines(lines, decode).sawDone == ScanLines(lines[i..], decode).sawDone
  }

  /** The loop's own tests on a line agree with LineEvent. */
  lemma LoopLineTests(line: string, decode: string -> Option<ChatStreamEvent>)
    ensures line == "" || HasPrefix(line, ":") || !HasPrefix(line, "data: ") ==> LineEvent(line, decode).None?
    ensures !(line == "" || HasPrefix(line, ":")) && HasPrefix(line, "data: ") ==>
      LineEvent(line, decode) == decode(line[6..])
  {
  }

  /** A line that yields no event leaves the rest of the run as it is. */
  lemma SkipStep(lines: seq<string>, i: nat, sent: seq<ChatStreamEvent>, decode: string -> Option<ChatStreamEvent>)
    requires i < |lines| && Resumes(lines, i, sent, decode)
    requires LineEvent(lines[i], decode).None?
    ensures Resumes(lines, i + 1, sent, decode)
  {
    ScanUnfold(lines, i, decode);
  }

  /** A line that yields a done event ends the run with that event as the last sent. */
  lemma DoneStep(lines: seq<string>, i: nat, sent: seq<ChatStreamEvent>,
                 decode: string -> Option<ChatStreamEvent>, e: ChatStreamEvent)
    requires i < |lines| && Resumes(lines, i, sent, decode)
    requires LineEvent(lines[i], decode) == Some(e) && e.kind == DoneKind
    ensures ScanLines(lines, decode).events == sent + [e] && ScanLines(lines, decode).sawDone
  {
    ScanUnfold(lines, i, decode);
  }

  /** A line that yields any other event moves it to the sent ones. */
  lemma SendStep(lines: seq<string>, i: nat, sent: seq<ChatStreamEvent>,
                 decode: string -> Option<ChatStreamEvent>, e: ChatStreamEvent)
    requires i < |lines| && Resumes(lines, i, sent, decode)
    requires LineEvent(lines[i], decode) == Some(e) && e.kind != DoneKind
    ensures Resumes(lines, i + 1, sent + [e], decode)
  {
    ScanUnfold(lines, i, decode);
    var next := ScanLines(lines[i + 1..], decode).events;
    assert ScanLines(lines[i..], decode).events == [e] + next;
    assert (sent + [e]) + next == sent + ([e] + next);
  }

  /** The loop's results when it returns on done. */
  lemma StoppedOnDone(body: Body, sent: seq<ChatStreamEvent>, decode: string -> Option<ChatStreamEvent>)
    requires ScanLines(body.lines, decode).events == sent && ScanLines(body.lines, decode).sawDone
    ensures ParseSSE(body, decode) == StreamResult(sent, None)
  {
  }

  /** The loop's results when it runs out of lines. */
  lemma RanOut(body: Body, sent: seq<ChatStreamEvent>, decode: string -> Option<ChatStreamEvent>)
    requires Resumes(body.lines, |body.lines|, sent, decode)
    ensures ParseSSE(body, decode) ==
      StreamResult(sent, if body.readError.Some? then Some(ReadErrorPrefix + body.readError.value) else None)
  {
    assert body.lines[|body.lines|..] == [];
  }

  /** The whole read: a read failure is reported, wrapped, only when no done event
      stopped the loop first; a clean end without done is not an error. */
  function ParseSSE(body: Body, decode: string -> Option<ChatStreamEvent>): (r: StreamResult)
    ensures r.events == ScanLines(body.lines, decode).events
    ensures r.err.Some? <==> body.readError.Some? && !ScanLines(body.lines, decode).sawDone
    ensures r.err.Some? ==> r.err.value == ReadErrorPrefix + body.readError.value
  {
    var s := ScanLines(body.lines, decode);
    if !s.sawDone && body.readError.Some? then StreamResult(s.events, Some(ReadErrorPrefix + body.readError.value))
    else StreamResult(s.events, None)
  }

  // ---------------------------------------------------------------------------
  // The loop itself (client.go:450-483)
  // ---------------------------------------------------------------------------

  /** `parseSSEStream`, step by step as the source runs it. */
  method ParseSSEStream(body: Body, decode: string -> Option<ChatStreamEvent>)
    returns (events: seq<ChatStreamEvent>, err: Option<string>)
    ensures StreamResult(events, err) == ParseSSE(body, decode)
  {
    var lines := body.lines;
    events := [];
    var i := 0;
    while i < |lines|
      invariant 0 <= i <= |lines|
      invariant Resumes(lines, i, events, decode)
    {
      var line := lines[i];
      ghost var at := i;
      LoopLineTests(line, decode);
      i := i + 1;
      if line == "" || HasPrefix(line, ":") {
        SkipStep(lines, at, events, decode);
        continue;
      }
      if HasPrefix(line, "data: ") {
        var after := line[6..];
        var ev := decode(after);
        if ev.None? {
          SkipStep(lines, at, events, decode);
          continue;
        }
        ghost var before := events;
        events := events + [ev.value];
        if ev.value.kind == "done" {
          DoneStep(lines, at, before, decode, ev.value);
          StoppedOnDone(body, events, decode);
          return events, None;
        }
        SendStep(lines, at, before, decode, ev.value);
      } else {
        SkipStep(lines, at, events, decode);
      }
    }
    RanOut(body, events, decode);
    if body.readError.Some? {
      return events, Some("error reading stream: " + body.readError.value);
    }
    return events, None;
  }

  // ---------------------------------------------------------------------------
  // An independent description of the emitted events, and the properties
  // ---------------------------------------------------------------------------

  /** Every event the body's lines decode to, ignoring done. */
  function Decoded(lines: seq<string>, decode: string -> Option<ChatStreamEvent>): seq<ChatStreamEvent>
    decreases |lines|
  {
    if lines == [] then []
    else
      (match LineEvent(lines[0], decode) case None => [] case Some(e) => [e]) + Decoded(lines[1..], decode)
  }

  /** The prefix of events up to and including the first done. */
  function ThroughFirstDone(events: seq<ChatStreamEvent>): seq<ChatStreamEvent> {
    if events == [] then []
    else if events[0].kind == DoneKind then [events[0]]
    else [events[0]] + ThroughFirstDone(events[1..])
  }

  predicate HasDone(events: seq<ChatStreamEvent>) {
    exists i :: 0 <= i < |events| && events[i].kind == DoneKind
  }

  /** The emitted events are exactly the decoded data payloads, in input order, cut
      right after the first done; the loop stops on done exactly when there is one. */
  lemma {:induction false} EmittedAreDecodedThroughDone(lines: seq<string>, decode: string -> Option<ChatStreamEvent>)
    ensures ScanLines(lines, decode).events == ThroughFirstDone(Decoded(lines, decode))
    ensures ScanLines(lines, decode).sawDone <==> HasDone(Decoded(lines, decode))
    decreases |lines|
  {
    if lines != [] {
      var d := Decoded(lines, decode);
      var tail := Decoded(lines[1..], decode);
      EmittedAreDecodedThroughDone(lines[1..], decode);
      match LineEvent(lines[0], decode)
      case None =>
        assert d == tail;
      case Some(e) =>
        assert d == [e] + tail;
        assert d[1..] == tail;
        if e.kind != DoneKind {
          if HasDone(d) {
            var i :| 0 <= i < |d| && d[i].kind == DoneKind;
            assert tail[i - 1].kind == DoneKind;
          }
          if HasDone(tail) {
            var i :| 0 <= i < |tail| && tail[i].kind == DoneKind;
            assert d[i + 1].kind == DoneKind;
          }
        } else {
          assert d[0].kind == DoneKind;
        }
    }
  }

  /** A read failure is reported exactly when the lines decode to no done event,
      and it never takes back the events already sent. */
  lemma ReadFailureOutcome(lines: seq<string>, failure: string, decode: string -> Option<ChatStreamEvent>)
    ensures ParseSSE(Body(lines, Some(failure)), decode).err.Some? <==> !HasDone(Decoded(lines, decode))
    ensures ParseSSE(Body(lines, Some(failure)), decode).events == ParseSSE(Body(lines, None), decode).events
    ensures ParseSSE(Body(lines, None), decode).err.None?
  {
    EmittedAreDecodedThroughDone(lines, decode);
  }

  /** Nothing after the line of the first done event is ever consumed: no further line
      and no later read failure changes what the read returns. */
  lemma {:induction false} StopsAfterDone(lines: seq<string>, more: seq<string>, failure: Option<string>,
                                          decode: string -> Option<ChatStreamEvent>)
    requires ScanLines(lines, decode).sawDone
    ensures ScanLines(lines + more, decode) == ScanLines(lines, decode)
    ensures ParseSSE(Body(lines + more, failure), decode) == ParseSSE(Body(lines, None), decode)
    decreases |lines|
  {
    assert (lines + more)[0] == lines[0];
    assert (lines + more)[1..] == lines[1..] + more;
    match LineEvent(lines[0], decode)
    case None =>
      StopsAfterDone(lines[1..], more, failure, decode);
    case Some(e) =>
      if e.kind != DoneKind {
        StopsAfterDone(lines[1..], more, failure, decode);
      }
  }

  /** Lines that are empty, comments, or not "data: " lines never produce an event,
      and a body made only of them ends with no events and no error. */
  lemma {:induction false} SkippedLinesEmitNothing(lines: seq<string>, decode: string -> Option<ChatStreamEvent>)
    requires forall i :: 0 <= i < |lines| ==> lines[i] == "" || HasPrefix(lines[i], ":") || !HasPrefix(lines[i], DataPrefix)
    ensures ParseSSE(Body(lines, None), decode) == StreamResult([], None)
    decreases |lines|
  {
    if lines != [] {
      assert lines[0] == "" || HasPrefix(lines[0], ":") || !HasPrefix(lines[0], DataPrefix);
      if lines[0] != "" && HasPrefix(lines[0], ":") {
        assert lines[0][0] == ':';
      }
      SkippedLinesEmitNothing(lines[1..], decode);
    }
  }

  /** A "data: " line whose payload fails to decode is passed over: the result is
      that of the remaining lines, and no error comes of it. */
  lemma MalformedPayloadSkipped(payload: string, rest: seq<string>, failure: Option<string>,
                                decode: string -> Option<ChatStreamEvent>)
    requires decode(payload).None?
    ensures ParseSSE(Body([DataPrefix + payload] + rest, failure), decode) == ParseSSE(Body(rest, failure), decode)
  {
    DataLineEvent(payload, decode);
    ScanCons(DataPrefix + payload, rest, decode);
  }

  /** A "data: " line yields whatever its payload decodes to. */
  lemma DataLineEvent(payload: string, decode: string -> Option<ChatStreamEvent>)
    ensures LineEvent(DataPrefix + payload, decode) == decode(payload)
  {
    var line := DataPrefix + payload;
    assert line[..|DataPrefix|] == DataPrefix;
    assert line[|DataPrefix|..] == payload;
    assert line[0] != ':';
  }

  lemma ScanCons(line: string, rest: seq<string>, decode: string -> Option<ChatStreamEvent>)
    ensures ScanLines([line] + rest, decode) == Step(LineEvent(line, decode), ScanLines(rest, decode))
  {
    assert ([line] + rest)[1..] == rest;
  }

  /** The streaming test body: two tokens and a done give exactly those three events,
      in order, and no error. */
  lemma HelloWorldStream(decode: string -> Option<ChatStreamEvent>)
    requires decode("{\"type\":\"token\",\"content\":\"Hello\"}") == Some(ChatStreamEvent("token", Some("Hello"), "", map[]))
    requires decode("{\"type\":\"token\",\"content\":\" world\"}") == Some(ChatStreamEvent("token", Some(" world"), "", map[]))
    requires decode("{\"type\":\"done\"}") == Some(ChatStreamEvent("done", None, "", map[]))
    ensures ParseSSE(Body([DataPrefix + "{\"type\":\"token\",\"content\":\"Hello\"}",
                           DataPrefix + "{\"type\":\"token\",\"content\":\" world\"}",
                           DataPrefix + "{\"type\":\"done\"}"], None), decode)
      == StreamResult([ChatStreamEvent("token", Some("Hello"), "", map[]),
                       ChatStreamEvent("token", Some(" world"), "", map[]),
                       ChatStreamEvent("done", None, "", map[])], None)
  {
    var p1, p2, p3 := "{\"type\":\"token\",\"content\":\"Hello\"}",
                      "{\"type\":\"token\",\"content\":\" world\"}",
                      "{\"type\":\"done\"}";
    DataLineEvent(p1, decode);
    DataLineEvent(p2, decode);
    DataLineEvent(p3, decode);
    var l1, l2, l3 := DataPrefix + p1, DataPrefix + p2, DataPrefix + p3;
    ScanCons(l3, [], decode);
    ScanCons(l2, [l3], decode);
    ScanCons(l1, [l2, l3], decode);
    assert [l1] + [l2, l3] == [l1, l2, l3];
  }

  // ---------------------------------------------------------------------------
  // The sequential path of StreamedChat (client.go:385-413)
  // ---------------------------------------------------------------------------

  /** What the transport returned: the status, the whole body as text (what
      checkResponse reads) and the same body as lines (what the stream reader reads). */
  datatype Response = Response(status: int, text: string, body: Body)

  /** What the caller sees on the two channels once they are closed. */
  datatype Delivery = Delivery(events: seq<ChatStreamEvent>, errors: seq<string>)

  const MarshalErrorPrefix := "failed to marshal chat request: "

  /** One streaming call. The outside steps are parameters: `marshal` encodes the
      envelope, `send` is the transport round trip for a request and its JSON body.
      What is marshalled is `StreamedChatBody(params)`, and what is sent is that
      text on `ChatHTTPRequest(c, encode)`, a POST on the chat path. */
  function StreamedChatRun(c: Client, params: ChatParams,
                           marshal: ChatRequest -> Result<string, string>,
                           send: (Request, string) -> Result<Response, string>,
                           encode: Values -> string,
                           decode: string -> Option<ChatStreamEvent>): (d: Delivery)
    ensures |d.errors| <= 1
    ensures var marshalled := marshal(StreamedChatBody(params));
      marshalled.Failure? ==> d == Delivery([], [MarshalErrorPrefix + marshalled.error])
    ensures var marshalled := marshal(StreamedChatBody(params));
      marshalled.Success? ==>
        var sent := send(ChatHTTPRequest(c, encode), marshalled.value);
        && (sent.Failure? ==> d == Delivery([], [sent.error]))
        && (sent.Success? && !IsSuccessStatus(sent.value.status) ==>
              d == Delivery([], [APIError(sent.value.status, sent.value.text).Error()]) &&
              ParseErrorText(d.errors[0]) == Some(APIError(sent.value.status, sent.value.text)))
        && (sent.Success? && IsSuccessStatus(sent.value.status) ==>
              var r := ParseSSE(sent.value.body, decode);
              d == Delivery(r.events, if r.err.Some? then [r.err.value] else []))
  {
    match marshal(StreamedChatBody(params))
    case Failure(e) => Delivery([], [MarshalErrorPrefix + e])
    case Success(body) =>
      match send(ChatHTTPRequest(c, encode), body)
      case Failure(e) => Delivery([], [e])
      case Success(resp) =>
        match CheckResponse(resp.status, resp.text)
        case Fail(e) => Delivery([], [e])
        case Pass =>
          var r := ParseSSE(resp.body, decode);
          Delivery(r.events, match r.err case Some(e) => [e] case None => [])
  }
}
