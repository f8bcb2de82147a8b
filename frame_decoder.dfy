/**
 * The stdio transport of the Node.js server: messages travel as
 * `Content-Length: <n>\r\n\r\n<n bytes of JSON>` frames, in the manner of
 * the Header Part of the Language Server Protocol base protocol.
 *
 * `NextStep` and `Drain` say what one and all passes of `processBuffer`
 * do to a buffer; `StdioServer` is the process itself, whose `OnData`
 * appends a chunk and runs the decoding loop in place.
 */
module FrameDecoder {
  import opened Wrappers
  import opened Text
  import opened Json
  import opened RpcDispatcher

  // ---------------------------------------------------------------------
  // Finding the end of a header (`buffer.indexOf("\r\n\r\n")`)

  /** The bytes `\r\n\r\n` start at index `j` of `buf`. */
  predicate SeparatorAt(buf: seq<byte>, j: int) {
    0 <= j && j + 4 <= |buf| && buf[j] == 13 && buf[j + 1] == 10 && buf[j + 2] == 13 && buf[j + 3] == 10
  }

  /** Index of the first `\r\n\r\n` in `buf`. */
  function FindSeparator(buf: seq<byte>): (r: Option<nat>)
    ensures r.Some? ==> SeparatorAt(buf, r.value) && forall j :: 0 <= j < r.value ==> !SeparatorAt(buf, j)
    ensures r.None? ==> forall j :: 0 <= j < |buf| ==> !SeparatorAt(buf, j)
    decreases |buf|
  {
    if |buf| < 4 then None
    else if SeparatorAt(buf, 0) then Some(0)
    else
      var later := FindSeparator(buf[1..]);
      assert forall j :: 1 <= j < |buf| ==> (SeparatorAt(buf, j) <==> SeparatorAt(buf[1..], j - 1));
      match later
      case None => None
      case Some(i) => Some(i + 1)
  }

  // ---------------------------------------------------------------------
  // Reading the length (`header.match(/Content-Length: (\d+)/i)`)

  const LengthKey := "content-length: "

  /** The key, compared without regard to ASCII case, starts at index `i` of `h`. */
  predicate KeyAt(h: string, i: nat) {
    i + |LengthKey| <= |h| && ToLower(h[i..i + |LengthKey|]) == LengthKey
  }

  /** The pattern matches at `i`: the key followed by at least one digit. */
  predicate MatchAt(h: string, i: nat) {
    KeyAt(h, i) && i + |LengthKey| < |h| && IsDigit(h[i + |LengthKey|])
  }

  /** The leftmost index at or after `from` where the pattern matches. */
  function MatchIndex(h: string, from: nat): (r: Option<nat>)
    ensures r.Some? ==> from <= r.value && MatchAt(h, r.value)
    ensures r.Some? ==> forall j :: from <= j < r.value ==> !MatchAt(h, j)
    ensures r.None? ==> forall j :: from <= j <= |h| ==> !MatchAt(h, j)
    decreases |h| - from
  {
    if from >= |h| then None
    else if MatchAt(h, from) then Some(from)
    else MatchIndex(h, from + 1)
  }

  /** The greedy `\d+` run starting at `start`. */
  function DigitRun(h: string, start: nat): (r: string)
    ensures start + |r| <= |h| || r == []
    ensures AllDigits(r)
    decreases |h| - start
  {
    if start < |h| && IsDigit(h[start]) then [h[start]] + DigitRun(h, start + 1) else []
  }

  lemma {:induction false} DigitRunIsMaximal(h: string, start: nat)
    requires start <= |h|
    ensures var r := DigitRun(h, start);
      && start + |r| <= |h| && r == h[start..start + |r|]
      && (start + |r| == |h| || !IsDigit(h[start + |r|]))
    decreases |h| - start
  {
    if start < |h| && IsDigit(h[start]) {
      DigitRunIsMaximal(h, start + 1);
    }
  }

  /** A run of digits reaching to the end of the header is taken whole. */
  lemma {:induction false} DigitRunToEnd(h: string, start: nat)
    requires start <= |h| && AllDigits(h[start..])
    ensures DigitRun(h, start) == h[start..]
    decreases |h| - start
  {
    if start < |h| {
      assert IsDigit(h[start..][0]);
      assert h[start + 1..] == h[start..][1..];
      DigitRunToEnd(h, start + 1);
    }
  }

  /** The captured digits of the leftmost match, if any. */
  function LengthField(h: string): (r: Option<string>)
    ensures r.Some? ==> |r.value| > 0 && AllDigits(r.value)
    ensures r.None? <==> forall j :: 0 <= j <= |h| ==> !MatchAt(h, j)
  {
    match MatchIndex(h, 0)
    case None => None
    case Some(i) => Some(DigitRun(h, i + |LengthKey|))
  }

  /** `Number.parseInt` of the captured digits of the header, read as text. */
  function HeaderLength(header: seq<byte>): Option<nat> {
    match LengthField(AsciiText(header))
    case None => None
    case Some(digits) => Some(DecimalValue(digits))
  }

  // ---------------------------------------------------------------------
  // One pass of the decoding loop

  datatype Step =
    | NeedMore
      /** A header without a length: it is dropped with its separator. */
    | SkipHeader(rest: seq<byte>)
      /** A whole frame: its body, and what follows it. */
    | Deliver(body: seq<byte>, rest: seq<byte>)

  /** The rest of a pass once the header is known to end at `headerEnd` with length `length`. */
  function StepAfterHeader(buf: seq<byte>, headerEnd: nat, length: Option<nat>): (s: Step)
    requires headerEnd + 4 <= |buf|
    ensures !s.NeedMore? ==> |s.rest| < |buf| && s.rest == buf[|buf| - |s.rest|..]
    ensures s.Deliver? ==> |s.body| + |s.rest| < |buf|
  {
    match length
    case None => SkipHeader(buf[headerEnd + 4..])
    case Some(n) =>
      var total := headerEnd + 4 + n;
      if |buf| < total then NeedMore
      else Deliver(buf[headerEnd + 4..total], buf[total..])
  }

  /** What one iteration of `processBuffer` does to the buffer. */
  function NextStep(buf: seq<byte>): (s: Step)
    ensures !s.NeedMore? ==> |s.rest| < |buf| && s.rest == buf[|buf| - |s.rest|..]
    ensures s.Deliver? ==> |s.body| + |s.rest| < |buf|
  {
    match FindSeparator(buf)
    case None => NeedMore
    case Some(headerEnd) => StepAfterHeader(buf, headerEnd, HeaderLength(buf[..headerEnd]))
  }

  // ---------------------------------------------------------------------
  // Handling one body

  /** What is done with a decoded body: the messages sent, and whether the process exits. */
  type Handler = seq<byte> -> (seq<Outgoing>, bool)

  const MissingLength := Log("Received payload without Content-Length header", "error")

  function ParseFailure(error: string): Outgoing {
    Log("Failed to parse JSON payload: " + error, "error")
  }

  /**
   * `JSON.parse(body)` then `handleMessage`; anything either throws is
   * caught and logged, and `exit` says the handler ended the process.
   * `parse` stands for UTF-8 decoding and `JSON.parse`, failing with the
   * text of the `SyntaxError`.
   */
  function Dispatch(body: seq<byte>, parse: seq<byte> -> Result<Json, string>): (r: (seq<Outgoing>, bool))
    ensures parse(body).Failure? ==> r == ([ParseFailure(parse(body).error)], false)
    ensures r.1 ==> parse(body).Success? && Prop(parse(body).value, "method") == Some(JStr("shutdown"))
  {
    match parse(body)
    case Failure(e) => ([ParseFailure(e)], false)
    case Success(message) =>
      match HandleMessage(message)
      case Threw(error) => ([ParseFailure(error)], false)
      case Done(out, exit) => (out, exit)
  }

  /** `Dispatch` with the parser fixed: what the server does with each body. */
  function ServerHandler(parse: seq<byte> -> Result<Json, string>): Handler {
    body => Dispatch(body, parse)
  }

  // ---------------------------------------------------------------------
  // The whole loop

  /** What the loop leaves in the buffer, what it sends, and whether the process exited. */
  datatype Drained = Drained(rest: seq<byte>, out: seq<Outgoing>, exited: bool)

  /** How one pass of the loop reads the front of a buffer. */
  type Stepper = seq<byte> -> Step

  /** A pass that takes something leaves less behind. */
  ghost predicate Consumes(step: Stepper) {
    forall x :: !step(x).NeedMore? ==> |step(x).rest| < |x|
  }

  /** What a pass leaves behind is the end of what it was given. */
  ghost predicate KeepsSuffix(step: Stepper) {
    forall x :: !step(x).NeedMore? ==> |step(x).rest| <= |x| && step(x).rest == x[|x| - |step(x).rest|..]
  }

  /** `s` with `more` appended to what it leaves behind. */
  function Extend(s: Step, more: seq<byte>): Step {
    match s
    case NeedMore => NeedMore
    case SkipHeader(rest) => SkipHeader(rest + more)
    case Deliver(body, rest) => Deliver(body, rest + more)
  }

  /** A pass that needs nothing more is unchanged by bytes arriving after it. */
  ghost predicate Stable(step: Stepper) {
    forall x, m {:trigger step(x + m)} :: !step(x).NeedMore? ==> step(x + m) == Extend(step(x), m)
  }

  lemma AppendAssociates(a: seq<Outgoing>, b: seq<Outgoing>, c: seq<Outgoing>)
    ensures a + (b + c) == (a + b) + c
  {
  }

  /** The loop, for any way of reading one frame. */
  function DrainWith(buf: seq<byte>, step: Stepper, handle: Handler): (d: Drained)
    requires Consumes(step)
    decreases |buf|
  {
    match step(buf)
    case NeedMore => Drained(buf, [], false)
    case SkipHeader(rest) =>
      var d := DrainWith(rest, step, handle);
      Drained(d.rest, [MissingLength] + d.out, d.exited)
    case Deliver(body, rest) =>
      var (out, exit) := handle(body);
      if exit then Drained(rest, out, true)
      else
        var d := DrainWith(rest, step, handle);
        Drained(d.rest, out + d.out, d.exited)
  }

  lemma {:induction false} DrainWithStops(buf: seq<byte>, step: Stepper, handle: Handler)
    requires Consumes(step) && KeepsSuffix(step)
    ensures var d := DrainWith(buf, step, handle);
      && |d.rest| <= |buf| && d.rest == buf[|buf| - |d.rest|..]
      && (!d.exited ==> step(d.rest) == NeedMore)
    decreases |buf|
  {
    match step(buf)
    case NeedMore =>
    case SkipHeader(rest) =>
      DrainWithStops(rest, step, handle);
    case Deliver(body, rest) =>
      DrainWithStops(rest, step, handle);
  }

  lemma {:induction false} DrainWithAppend(a: seq<byte>, b: seq<byte>, step: Stepper, handle: Handler)
    requires Consumes(step) && Stable(step)
    ensures var d := DrainWith(a, step, handle);
      var e := DrainWith(a + b, step, handle);
      if d.exited then e.out == d.out && e.exited
      else
        var f := DrainWith(d.rest + b, step, handle);
        e == Drained(f.rest, d.out + f.out, f.exited)
    decreases |a|
  {
    match step(a)
    case NeedMore =>
    case SkipHeader(rest) =>
      DrainWithAppend(rest, b, step, handle);
      var d := DrainWith(rest, step, handle);
      if !d.exited {
        var f := DrainWith(d.rest + b, step, handle);
        AppendAssociates([MissingLength], d.out, f.out);
      }
    case Deliver(body, rest) =>
      if !handle(body).1 {
        DrainWithAppend(rest, b, step, handle);
        var d := DrainWith(rest, step, handle);
        if !d.exited {
          var f := DrainWith(d.rest + b, step, handle);
          AppendAssociates(handle(body).0, d.out, f.out);
        }
      }
  }

  /** A step that needs nothing more is unchanged by bytes arriving after it. */
  lemma NextStepStable(buf: seq<byte>, more: seq<byte>)
    requires !NextStep(buf).NeedMore?
    ensures NextStep(buf + more) == Extend(NextStep(buf), more)
  {
    var he := FindSeparator(buf).value;
    SeparatorStable(buf, more);
    assert (buf + more)[..he] == buf[..he];
    StepAfterHeaderStable(buf, more, he, HeaderLength(buf[..he]));
  }

  lemma StepAfterHeaderStable(buf: seq<byte>, more: seq<byte>, headerEnd: nat, length: Option<nat>)
    requires headerEnd + 4 <= |buf| && !StepAfterHeader(buf, headerEnd, length).NeedMore?
    ensures StepAfterHeader(buf + more, headerEnd, length) == Extend(StepAfterHeader(buf, headerEnd, length), more)
  {
    var b := buf + more;
    match length
    case None =>
      assert b[headerEnd + 4..] == buf[headerEnd + 4..] + more;
    case Some(n) =>
      var total := headerEnd + 4 + n;
      assert b[headerEnd + 4..total] == buf[headerEnd + 4..total];
      assert b[total..] == buf[total..] + more;
  }

  /** A separator already present is the first one however many bytes follow. */
  lemma SeparatorStable(buf: seq<byte>, more: seq<byte>)
    requires FindSeparator(buf).Some?
    ensures FindSeparator(buf + more) == FindSeparator(buf)
  {
    var b := buf + more;
    var he := FindSeparator(buf).value;
    assert SeparatorAt(b, he);
    assert forall j :: 0 <= j < he ==> (SeparatorAt(b, j) <==> SeparatorAt(buf, j));
  }

  lemma NextStepConsumes()
    ensures Consumes(NextStep)
  {
  }

  lemma NextStepKeepsSuffix()
    ensures KeepsSuffix(NextStep)
  {
  }

  lemma NextStepIsStable()
    ensures Stable(NextStep)
  {
    forall x, m | !NextStep(x).NeedMore?
      ensures NextStep(x + m) == Extend(NextStep(x), m)
    {
      NextStepStable(x, m);
    }
  }

  /** `processBuffer` run on `buf` until it returns or the process exits. */
  function Drain(buf: seq<byte>, handle: Handler): Drained {
    NextStepConsumes();
    DrainWith(buf, NextStep, handle)
  }

  /** A buffer without a whole frame is left as it is. */
  lemma DrainNeedMore(buf: seq<byte>, handle: Handler)
    requires NextStep(buf).NeedMore?
    ensures Drain(buf, handle) == Drained(buf, [], false)
  {
  }

  /** A body whose handler exits ends the loop. */
  lemma DrainExit(buf: seq<byte>, handle: Handler)
    requires NextStep(buf).Deliver? && handle(NextStep(buf).body).1
    ensures Drain(buf, handle) == Drained(NextStep(buf).rest, handle(NextStep(buf).body).0, true)
  {
  }

  /** One pass that drops a header without a length. */
  lemma DrainSkip(buf: seq<byte>, handle: Handler)
    requires NextStep(buf).SkipHeader?
    ensures var d := Drain(NextStep(buf).rest, handle);
      Drain(buf, handle) == Drained(d.rest, [MissingLength] + d.out, d.exited)
  {
  }

  /** One pass that hands a body to a handler that does not exit. */
  lemma DrainDeliver(buf: seq<byte>, handle: Handler)
    requires NextStep(buf).Deliver? && !handle(NextStep(buf).body).1
    ensures var d := Drain(NextStep(buf).rest, handle);
      Drain(buf, handle) == Drained(d.rest, handle(NextStep(buf).body).0 + d.out, d.exited)
  {
  }

  /**
   * Unless the process exited, the loop returns only when the buffer holds
   * no complete frame, and what it keeps is a suffix of what it was given.
   */
  lemma DrainStops(buf: seq<byte>, handle: Handler)
    ensures var d := Drain(buf, handle);
      && |d.rest| <= |buf| && d.rest == buf[|buf| - |d.rest|..]
      && (!d.exited ==> NextStep(d.rest) == NeedMore)
  {
    NextStepConsumes();
    NextStepKeepsSuffix();
    DrainWithStops(buf, NextStep, handle);
  }

  /**
   * Chunk boundaries do not matter: decoding `a + b` in one pass does what
   * decoding `a`, keeping the rest, and then decoding that rest with `b`
   * appended does.
   */
  lemma DrainAppend(a: seq<byte>, b: seq<byte>, handle: Handler)
    ensures var d := Drain(a, handle);
      var e := Drain(a + b, handle);
      if d.exited then e.out == d.out && e.exited
      else
        var f := Drain(d.rest + b, handle);
        e == Drained(f.rest, d.out + f.out, f.exited)
  {
    NextStepConsumes();
    NextStepIsStable();
    DrainWithAppend(a, b, NextStep, handle);
  }

  // ---------------------------------------------------------------------
  // Framing (`send`)

  function HeaderText(length: nat): string {
    "Content-Length: " + NatToDecimal(length)
  }

  /** The bytes `send` writes for a serialised body. */
  function Frame(body: seq<byte>): (r: seq<byte>)
    ensures |r| == |HeaderText(|body|)| + 4 + |body|
  {
    AsciiBytes(HeaderText(|body|) + "\r\n\r\n") + body
  }

  /**
   * `send(message)`: `stringify` stands for `JSON.stringify` followed by
   * UTF-8 encoding, so the header counts bytes as `Buffer.byteLength` does.
   */
  function Send(o: Outgoing, stringify: Json -> seq<byte>): seq<byte> {
    Frame(stringify(ToJson(o)))
  }

  lemma HeaderTextAscii(length: nat)
    ensures IsAscii(HeaderText(length))
    ensures forall j :: 0 <= j < |HeaderText(length)| ==> HeaderText(length)[j] != '\r'
    ensures |HeaderText(length)| > |LengthKey|
    ensures HeaderText(length)[|LengthKey|..] == NatToDecimal(length)
  {
    DecimalRoundTrip(length);
    var h := HeaderText(length);
    var d := NatToDecimal(length);
    var key := "Content-Length: ";
    forall j | 0 <= j < |h|
      ensures h[j] as int < 128 && h[j] != '\r'
    {
      if j < |key| {
        assert h[j] == key[j];
      } else {
        assert h[j] == d[j - |key|];
        assert IsDigit(d[j - |key|]);
      }
    }
    assert h[|key|..] == d;
  }

  lemma HeaderMatches(length: nat)
    ensures LengthField(HeaderText(length)) == Some(NatToDecimal(length))
  {
    var h := HeaderText(length);
    HeaderTextAscii(length);
    DecimalRoundTrip(length);
    assert h[..|LengthKey|] == "Content-Length: ";
    assert ToLower("Content-Length: ") == LengthKey;
    assert MatchAt(h, 0);
    assert MatchIndex(h, 0) == Some(0);
    DigitRunToEnd(h, |LengthKey|);
  }

  /**
   * A buffer starting with ASCII text, then `\r\n\r\n`, where no separator
   * starts inside the text: the header ends after the text.
   */
  lemma SeparatorAfterHeader(text: string, rest: seq<byte>)
    requires forall j :: 0 <= j < |text| ==> !SeparatorAt(AsciiBytes(text + "\r\n\r\n"), j)
    ensures var buf := AsciiBytes(text + "\r\n\r\n") + rest;
      && FindSeparator(buf) == Some(|text|)
      && buf[..|text|] == AsciiBytes(text)
      && buf[|text| + 4..] == rest
  {
    var pre := AsciiBytes(text + "\r\n\r\n");
    var buf := pre + rest;
    var n := |text|;
    AsciiBytesConcat(text, "\r\n\r\n");
    assert buf[..n] == AsciiBytes(text);
    assert forall j :: 0 <= j < n ==> (SeparatorAt(buf, j) <==> SeparatorAt(pre, j));
    assert buf[n..n + 4] == AsciiBytes("\r\n\r\n");
    assert SeparatorAt(buf, n);
  }

  /** A buffer starting with text free of `\r` followed by `\r\n\r\n`: the header ends after the text. */
  lemma SeparatorAfterText(text: string, rest: seq<byte>)
    requires IsAscii(text) && forall j :: 0 <= j < |text| ==> text[j] != '\r'
    ensures var buf := AsciiBytes(text + "\r\n\r\n") + rest;
      && FindSeparator(buf) == Some(|text|)
      && buf[..|text|] == AsciiBytes(text)
      && buf[|text| + 4..] == rest
  {
    var pre := AsciiBytes(text + "\r\n\r\n");
    AsciiBytesConcat(text, "\r\n\r\n");
    assert forall j :: 0 <= j < |text| ==> pre[j] == AsciiBytes(text)[j] && pre[j] != 13;
    SeparatorAfterHeader(text, rest);
  }

  /** The header `send` writes gives back the length it was written with. */
  lemma HeaderLengthRoundTrip(length: nat)
    ensures HeaderLength(AsciiBytes(HeaderText(length))) == Some(length)
  {
    HeaderTextAscii(length);
    AsciiRoundTrip(HeaderText(length));
    HeaderMatches(length);
    DecimalRoundTrip(length);
  }

  /** What `send` writes, the decoder reads back as one whole frame. */
  lemma FrameRoundTrip(body: seq<byte>, tail: seq<byte>)
    ensures NextStep(Frame(body) + tail) == Deliver(body, tail)
  {
    var h := HeaderText(|body|);
    var buf := Frame(body) + tail;
    var n := |h|;
    HeaderTextAscii(|body|);
    assert buf == AsciiBytes(h + "\r\n\r\n") + (body + tail);
    SeparatorAfterText(h, body + tail);
    HeaderLengthRoundTrip(|body|);
    assert buf[n + 4..n + 4 + |body|] == body;
    assert buf[n + 4 + |body|..] == tail;
  }

  lemma SendDecodes(o: Outgoing, stringify: Json -> seq<byte>, tail: seq<byte>)
    ensures NextStep(Send(o, stringify) + tail) == Deliver(stringify(ToJson(o)), tail)
  {
    FrameRoundTrip(stringify(ToJson(o)), tail);
  }

  /** Every body in turn, up to and including one whose handler exits. */
  function DispatchAll(bodies: seq<seq<byte>>, handle: Handler): (r: (seq<Outgoing>, bool))
    decreases |bodies|
  {
    if |bodies| == 0 then ([], false)
    else
      var (out, exit) := handle(bodies[0]);
      if exit then (out, true)
      else
        var (more, exited) := DispatchAll(bodies[1..], handle);
        (out + more, exited)
  }

  function Frames(bodies: seq<seq<byte>>): seq<byte>
    decreases |bodies|
  {
    if |bodies| == 0 then [] else Frame(bodies[0]) + Frames(bodies[1..])
  }

  /** A stream of whole frames is decoded into its bodies, in order, and nothing is left over. */
  lemma {:induction false} DrainFrames(bodies: seq<seq<byte>>, handle: Handler)
    ensures var d := Drain(Frames(bodies), handle);
      && d.out == DispatchAll(bodies, handle).0
      && d.exited == DispatchAll(bodies, handle).1
      && (!d.exited ==> d.rest == [])
    decreases |bodies|
  {
    if |bodies| == 0 {
      assert FindSeparator([]) == None;
    } else {
      FrameRoundTrip(bodies[0], Frames(bodies[1..]));
      DrainFrames(bodies[1..], handle);
    }
  }

  /** A header with no length is reported and dropped, and decoding goes on after it. */
  lemma SkipsHeaderWithoutLength(header: string, tail: seq<byte>, handle: Handler)
    requires forall j :: 0 <= j < |header| ==> !SeparatorAt(AsciiBytes(header + "\r\n\r\n"), j)
    requires IsAscii(header)
    requires forall j :: 0 <= j <= |header| ==> !MatchAt(header, j)
    ensures var d := Drain(AsciiBytes(header + "\r\n\r\n") + tail, handle);
      var e := Drain(tail, handle);
      d == Drained(e.rest, [MissingLength] + e.out, e.exited)
  {
    SeparatorAfterHeader(header, tail);
    AsciiRoundTrip(header);
  }


  // ---------------------------------------------------------------------
  // The process

  class StdioServer {
    /** What is done with each decoded body. */
    const handle: Handler
    /** Bytes received and not yet decoded. */
    var buffer: seq<byte>
    /** Every message written to stdout so far, in order. */
    var output: seq<Outgoing>
    /** `process.exit` has been called. */
    var exited: bool

    /**
     * Start-up: an empty buffer and the start-up log line; bodies are
     * parsed with `parse` and handed to `handleMessage`.
     */
    constructor(parse: seq<byte> -> Result<Json, string>)
      ensures handle == ServerHandler(parse)
      ensures buffer == [] && output == [Log("Dummy MCP server started.", "info")] && !exited
    {
      handle := ServerHandler(parse);
      buffer := [];
      output := [Log("Dummy MCP server started.", "info")];
      exited := false;
    }

    /** The `data` handler: append the chunk, then decode what can be decoded. */
    method OnData(chunk: seq<byte>)
      modifies this
      ensures old(exited) ==> buffer == old(buffer) && output == old(output) && exited
      ensures !old(exited) ==> var d := Drain(old(buffer) + chunk, handle);
        buffer == d.rest && output == old(output) + d.out && exited == d.exited
    {
      if exited {
        return;
      }
      buffer := buffer + chunk;
      ProcessBuffer();
    }

    /** `processBuffer`. */
    method ProcessBuffer()
      requires !exited
      modifies this
      ensures var d := Drain(old(buffer), handle);
        buffer == d.rest && output == old(output) + d.out && exited == d.exited
    {
      ghost var goal := Drain(buffer, handle);
      ghost var sent := output;
      while true
        invariant !exited
        invariant Drain(buffer, handle).rest == goal.rest
        invariant Drain(buffer, handle).exited == goal.exited
        invariant output + Drain(buffer, handle).out == sent + goal.out
        decreases |buffer|
      {
        ghost var before := buffer;
        ghost var sentBefore := output;
        var stop := Pass();
        if stop {
          if NextStep(before).NeedMore? {
            DrainNeedMore(before, handle);
          } else {
            DrainExit(before, handle);
          }
          return;
        }
        if NextStep(before).SkipHeader? {
          DrainSkip(before, handle);
          AppendAssociates(sentBefore, [MissingLength], Drain(buffer, handle).out);
        } else {
          DrainDeliver(before, handle);
          AppendAssociates(sentBefore, handle(NextStep(before).body).0, Drain(buffer, handle).out);
        }
      }
    }

    /**
     * One iteration of the `while (true)` loop of `processBuffer`, which does
     * what `NextStep` says; `stop` says the iteration left the loop.
     */
    method Pass() returns (stop: bool)
      requires !exited
      modifies this
      ensures match NextStep(old(buffer))
        case NeedMore => stop && buffer == old(buffer) && output == old(output) && !exited
        case SkipHeader(rest) => !stop && buffer == rest && output == old(output) + [MissingLength] && !exited
        case Deliver(body, rest) =>
          && buffer == rest && output == old(output) + handle(body).0
          && exited == handle(body).1 && stop == handle(body).1
    {
      var headerEnd := FindSeparator(buffer);
      if headerEnd.None? {
        return true;
      }
      var he := headerEnd.value;
      var lengthMatch := HeaderLength(buffer[..he]);
      ghost var step := StepAfterHeader(buffer, he, lengthMatch);
      assert NextStep(buffer) == step;
      if lengthMatch.None? {
        output := output + [MissingLength];
        buffer := buffer[he + 4..];
        assert step == SkipHeader(buffer);
        return false;
      }
      var total := he + 4 + lengthMatch.value;
      if |buffer| < total {
        assert step == NeedMore;
        return true;
      }
      var body := buffer[he + 4..total];
      buffer := buffer[total..];
      assert step == Deliver(body, buffer);
      var (out, exit) := handle(body);
      output := output + out;
      if exit {
        exited := true;
        return true;
      }
      return false;
    }

    /** The `end` handler: log, then exit. */
    method OnEnd()
      modifies this
      ensures old(exited) ==> output == old(output)
      ensures !old(exited) ==> output == old(output) + [Log("Stdin stream ended. Shutting down.", "info")]
      ensures buffer == old(buffer) && exited
    {
      if !exited {
        output := output + [Log("Stdin stream ended. Shutting down.", "info")];
        exited := true;
      }
    }
  }
}
