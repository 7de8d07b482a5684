/**
 * Framed inter-process communication: the GLIP v1 codec and echo adapter of
 * examples/external-adapter/echo-subprocess.py, and the broker's length-prefixed
 * messages (src/broker/broker_server.py), both over input that comes in chunks.
 */
module ByteStreams {
  import opened Wrappers

  type Byte = x: int | 0 <= x < 256
  type Bytes = seq<Byte>

  function Ascii(s: string): (b: Bytes)
    ensures |b| == |s|
  {
    seq(|s|, i requires 0 <= i < |s| => (s[i] as int) % 256)
  }

  /** struct.pack(">I", n). */
  function Pack(n: int): (b: Bytes)
    requires 0 <= n < 0x1_0000_0000
    ensures |b| == 4
  {
    [n / 256 / 256 / 256, n / 256 / 256 % 256, n / 256 % 256, n % 256]
  }

  function Unpack(b: Bytes): (n: int)
    requires |b| == 4
    ensures 0 <= n < 0x1_0000_0000
  {
    (((b[0] as int) * 256 + b[1]) * 256 + b[2]) * 256 + b[3]
  }

  lemma {:induction false} UnpackPack(n: int)
    requires 0 <= n < 0x1_0000_0000
    ensures Unpack(Pack(n)) == n
  {
  }

  lemma {:induction false} PackUnpack(b: Bytes)
    requires |b| == 4
    ensures Pack(Unpack(b)) == b
  {
    var n := Unpack(b);
    assert n / 256 == ((b[0] as int) * 256 + b[1]) * 256 + b[2];
    assert n / 256 / 256 == (b[0] as int) * 256 + b[1];
  }

  /** A pipe or socket: every read gives some of what is left, nothing only at its end. */
  class Source {
    var rest: Bytes

    constructor (input: Bytes)
      ensures rest == input
    {
      rest := input;
    }

    method Read(size: nat) returns (chunk: Bytes)
      requires size > 0
      modifies this
      ensures old(rest) == chunk + rest && |chunk| <= size
      ensures chunk == [] <==> old(rest) == []
    {
      if rest == [] { return []; }
      var k: nat :| 1 <= k <= size && k <= |rest|;
      chunk := rest[..k];
      rest := rest[k..];
    }

    /** exact_read: size counts down; None is the EOFError. */
    method ExactRead(size: nat) returns (r: Option<Bytes>)
      modifies this
      ensures r.Some? <==> |old(rest)| >= size
      ensures r.Some? ==> r.value == old(rest)[..size] && rest == old(rest)[size..]
    {
      var got: Bytes, left: nat := [], size;
      while left > 0
        invariant old(rest) == got + rest && |got| + left == size
      {
        var chunk := Read(left);
        if chunk == [] { return None; }
        got := got + chunk;
        left := left - |chunk|;
      }
      assert old(rest)[..size] == got && old(rest)[size..] == rest;
      r := Some(got);
    }

    /** recv_exact: the buffer grows to n; None is the denial broker_truncated_message. */
    method RecvExact(n: nat) returns (r: Option<Bytes>)
      modifies this
      ensures r.Some? <==> |old(rest)| >= n
      ensures r.Some? ==> r.value == old(rest)[..n] && rest == old(rest)[n..]
    {
      var parts: Bytes := [];
      while |parts| < n
        invariant old(rest) == parts + rest && |parts| <= n
        decreases n - |parts|
      {
        var data := Read(n - |parts|);
        if data == [] { return None; }
        parts := parts + data;
      }
      assert old(rest)[..n] == parts && old(rest)[n..] == rest;
      r := Some(parts);
    }
  }
}

module Glip {
  import opened Wrappers
  import opened ByteStreams

  const MAGIC: Bytes := [71, 76, 73, 80] // "GLIP"
  const MAX_PAYLOAD := 65536

  const HELLO := 1
  const READY := 2
  const BINARY := 3
  const TEXT := 4
  const END := 5
  const CANCEL := 7

  datatype Message = Frame(kind: int, payload: Bytes)

  type Frame = f: Message | HELLO <= f.kind <= CANCEL && |f.payload| <= MAX_PAYLOAD
    witness Frame(END, [])

  /** The bytes that send writes. */
  function Encode(f: Frame): (b: Bytes)
    ensures |b| == 9 + |f.payload|
  {
    MAGIC + [f.kind] + Pack(|f.payload|) + f.payload
  }

  datatype Parsed = AtEnd | Malformed | Parsed(frame: Frame, rest: Bytes)

  /** What read_frame makes of the rest of the input; Malformed is any exception. */
  function ParseFrame(input: Bytes): Parsed {
    if input == [] then AtEnd
    else if |input| < 9 || input[..4] != MAGIC || !(HELLO <= input[4] <= CANCEL) then Malformed
    else
      var length := Unpack(input[5..9]);
      if length > MAX_PAYLOAD || |input| < 9 + length then Malformed
      else Parsed(Frame(input[4], input[9..9 + length]), input[9 + length..])
  }

  lemma {:induction false} EncodedFrameParses(f: Frame, rest: Bytes)
    ensures ParseFrame(Encode(f) + rest) == Parsed(f, rest)
  {
    var b := Encode(f) + rest;
    UnpackPack(|f.payload|);
    assert b[..4] == MAGIC && b[4] == f.kind && b[5..9] == Pack(|f.payload|);
    assert b[9..9 + |f.payload|] == f.payload && b[9 + |f.payload|..] == rest;
  }

  lemma {:induction false} ParsedFrameWasEncoded(input: Bytes)
    requires ParseFrame(input).Parsed?
    ensures input == Encode(ParseFrame(input).frame) + ParseFrame(input).rest
  {
    PackUnpack(input[5..9]);
    var p := ParseFrame(input);
    assert input == input[..4] + [input[4]] + input[5..9] + input[9..9 + |p.frame.payload|] + p.rest;
  }

  /** The frames in order, and then the rest. */
  function Stream(fs: seq<Frame>, rest: Bytes): Bytes {
    if fs == [] then rest else Encode(fs[0]) + Stream(fs[1..], rest)
  }

  function DecodeAll(input: Bytes): Option<seq<Frame>>
    decreases |input|
  {
    match ParseFrame(input)
    case AtEnd => Some([])
    case Malformed => None
    case Parsed(f, rest) => if DecodeAll(rest).Some? then Some([f] + DecodeAll(rest).value) else None
  }

  lemma DecodeStep(f: Frame, rest: Bytes)
    ensures DecodeAll(Encode(f) + rest) == if DecodeAll(rest).Some? then Some([f] + DecodeAll(rest).value) else None
  {
    EncodedFrameParses(f, rest);
    hide Encode, ParseFrame;
  }

  lemma {:induction false} DecodeEncode(fs: seq<Frame>)
    ensures DecodeAll(Stream(fs, [])) == Some(fs)
  {
    hide Encode, ParseFrame;
    if fs == [] {
      DecodeNothing();
    } else {
      DecodeEncode(fs[1..]);
      DecodeStep(fs[0], Stream(fs[1..], []));
      hide DecodeAll;
      assert [fs[0]] + fs[1..] == fs;
    }
  }

  lemma DecodeNothing()
    ensures DecodeAll([]) == Some([])
  {
  }

  lemma {:induction false} EncodeDecode(input: Bytes)
    requires DecodeAll(input).Some?
    ensures Stream(DecodeAll(input).value, []) == input
    decreases |input|
  {
    if ParseFrame(input).Parsed? {
      ParsedFrameWasEncoded(input);
      EncodeDecode(ParseFrame(input).rest);
    }
  }

  lemma {:induction false} StreamAppends(fs: seq<Frame>, gs: seq<Frame>, rest: Bytes)
    ensures Stream(fs + gs, rest) == Stream(fs, Stream(gs, rest))
  {
    hide Encode;
    if fs == [] {
      assert fs + gs == gs;
    } else {
      StreamAppends(fs[1..], gs, rest);
      assert (fs + gs)[1..] == fs[1..] + gs;
    }
  }

  lemma StreamFirst(f: Frame, fs: seq<Frame>, rest: Bytes)
    ensures Stream([f] + fs, rest) == Encode(f) + Stream(fs, rest)
  {
    assert ([f] + fs)[1..] == fs;
  }

  // ---------------------------------------------------------------- the echo adapter

  const READY_FRAME: Frame := Frame(READY, Ascii("{\"protocol\":\"gpulink.adapter.ipc\",\"version\":1,\"ready\":true}"))

  /** What the HELLO payload turns out to be; TooDeep is nested deeper than the JSON parser recurses. */
  datatype Document = Supported | Unsupported | TooDeep

  /** Strict UTF-8 and the HELLO document are decided outside the model. */
  datatype Rules = Rules(hello: Bytes -> Document, utf8: Bytes -> bool)

  predicate IsData(f: Frame, rules: Rules) {
    f.kind == BINARY || (f.kind == TEXT && rules.utf8(f.payload))
  }

  predicate IsLast(f: Frame) { (f.kind == END || f.kind == CANCEL) && f.payload == [] }

  predicate IsHello(f: Frame, rules: Rules) { f.kind == HELLO && rules.hello(f.payload).Supported? }

  /** The RecursionError that the handler around main does not catch. */
  predicate Crashes(p: Parsed, rules: Rules) {
    p.Parsed? && p.frame.kind == HELLO && rules.hello(p.frame.payload).TooDeep?
  }

  datatype Exit = Exit(code: int, output: Bytes)

  /** The loop of main after READY. */
  function Serve(input: Bytes, rules: Rules): Exit
    decreases |input|
  {
    match ParseFrame(input)
    case AtEnd => Exit(2, [])
    case Malformed => Exit(2, [])
    case Parsed(f, rest) =>
      ParsedFrameWasEncoded(input);
      if IsData(f, rules) then var e := Serve(rest, rules); Exit(e.code, Encode(f) + e.output)
      else if IsLast(f) then Exit(0, if f.kind == END then Encode(f) else [])
      else Exit(2, [])
  }

  function Adapt(input: Bytes, rules: Rules): Exit {
    match ParseFrame(input)
    case Parsed(f, rest) =>
      if IsHello(f, rules) then var e := Serve(rest, rules); Exit(e.code, Encode(READY_FRAME) + e.output)
      else Exit(if Crashes(ParseFrame(input), rules) then 1 else 2, [])
    case _ => Exit(2, [])
  }

  ghost predicate AreData(fs: seq<Frame>, rules: Rules) {
    forall i | 0 <= i < |fs| :: IsData(fs[i], rules)
  }

  function Echo(last: Frame): seq<Frame> {
    if last.kind == END then [last] else []
  }

  lemma ServeStep(f: Frame, rest: Bytes, rules: Rules)
    ensures var e, r := Serve(Encode(f) + rest, rules), Serve(rest, rules);
      e == if IsData(f, rules) then Exit(r.code, Encode(f) + r.output)
           else if IsLast(f) then Exit(0, Stream(Echo(f), []))
           else Exit(2, [])
  {
    EncodedFrameParses(f, rest);
    hide Encode, ParseFrame;
    StreamFirst(f, [], []);
    assert Stream(Echo(f), []) == if f.kind == END then Encode(f) else [];
  }

  lemma ServeStops(input: Bytes, rules: Rules)
    requires !ParseFrame(input).Parsed?
    ensures Serve(input, rules) == Exit(2, [])
  {
  }

  lemma {:induction false} ServesConversations(data: seq<Frame>, last: Frame, rest: Bytes, rules: Rules)
    requires AreData(data, rules) && IsLast(last)
    ensures Serve(Stream(data, Encode(last) + rest), rules) == Exit(0, Stream(data, Stream(Echo(last), [])))
  {
    if data == [] {
      ServeStep(last, rest, rules);
    } else {
      hide Encode, Serve, Echo;
      ServeStep(data[0], Stream(data[1..], Encode(last) + rest), rules);
      ServesConversations(data[1..], last, rest, rules);
    }
  }

  /** Whatever the input, the loop echoes the data frames it has read, in order. */
  lemma {:induction false} ServeEchoes(input: Bytes, rules: Rules) returns (data: seq<Frame>, last: seq<Frame>, rest: Bytes)
    ensures AreData(data, rules) && |last| <= 1 && forall f | f in last :: IsLast(f)
    ensures input == Stream(data, Stream(last, rest))
    ensures Serve(input, rules) == if last == [] then Exit(2, Stream(data, [])) else Exit(0, Stream(data, Stream(Echo(last[0]), [])))
    decreases |input|
  {
    data, last, rest := [], [], input;
    var p := ParseFrame(input);
    if p.Parsed? {
      ParsedFrameWasEncoded(input);
      hide Encode, ParseFrame, Serve, Echo, IsData, IsLast;
      var f := p.frame;
      ServeStep(f, p.rest, rules);
      if IsData(f, rules) {
        var d;
        d, last, rest := ServeEchoes(p.rest, rules);
        data := [f] + d;
        assert data[1..] == d;
      } else if IsLast(f) {
        last, rest := [f], p.rest;
        StreamFirst(f, [], p.rest);
      }
    } else {
      ServeStops(input, rules);
    }
  }

  /** HELLO, then data frames, then an empty END or CANCEL; what follows is never looked at. */
  ghost predicate IsConversation(input: Bytes, hello: Frame, data: seq<Frame>, last: Frame, rest: Bytes, rules: Rules) {
    && IsHello(hello, rules) && AreData(data, rules) && IsLast(last)
    && input == Stream([hello] + data + [last], rest)
  }

  /** READY, the same data frames, and END after END. */
  function Answer(data: seq<Frame>, last: Frame): Bytes {
    Stream([READY_FRAME] + data + Echo(last), [])
  }

  lemma Flatten(f: Frame, data: seq<Frame>, gs: seq<Frame>, rest: Bytes)
    ensures Stream([f] + data + gs, rest) == Encode(f) + Stream(data, Stream(gs, rest))
  {
    hide Encode;
    assert [f] + data + gs == [f] + (data + gs);
    StreamFirst(f, data + gs, rest);
    StreamAppends(data, gs, rest);
  }

  lemma AcceptedIsConversation(input: Bytes, rules: Rules)
    requires Adapt(input, rules).code == 0
    ensures exists hello, data, last, rest :: IsConversation(input, hello, data, last, rest, rules)
  {
    var p := ParseFrame(input);
    ParsedFrameWasEncoded(input);
    var data, last, rest := ServeEchoes(p.rest, rules);
    assert last != [] && last == [last[0]] && IsLast(last[0]) && IsHello(p.frame, rules);
    hide Encode, ParseFrame, IsHello, IsLast, AreData, Stream;
    Flatten(p.frame, data, last, rest);
    assert IsConversation(input, p.frame, data, last[0], rest, rules);
  }

  lemma AdaptStep(f: Frame, rest: Bytes, rules: Rules)
    requires IsHello(f, rules)
    ensures Adapt(Encode(f) + rest, rules) == Exit(Serve(rest, rules).code, Encode(READY_FRAME) + Serve(rest, rules).output)
  {
    EncodedFrameParses(f, rest);
    hide Encode, ParseFrame;
  }

  lemma AdaptDecides(input: Bytes, rules: Rules)
    ensures var p, e := ParseFrame(input), Adapt(input, rules);
      if Crashes(p, rules) then e == Exit(1, [])
      else if !p.Parsed? || !IsHello(p.frame, rules) then e == Exit(2, [])
      else e == Exit(Serve(p.rest, rules).code, Encode(READY_FRAME) + Serve(p.rest, rules).output)
  {
    hide ParseFrame, Encode, Serve;
  }

  lemma ConversationIsAccepted(input: Bytes, hello: Frame, data: seq<Frame>, last: Frame, rest: Bytes, rules: Rules)
    requires IsConversation(input, hello, data, last, rest, rules)
    ensures Adapt(input, rules) == Exit(0, Answer(data, last))
  {
    Flatten(hello, data, [last], rest);
    StreamFirst(last, [], rest);
    hide Encode, ParseFrame, Adapt, Serve, Echo;
    AdaptStep(hello, Stream(data, Encode(last) + rest), rules);
    ServesConversations(data, last, rest, rules);
    Flatten(READY_FRAME, data, Echo(last), []);
  }

  /** Exit code 0 exactly for conversations, and then the output is the answer. */
  lemma {:induction false} AdapterAcceptsExactly(input: Bytes, rules: Rules)
    ensures Adapt(input, rules).code == 0 <==> exists hello, data, last, rest :: IsConversation(input, hello, data, last, rest, rules)
    ensures forall hello, data, last, rest | IsConversation(input, hello, data, last, rest, rules) ::
      Adapt(input, rules).output == Answer(data, last)
  {
    hide Adapt, IsConversation, Answer;
    if Adapt(input, rules).code == 0 {
      AcceptedIsConversation(input, rules);
    }
    forall hello, data, last, rest | IsConversation(input, hello, data, last, rest, rules)
      ensures Adapt(input, rules) == Exit(0, Answer(data, last))
    {
      ConversationIsAccepted(input, hello, data, last, rest, rules);
    }
  }

  /** On every input the output is whole frames: none, or READY, data frames the adapter was sent, in order, and at most an END. */
  lemma {:induction false} OutputIsWellFormed(input: Bytes, rules: Rules)
    ensures var e, out := Adapt(input, rules), DecodeAll(Adapt(input, rules).output);
      && 0 <= e.code <= 2 && (e.code == 1 <==> Crashes(ParseFrame(input), rules)) && out.Some?
      && (out.value == [] || exists data, echo, hello, rest ::
            out.value == [READY_FRAME] + data + echo && input == Stream([hello] + data, rest) && AreData(data, rules) && |echo| <= 1)
  {
    var p := ParseFrame(input);
    if p.Parsed? && IsHello(p.frame, rules) {
      ParsedFrameWasEncoded(input);
      AdaptStep(p.frame, p.rest, rules);
      hide Encode, ParseFrame, Adapt, Serve, IsData, Stream;
      var data, last, rest := ServeEchoes(p.rest, rules);
      var echo := if last == [] then [] else Echo(last[0]);
      EmptyStream();
      Flatten(READY_FRAME, data, echo, []);
      StreamFirst(p.frame, data, Stream(last, rest));
      DecodeEncode([READY_FRAME] + data + echo);
    } else {
      assert Adapt(input, rules) == Exit(if Crashes(p, rules) then 1 else 2, []);
    }
  }

  lemma EmptyStream()
    ensures forall rest :: Stream([], rest) == rest
  {
  }

  // ---------------------------------------------------------------- reading and writing

  /** read_frame: a header that may come in pieces, then the payload. */
  method ReadFrame(input: Source) returns (p: Parsed)
    modifies input
    ensures p == ParseFrame(old(input.rest))
    ensures p.Parsed? ==> input.rest == p.rest
  {
    var header := input.Read(9);
    if header == [] { return AtEnd; }
    if |header| != 9 {
      var more := input.ExactRead(9 - |header|);
      if more.None? { return Malformed; }
      header := header + more.value;
    }
    assert header == old(input.rest)[..9];
    assert old(input.rest)[5..9] == header[5..9];
    if header[..4] != MAGIC { return Malformed; }
    var kind, length := header[4], Unpack(header[5..9]);
    if !(HELLO <= kind <= CANCEL) || length > MAX_PAYLOAD { return Malformed; }
    var payload := input.ExactRead(length);
    if payload.None? { return Malformed; }
    p := Parsed(Frame(kind, payload.value), input.rest);
  }

  class EchoAdapter {
    const input: Source
    var output: Bytes
    const rules: Rules

    constructor (source: Source, r: Rules)
      ensures input == source && rules == r && output == []
    {
      input, rules, output := source, r, [];
    }

    method Send(f: Frame)
        modifies this
      ensures output == old(output) + Encode(f)
    {
      output := output + Encode(f);
    }

    /** One frame of the loop; None goes on. */
    method Handle(f: Frame) returns (code: Option<int>)
      modifies this
      ensures IsData(f, rules) ==> code == None && output == old(output) + Encode(f)
      ensures !IsData(f, rules) && IsLast(f) ==> code == Some(0) && output == old(output) + Stream(Echo(f), [])
      ensures !IsData(f, rules) && !IsLast(f) ==> code == Some(2) && output == old(output)
    {
      StreamFirst(f, [], []);
      EmptyStream();
      hide Encode;
      if f.kind == BINARY || f.kind == TEXT {
        if f.kind == TEXT && !rules.utf8(f.payload) { return Some(2); }
        Send(f);
        code := None;
      } else if f.kind == END {
        if f.payload != [] { return Some(2); }
        Send(f);
        code := Some(0);
      } else {
        code := Some(if f.kind == CANCEL && f.payload == [] then 0 else 2);
      }
    }

    /** The loop after READY. */
    method Loop() returns (code: int)
      modifies this, input
      ensures code == Serve(old(input.rest), rules).code
      ensures output == old(output) + Serve(old(input.rest), rules).output
    {
      hide Encode, ParseFrame, Serve, IsData, IsLast, Stream, Echo;
      while true
        invariant Serve(old(input.rest), rules).code == Serve(input.rest, rules).code
        invariant old(output) + Serve(old(input.rest), rules).output == output + Serve(input.rest, rules).output
        decreases |input.rest|
      {
        ghost var before := input.rest;
        var p := ReadFrame(input);
        if !p.Parsed? {
          ServeStops(before, rules);
          return 2;
        }
        ParsedFrameWasEncoded(before);
        ServeStep(p.frame, p.rest, rules);
        var r := Handle(p.frame);
        if r.Some? { return r.value; }
      }
    }

    /** main and the handler around it: however the input is cut up, the exit code and the output are those of Adapt. */
    method Run() returns (code: int)
      requires output == []
      modifies this, input
      ensures code == Adapt(old(input.rest), rules).code
      ensures output == Adapt(old(input.rest), rules).output
    {
      hide Adapt, Encode, ParseFrame, Serve, IsHello, Crashes;
      ghost var before := input.rest;
      var first := ReadFrame(input);
      AdaptDecides(before, rules);
      if Crashes(first, rules) { return 1; }
      if !first.Parsed? || !IsHello(first.frame, rules) { return 2; }
      Send(READY_FRAME);
      code := Loop();
    }
  }
}

module BrokerMessages {
  import opened Wrappers
  import opened ByteStreams

  const MAX_MESSAGE := 16384
  const RESPONSE_MAX := 4096

  datatype Received = Truncated | BadLength | NotUtf8 | Message(payload: Bytes, rest: Bytes)

  /** recv_message up to strict_json, on all the bytes the peer will send. */
  function ParseMessage(input: Bytes, utf8: Bytes -> bool): Received {
    if |input| < 4 then Truncated
    else
      var length := Unpack(input[..4]);
      if length < 2 || length > MAX_MESSAGE then BadLength
      else if |input| < 4 + length then Truncated
      else if !utf8(input[4..4 + length]) then NotUtf8
      else Message(input[4..4 + length], input[4 + length..])
  }

  /** send_message; None is the RuntimeError. */
  function SendMessage(payload: Bytes): Option<Bytes> {
    if |payload| > RESPONSE_MAX then None else Some(Pack(|payload|) + payload)
  }

  method ReceiveMessage(sock: Source, utf8: Bytes -> bool) returns (r: Received)
    modifies sock
    ensures r == ParseMessage(old(sock.rest), utf8)
    ensures r.Message? ==> sock.rest == r.rest
  {
    var header := sock.RecvExact(4);
    if header.None? { return Truncated; }
    var length := Unpack(header.value);
    if length < 2 || length > MAX_MESSAGE { return BadLength; }
    assert sock.rest == old(sock.rest)[4..];
    var payload := sock.RecvExact(length);
    if payload.None? { return Truncated; }
    assert payload.value == old(sock.rest)[4..4 + length];
    if !utf8(payload.value) { return NotUtf8; }
    r := Message(payload.value, sock.rest);
  }

  /** What one side sends the other receives, whole and alone, for every text of at least two bytes. */
  lemma {:induction false} SentMessageIsReceived(payload: Bytes, rest: Bytes, utf8: Bytes -> bool)
    requires SendMessage(payload).Some?
    ensures ParseMessage(SendMessage(payload).value + rest, utf8) == Message(payload, rest) <==> |payload| >= 2 && utf8(payload)
  {
    var b := SendMessage(payload).value + rest;
    UnpackPack(|payload|);
    assert b[..4] == Pack(|payload|) && b[4..4 + |payload|] == payload && b[4 + |payload|..] == rest;
  }

  /** A message accepted is one length prefix and the bytes it announces. */
  lemma {:induction false} ReceivedMessageWasFramed(input: Bytes, utf8: Bytes -> bool)
    ensures ParseMessage(input, utf8).Message? <==> exists payload, rest ::
      2 <= |payload| <= MAX_MESSAGE && utf8(payload) && input == Pack(|payload|) + payload + rest
    ensures ParseMessage(input, utf8).Message? ==>
      var m := ParseMessage(input, utf8); 2 <= |m.payload| <= MAX_MESSAGE && input == Pack(|m.payload|) + m.payload + m.rest
  {
    if ParseMessage(input, utf8).Message? {
      var m := ParseMessage(input, utf8);
      PackUnpack(input[..4]);
      assert input == input[..4] + m.payload + m.rest;
    }
    forall payload: Bytes, rest: Bytes | 2 <= |payload| <= MAX_MESSAGE && utf8(payload) && input == Pack(|payload|) + payload + rest
      ensures ParseMessage(input, utf8).Message?
    {
      UnpackPack(|payload|);
      assert input[..4] == Pack(|payload|) && input[4..4 + |payload|] == payload;
    }
  }
}
