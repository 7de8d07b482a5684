/**
 * The .NET client: fragments to messages, the early queue before readiness, ordered
 * receive, and close (packages/gpulink-dotnet/GPULink.Client).
 */
module DotnetFrames {
  import opened ByteStreams
  import opened Wrappers

  const MAX_FRAME := 1048576
  const MAX_BUFFERED := 4194304
  const MAX_EARLY := 256

  datatype Kind = Text | Binary | Close

  /** One result of ClientWebSocket.ReceiveAsync. */
  datatype Fragment = Fragment(kind: Kind, data: Bytes, endOfMessage: bool)

  datatype Message = Message(isBinary: bool, payload: Bytes)

  datatype Failure = Interrupted | EndOfStream | InvalidData | NotUtf8

  datatype Frame = Frame(message: Message, rest: seq<Fragment>) | Broken(why: Failure)

  /** Strict UTF-8 is decided outside the model. */
  type Utf8 = Bytes -> bool

  function Concat(fs: seq<Fragment>): Bytes {
    if fs == [] then [] else fs[0].data + Concat(fs[1..])
  }

  /** ReadFrameAsync with some fragments already read; the connection breaks where the wire ends. */
  function Assemble(wire: seq<Fragment>, kind: Option<Kind>, got: Bytes, utf8: Utf8): (r: Frame)
    ensures r.Frame? ==> |r.rest| < |wire|
  {
    if wire == [] then Broken(Interrupted)
    else
      var f := wire[0];
      if f.kind == Close then Broken(EndOfStream)
      else if kind.Some? && kind.value != f.kind then Broken(InvalidData)
      else if |f.data| > MAX_FRAME - |got| then Broken(InvalidData)
      else if !f.endOfMessage then Assemble(wire[1..], Some(f.kind), got + f.data, utf8)
      else if f.kind == Text && !utf8(got + f.data) then Broken(NotUtf8)
      else Frame(Message(f.kind == Binary, got + f.data), wire[1..])
  }

  /** The rest of a message of which some bytes have been read. */
  ghost predicate Completes(fs: seq<Fragment>, kind: Option<Kind>, got: Bytes, m: Message, utf8: Utf8) {
    && fs != [] && (kind.Some? ==> kind.value == (if m.isBinary then Binary else Text))
    && (forall i | 0 <= i < |fs| :: fs[i].kind == (if m.isBinary then Binary else Text) && (fs[i].endOfMessage <==> i == |fs| - 1))
    && m.payload == got + Concat(fs) && |m.payload| <= MAX_FRAME && (m.isBinary || utf8(m.payload))
  }

  /** One whole message on the wire: all its fragments of one type, the last one marked. */
  ghost predicate IsMessage(fs: seq<Fragment>, m: Message, utf8: Utf8) {
    Completes(fs, None, [], m, utf8)
  }

  lemma {:induction false} AssembledCompletes(wire: seq<Fragment>, kind: Option<Kind>, got: Bytes, utf8: Utf8) returns (fs: seq<Fragment>)
    requires Assemble(wire, kind, got, utf8).Frame?
    ensures var r := Assemble(wire, kind, got, utf8); Completes(fs, kind, got, r.message, utf8) && wire == fs + r.rest
  {
    var f := wire[0];
    if f.endOfMessage {
      fs := [f];
      assert Concat(fs) == f.data + Concat([]);
    } else {
      var tail := AssembledCompletes(wire[1..], Some(f.kind), got + f.data, utf8);
      fs := [f] + tail;
      assert fs[1..] == tail;
      assert forall i | 0 < i < |fs| :: fs[i] == tail[i - 1];
    }
  }

  lemma {:induction false} CompletesAssembles(fs: seq<Fragment>, rest: seq<Fragment>, kind: Option<Kind>, got: Bytes, m: Message, utf8: Utf8)
    requires Completes(fs, kind, got, m, utf8)
    ensures Assemble(fs + rest, kind, got, utf8) == Frame(m, rest)
    decreases |fs|
  {
    var f := fs[0];
    assert (fs + rest)[0] == f && (fs + rest)[1..] == fs[1..] + rest;
    if f.endOfMessage {
      assert fs[1..] + rest == rest;
      assert Concat(fs) == f.data;
    } else {
      assert got + (f.data + Concat(fs[1..])) == (got + f.data) + Concat(fs[1..]);
      assert forall i | 0 <= i < |fs| - 1 :: fs[1..][i] == fs[i + 1];
      CompletesAssembles(fs[1..], rest, Some(f.kind), got + f.data, m, utf8);
    }
  }

  /** A frame is read exactly when the wire starts with one whole message of one type, at most 1 MiB long. */
  lemma {:induction false} FramesAreMessages(wire: seq<Fragment>, m: Message, rest: seq<Fragment>, utf8: Utf8)
    ensures Assemble(wire, None, [], utf8) == Frame(m, rest) <==> exists fs :: IsMessage(fs, m, utf8) && wire == fs + rest
  {
    if Assemble(wire, None, [], utf8) == Frame(m, rest) {
      var fs := AssembledCompletes(wire, None, [], utf8);
      assert IsMessage(fs, m, utf8) && wire == fs + rest;
    }
    forall fs | IsMessage(fs, m, utf8) && wire == fs + rest ensures Assemble(wire, None, [], utf8) == Frame(m, rest) {
      CompletesAssembles(fs, rest, None, [], m, utf8);
    }
  }

  /** The messages of a wire, up to the first thing that is not one. */
  function Messages(wire: seq<Fragment>, utf8: Utf8): seq<Message>
    decreases |wire|
  {
    var r := Assemble(wire, None, [], utf8);
    if r.Frame? then [r.message] + Messages(r.rest, utf8) else []
  }

  // ---------------------------------------------------------------- the early queue

  const READY: Bytes := Ascii("gpulink.relay.ready.v2")

  predicate IsReady(m: Message) { !m.isBinary && m.payload == READY }

  function Size(ms: seq<Message>): nat {
    if ms == [] then 0 else Size(ms[..|ms| - 1]) + |ms[|ms| - 1].payload|
  }

  datatype Connection = Connected(early: seq<Message>, rest: seq<Fragment>) | Refused(why: Failure)

  /** The loop of ConnectAsync with some frames already queued. */
  function Connect(wire: seq<Fragment>, early: seq<Message>, utf8: Utf8): Connection
    decreases |wire|
  {
    match Assemble(wire, None, [], utf8)
    case Broken(why) => Refused(why)
    case Frame(m, rest) =>
      if IsReady(m) then Connected(early, rest)
      else if |early| >= MAX_EARLY || Size(early) + |m.payload| > MAX_BUFFERED then Refused(InvalidData)
      else Connect(rest, early + [m], utf8)
  }

  ghost predicate ReadyAt(ms: seq<Message>, k: nat) {
    k < |ms| && IsReady(ms[k]) && forall i | 0 <= i < k :: !IsReady(ms[i])
  }

  lemma {:induction false} SizeGrows(ms: seq<Message>, more: seq<Message>)
    ensures Size(ms) <= Size(ms + more)
    decreases |more|
  {
    if more == [] {
      assert ms + more == ms;
    } else {
      var n := |more| - 1;
      SizeGrows(ms, more[..n]);
      assert (ms + more)[..|ms + more| - 1] == ms + more[..n];
    }
  }

  lemma ConnectStep(wire: seq<Fragment>, early: seq<Message>, utf8: Utf8)
    requires Messages(wire, utf8) != []
    ensures var ms, r := Messages(wire, utf8), Assemble(wire, None, [], utf8);
      && r.Frame? && |r.rest| < |wire| && Messages(r.rest, utf8) == ms[1..]
      && Connect(wire, early, utf8) ==
         if IsReady(ms[0]) then Connected(early, r.rest)
         else if |early| >= MAX_EARLY || Size(early + [ms[0]]) > MAX_BUFFERED then Refused(InvalidData)
         else Connect(r.rest, early + [ms[0]], utf8)
  {
    assert (early + [Messages(wire, utf8)[0]])[..|early|] == early;
  }

  /** What Connect gives when READY comes after k messages. */
  ghost predicate ConnectsAfter(c: Connection, early: seq<Message>, ms: seq<Message>, k: nat, utf8: Utf8)
    requires k < |ms|
  {
    if |early| + k <= MAX_EARLY && Size(early + ms[..k]) <= MAX_BUFFERED
    then c.Connected? && c.early == early + ms[..k] && Messages(c.rest, utf8) == ms[k + 1..]
    else c == Refused(InvalidData)
  }

  lemma ConnectsLater(c: Connection, early: seq<Message>, ms: seq<Message>, k: nat, utf8: Utf8)
    requires 0 < k < |ms|
    ensures ConnectsAfter(c, early + [ms[0]], ms[1..], k - 1, utf8) == ConnectsAfter(c, early, ms, k, utf8)
  {
    hide Size, Messages;
    assert early + ms[..k] == early + [ms[0]] + ms[1..][..k - 1];
    assert ms[k + 1..] == ms[1..][k..];
  }

  lemma ReadyLater(ms: seq<Message>, k: nat)
    requires ReadyAt(ms, k) && k > 0
    ensures ReadyAt(ms[1..], k - 1) && !IsReady(ms[0])
  {
    hide IsReady;
    assert forall i | 0 <= i < k - 1 :: ms[1..][i] == ms[i + 1];
  }

  lemma {:induction false} ConnectFrom(wire: seq<Fragment>, early: seq<Message>, k: nat, utf8: Utf8)
    requires |early| <= MAX_EARLY && Size(early) <= MAX_BUFFERED && ReadyAt(Messages(wire, utf8), k)
    ensures ConnectsAfter(Connect(wire, early, utf8), early, Messages(wire, utf8), k, utf8)
    decreases |wire|
  {
    var ms, r := Messages(wire, utf8), Assemble(wire, None, [], utf8);
    ConnectStep(wire, early, utf8);
    hide Connect, Messages, Assemble, IsReady, Size;
    if k == 0 {
      assert early + ms[..0] == early;
    } else {
      var next := early + [ms[0]];
      ReadyLater(ms, k);
      ConnectsLater(Connect(wire, early, utf8), early, ms, k, utf8);
      SizeGrows(next, ms[1..][..k - 1]);
      if |early| < MAX_EARLY && Size(next) <= MAX_BUFFERED {
        hide ConnectsAfter, ReadyAt;
        ConnectFrom(r.rest, next, k - 1, utf8);
      }
    }
  }

  lemma {:induction false} NoReadyNoConnection(wire: seq<Fragment>, early: seq<Message>, utf8: Utf8)
    requires forall i | 0 <= i < |Messages(wire, utf8)| :: !IsReady(Messages(wire, utf8)[i])
    ensures Connect(wire, early, utf8).Refused?
    decreases |wire|
  {
    var ms, r := Messages(wire, utf8), Assemble(wire, None, [], utf8);
    if r.Frame? {
      assert r.message == ms[0];
      assert forall i | 0 <= i < |ms| - 1 :: Messages(r.rest, utf8)[i] == ms[i + 1];
      NoReadyNoConnection(r.rest, early + [r.message], utf8);
    }
  }

  lemma FirstReady(ms: seq<Message>) returns (k: nat)
    ensures ReadyAt(ms, k) || (k == |ms| && forall i | 0 <= i < |ms| :: !IsReady(ms[i]))
  {
    k := 0;
    while k < |ms| && !IsReady(ms[k])
      invariant k <= |ms| && forall i | 0 <= i < k :: !IsReady(ms[i])
    {
      k := k + 1;
    }
  }

  /**
   * A connection is made exactly when READY comes after at most 256 messages of at most
   * 4 MiB together; those are the early queue, and what follows READY stays on the wire.
   */
  lemma {:induction false} ConnectsExactly(wire: seq<Fragment>, utf8: Utf8)
    ensures var ms, c := Messages(wire, utf8), Connect(wire, [], utf8);
      c.Connected? <==> exists k: nat :: ReadyAt(ms, k) && k <= MAX_EARLY && Size(ms[..k]) <= MAX_BUFFERED
    ensures var ms, c := Messages(wire, utf8), Connect(wire, [], utf8);
      c.Connected? ==> ReadyAt(ms, |c.early|) && c.early == ms[..|c.early|] && Messages(c.rest, utf8) == ms[|c.early| + 1..]
  {
    var ms := Messages(wire, utf8);
    hide Messages, Connect;
    var k := FirstReady(ms);
    if k == |ms| {
      NoReadyNoConnection(wire, [], utf8);
    } else {
      ConnectFrom(wire, [], k, utf8);
      assert [] + ms[..k] == ms[..k];
      forall j: nat | ReadyAt(ms, j) ensures j == k {
        assert !(j < k) && !(k < j);
      }
    }
  }

  // ---------------------------------------------------------------- receiving

  datatype Session = Session(early: seq<Message>, wire: seq<Fragment>, closing: bool)

  datatype Received = Got(message: Message) | Failed(why: Failure) | DuplicateReady | NotOpen | Cancelled

  /** When the caller's token fires: before the call takes the receive lock, or while it waits for the socket. */
  datatype Cancellation = Never | BeforeTaking | WhileReading

  /**
   * ReceiveAsync by itself. A cancelled read leaves an aborted socket, with nothing more
   * to read, as ClientWebSocket does, and a session that has not closed; every other
   * failure closes.
   */
  function Receive(s: Session, cancel: Cancellation, utf8: Utf8): (Received, Session) {
    if cancel.BeforeTaking? then (Cancelled, s)
    else if s.closing then (NotOpen, s)
    else if s.early != [] then
      if IsReady(s.early[0]) then (DuplicateReady, s.(early := s.early[1..], closing := true))
      else (Got(s.early[0]), s.(early := s.early[1..]))
    else if cancel.WhileReading? then (Cancelled, s.(wire := []))
    else
      match Assemble(s.wire, None, [], utf8)
      case Broken(why) => (Failed(why), s.(closing := true))
      case Frame(m, rest) =>
        if IsReady(m) then (DuplicateReady, s.(wire := rest, closing := true)) else (Got(m), s.(wire := rest))
  }

  datatype Call = ReceiveCall(cancel: Cancellation) | CloseCall

  function Returned(s: Session, calls: seq<Call>, utf8: Utf8): seq<Message>
    decreases |calls|
  {
    if calls == [] then []
    else if calls[0] == CloseCall then Returned(s.(closing := true), calls[1..], utf8)
    else
      var (r, t) := Receive(s, calls[0].cancel, utf8);
      (if r.Got? then [r.message] else []) + Returned(t, calls[1..], utf8)
  }

  function UpToReady(ms: seq<Message>): (r: seq<Message>)
    ensures r <= ms && forall i | 0 <= i < |r| :: !IsReady(r[i])
    ensures |r| < |ms| ==> IsReady(ms[|r|])
  {
    if ms == [] || IsReady(ms[0]) then [] else [ms[0]] + UpToReady(ms[1..])
  }

  /** How many of `all` messages ahead, the first `queued` of them in the early queue, the calls fetch. */
  function Fetched(calls: seq<Call>, queued: nat, all: nat): (n: nat)
    ensures n <= all
    decreases |calls|
  {
    if calls == [] || calls[0] == CloseCall then 0
    else if calls[0].cancel.BeforeTaking? then Fetched(calls[1..], queued, all)
    else if all == 0 || (queued == 0 && calls[0].cancel.WhileReading?) then 0
    else 1 + Fetched(calls[1..], if queued == 0 then 0 else queued - 1, all - 1)
  }

  function Ahead(s: Session, utf8: Utf8): seq<Message> { s.early + Messages(s.wire, utf8) }

  /** Nothing can come from the session any more. */
  predicate Spent(s: Session) {
    s.closing || (s.early == [] && s.wire == [])
  }

  lemma {:induction false} SpentReturnsNothing(s: Session, calls: seq<Call>, utf8: Utf8)
    requires Spent(s)
    ensures Returned(s, calls, utf8) == []
    decreases |calls|
  {
    if calls != [] {
      if calls[0] == CloseCall {
        SpentReturnsNothing(s.(closing := true), calls[1..], utf8);
      } else {
        SpentReturnsNothing(Receive(s, calls[0].cancel, utf8).1, calls[1..], utf8);
      }
    }
  }

  lemma ReceiveStep(s: Session, cancel: Cancellation, utf8: Utf8)
    requires !s.closing && !cancel.BeforeTaking?
    ensures var (r, t) := Receive(s, cancel, utf8); var ms := UpToReady(Ahead(s, utf8));
      if ms == [] || (s.early == [] && cancel.WhileReading?) then !r.Got? && Spent(t)
      else r == Got(ms[0]) && !t.closing && UpToReady(Ahead(t, utf8)) == ms[1..]
           && |t.early| == (if s.early == [] then 0 else |s.early| - 1)
  {
    var ms := Ahead(s, utf8);
    if s.early != [] {
      assert ms[0] == s.early[0] && ms[1..] == s.early[1..] + Messages(s.wire, utf8);
    } else {
      assert ms == Messages(s.wire, utf8);
      var r := Assemble(s.wire, None, [], utf8);
      if r.Frame? {
        assert [] + Messages(r.rest, utf8) == Messages(r.rest, utf8);
      }
    }
  }

  /** What an application is given: the messages ahead, in order, until READY comes again, the wire fails, a read is cancelled, or it closes. */
  lemma {:induction false} ReturnedInOrder(s: Session, calls: seq<Call>, utf8: Utf8)
    requires !s.closing
    ensures var ms := UpToReady(Ahead(s, utf8)); Returned(s, calls, utf8) == ms[..Fetched(calls, |s.early|, |ms|)]
    decreases |calls|
  {
    if calls != [] {
      if calls[0] == CloseCall {
        SpentReturnsNothing(s.(closing := true), calls[1..], utf8);
      } else if calls[0].cancel.BeforeTaking? {
        ReturnedInOrder(s, calls[1..], utf8);
      } else {
        ReceiveStep(s, calls[0].cancel, utf8);
        var (r, t) := Receive(s, calls[0].cancel, utf8);
        hide Receive, UpToReady, Ahead, Spent;
        if r.Got? { ReturnedInOrder(t, calls[1..], utf8); } else { SpentReturnsNothing(t, calls[1..], utf8); }
      }
    }
  }

  function Without(ms: seq<Message>, k: nat): seq<Message>
    requires k < |ms|
  {
    ms[..k] + ms[k + 1..]
  }

  /** From connection on: the wire's messages without the first READY, in order, as many as were asked for, and never a READY. */
  lemma {:induction false} ReceivesRefineTheWire(wire: seq<Fragment>, calls: seq<Call>, utf8: Utf8)
    requires Connect(wire, [], utf8).Connected?
    ensures var c, ms := Connect(wire, [], utf8), Messages(wire, utf8);
      && ReadyAt(ms, |c.early|)
      && var due := UpToReady(Without(ms, |c.early|));
         && |due| >= |c.early|
         && Returned(Session(c.early, c.rest, false), calls, utf8) == due[..Fetched(calls, |c.early|, |due|)]
  {
    ConnectsExactly(wire, utf8);
    var c, ms := Connect(wire, [], utf8), Messages(wire, utf8);
    hide Messages, Connect;
    var s := Session(c.early, c.rest, false);
    assert Ahead(s, utf8) == Without(ms, |c.early|);
    var due := UpToReady(Without(ms, |c.early|));
    assert forall i | 0 <= i < |c.early| :: Without(ms, |c.early|)[i] == ms[i];
    ReturnedInOrder(s, calls, utf8);
  }

  /** Every message is within 1 MiB, and text is UTF-8. */
  lemma {:induction false} MessagesAreBounded(wire: seq<Fragment>, utf8: Utf8)
    ensures forall m | m in Messages(wire, utf8) :: |m.payload| <= MAX_FRAME && (m.isBinary || utf8(m.payload))
    decreases |wire|
  {
    var r := Assemble(wire, None, [], utf8);
    if r.Frame? {
      var fs := AssembledCompletes(wire, None, [], utf8);
      MessagesAreBounded(r.rest, utf8);
    }
  }
}

/** CloseAsync and ReleaseAsync: one cached task, cleared when its release fails. */
module DotnetRelease {

  /** How far the release delegate gets before it hands back its task. */
  datatype Start = Yields | SucceedsAtOnce | FailsAtOnce

  datatype Task = NoTask | Running | Succeeded | Faulted

  /** The cached task; counts of releases started, finished well, and failed. */
  datatype State = State(cached: Task, started: nat, good: nat, bad: nat)

  datatype Label = Close(start: Start) | Settle(ok: bool)

  const INIT := State(NoTask, 0, 0, 0)

  /**
   * `_closeTask ??= ReleaseAsync()` under the lock, and the end of a release that yielded.
   * A release that fails at once clears the cache before the assignment fills it.
   */
  function Step(s: State, l: Label): State {
    match l
    case Close(start) =>
      if s.cached != NoTask then s
      else (match start
        case Yields => s.(cached := Running, started := s.started + 1)
        case SucceedsAtOnce => s.(cached := Succeeded, started := s.started + 1, good := s.good + 1)
        case FailsAtOnce => s.(cached := Faulted, started := s.started + 1, bad := s.bad + 1))
    case Settle(ok) =>
      if s.cached != Running then s
      else if ok then s.(cached := Succeeded, good := s.good + 1)
      else s.(cached := NoTask, bad := s.bad + 1)
  }

  function Run(labels: seq<Label>): State {
    if labels == [] then INIT else Step(Run(labels[..|labels| - 1]), labels[|labels| - 1])
  }

  function InFlight(s: State): int { s.started - s.good - s.bad }

  ghost predicate Inv(s: State) {
    && InFlight(s) == (if s.cached == Running then 1 else 0)
    && s.good == (if s.cached == Succeeded then 1 else 0)
    && (s.cached == Faulted ==> s.bad > 0)
  }

  lemma {:induction false} RunKeepsInv(labels: seq<Label>)
    ensures Inv(Run(labels))
  {
    if labels != [] { RunKeepsInv(labels[..|labels| - 1]); }
  }

  /** Some Close call started a release that failed before yielding. */
  ghost predicate FailedAtOnce(labels: seq<Label>) {
    exists i {:trigger labels[i]} | 0 <= i < |labels| :: labels[i] == Close(FailsAtOnce) && Run(labels[..i]).cached == NoTask
  }

  lemma {:induction false} FaultedIffFailedAtOnce(labels: seq<Label>)
    ensures Run(labels).cached == Faulted <==> FailedAtOnce(labels)
  {
    if labels != [] {
      var n := |labels| - 1;
      FaultedIffFailedAtOnce(labels[..n]);
      assert forall i | 0 <= i < n :: labels[..n][..i] == labels[..i] && labels[..n][i] == labels[i];
      if FailedAtOnce(labels[..n]) {
        var i :| 0 <= i < n && labels[..n][i] == Close(FailsAtOnce) && Run(labels[..n][..i]).cached == NoTask;
        assert labels[i] == Close(FailsAtOnce);
      }
    }
  }

  /**
   * In every run at most one release is in flight and at most one succeeds. A Close call
   * starts a release exactly when none is in flight, none has succeeded, and none has
   * failed before yielding: that last failure is what the explicit retry does not cover.
   */
  lemma {:induction false} ReleaseIsSingleFlight(labels: seq<Label>, start: Start)
    ensures var s := Run(labels);
      && InFlight(s) <= 1 && s.good <= 1 && s.good + s.bad <= s.started <= s.good + s.bad + 1
      && (Step(s, Close(start)).started == s.started + 1 <==> InFlight(s) == 0 && s.good == 0 && !FailedAtOnce(labels))
      && (Step(s, Close(start)).started == s.started || Step(s, Close(start)).started == s.started + 1)
  {
    RunKeepsInv(labels);
    FaultedIffFailedAtOnce(labels);
    hide Run, FailedAtOnce;
  }

  lemma {:induction false} StuckFor(labels: seq<Label>, more: seq<Label>)
    requires FailedAtOnce(labels)
    ensures Run(labels + more) == Run(labels)
    decreases |more|
  {
    FaultedIffFailedAtOnce(labels);
    if more == [] {
      assert labels + more == labels;
    } else {
      StuckFor(labels, more[..|more| - 1]);
      assert (labels + more)[..|labels + more| - 1] == labels + more[..|more| - 1];
    }
  }

  /** A release failing at once is the end: no later call releases the session, however often it is made. */
  lemma {:induction false} RetryIsLost(more: seq<Label>)
    ensures Run([Close(FailsAtOnce)] + more).started == 1 && Run([Close(FailsAtOnce)] + more).good == 0
  {
    var one := [Close(FailsAtOnce)];
    assert one[..0] == [] && one[..|one| - 1] == [];
    assert one[0] == Close(FailsAtOnce) && Run(one[..0]).cached == NoTask;
    StuckFor(one, more);
  }

  /** If every release yields first, each Close after a failure starts a new one, until one succeeds. */
  lemma {:induction false} YieldingReleasesRetry(labels: seq<Label>)
    requires forall i | 0 <= i < |labels| :: labels[i] != Close(FailsAtOnce)
    ensures InFlight(Run(labels)) == 0 && Run(labels).good == 0
      <==> Step(Run(labels), Close(Yields)).started == Run(labels).started + 1
  {
    ReleaseIsSingleFlight(labels, Yields);
  }
}
