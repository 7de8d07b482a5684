/**
 * The two mutable objects of the client, with the fields of
 * packages/gpulink-sdk/src/session.ts and of the handshake closure in data-plane.ts.
 * Each method is one stretch of source code between two calls into the application,
 * and is tied to the transition that SdkRuntime takes for it.
 */
module SdkObjects {
  import opened Payloads
  import opened OrderedSets
  import opened SessionCore
  import Runtime = SdkRuntime

  class GPULinkSession {
    var messageListeners: seq<Listener>
    var errorListeners: seq<Listener>
    var errors: seq<ErrorCode>
    var pending: seq<Payload>
    var pendingBytes: nat
    var flushQueued: bool
    var draining: bool
    var closing: bool
    var closePromise: bool

    ghost function View(): Session
      reads this
    {
      Session(messageListeners, errorListeners, errors, pending, pendingBytes, flushQueued, draining, closing, closePromise)
    }

    constructor ()
      ensures View() == FRESH
    {
      messageListeners, errorListeners, errors, pending, pendingBytes := [], [], [], [], 0;
      flushQueued, draining, closing, closePromise := false, false, false, false;
    }

    method QueueFlush() returns (queued: seq<Microtask>)
      modifies this`flushQueued
      ensures (View(), queued) == ScheduleFlush(old(View()))
    {
      queued := [];
      if messageListeners == [] || pending == [] || flushQueued { return; }
      flushQueued := true;
      queued := [FlushPending];
    }

    /** The stream listener installed by the constructor, up to its first call into the application. */
    method Receive(message: Payload) returns (verdict: Verdict, queued: seq<Microtask>)
      modifies this`pending, this`pendingBytes, this`flushQueued
      ensures verdict == Triage(old(View()), message)
      ensures (View(), queued) == if verdict.Buffer? then Enqueue(old(View()), message) else (old(View()), [])
    {
      queued := [];
      if closing { return Ignore, []; }
      if messageListeners != [] && !flushQueued && !draining && pending == [] { return DeliverNow, []; }
      var length := ByteLength(message);
      if |pending| >= MAX_PENDING_FRAMES || pendingBytes + length > MAX_BUFFERED_BYTES { return Overflow, []; }
      pending := pending + [message];
      pendingBytes := pendingBytes + length;
      queued := QueueFlush();
      verdict := Buffer;
    }

    /** onMessage; rejected once the session is closing. */
    method OnMessage(listener: Listener) returns (accepted: bool, queued: seq<Microtask>)
      modifies this`messageListeners, this`flushQueued
      ensures accepted == !old(closing)
      ensures (View(), queued) == SessionCore.Subscribe(old(View()), listener)
    {
      if closing { return false, []; }
      messageListeners := Insert(messageListeners, listener);
      queued := QueueFlush();
      accepted := true;
    }

    method RemoveListener(listener: Listener)
      modifies this`messageListeners
      ensures View() == SessionCore.Unsubscribe(old(View()), listener)
    {
      messageListeners := Delete(messageListeners, listener);
    }

    /** The flush callback before its loop: wake, and take the whole buffer. */
    method TakeBatch() returns (batch: seq<Payload>)
      modifies this`flushQueued, this`pending, this`pendingBytes, this`draining
      ensures (View(), batch) == BeginFlush(old(View()))
    {
      flushQueued := false;
      if messageListeners == [] || closing { return []; }
      batch := pending;
      pending := [];
      pendingBytes := 0;
      draining := true;
    }

    method FinishBatch() returns (queued: seq<Microtask>)
      modifies this`draining, this`flushQueued
      ensures (View(), queued) == EndFlush(old(View()))
    {
      draining := false;
      queued := QueueFlush();
    }

    method RecordError(code: ErrorCode)
      modifies this`errors
      ensures View() == Record(old(View()), code)
    {
      errors := errors + [code];
      if |errors| > MAX_ERRORS { errors := errors[1..]; }
    }

    /** close(), without the transport: shares one release between concurrent callers. */
    method Close() returns (queued: seq<Microtask>)
      modifies this`closing, this`pending, this`pendingBytes, this`closePromise
      ensures (View(), queued) == SessionCore.Close(old(View()))
    {
      closing := true;
      pending := [];
      pendingBytes := 0;
      queued := [];
      if !closePromise {
        closePromise := true;
        queued := [CallRelease];
      }
    }

    method ForgetRelease()
      modifies this`closePromise
      ensures View() == ReleaseFailed(old(View()))
    {
      closePromise := false;
    }
  }

  /** The variables that openDataPlaneSocket's event handlers share, for protocol v2. */
  class RelayHandshake {
    var settled: bool
    var failed: bool
    var openedOk: bool
    var earlyBytes: nat
    var earlyMessages: seq<Payload>

    ghost function Phase(): Runtime.Phase
      reads this
    {
      if !settled then Runtime.Handshaking else if failed then Runtime.Abandoned else Runtime.Pairing
    }

    ghost predicate Mirrors(s: Runtime.System)
      reads this
    {
      && s.phase == Phase() && s.plane.openedOk == openedOk
      && s.plane.earlyBytes == earlyBytes && s.plane.early == earlyMessages
    }

    constructor ()
      ensures Mirrors(Runtime.START)
    {
      settled, failed, openedOk, earlyBytes, earlyMessages := false, false, false, 0, [];
    }

    method Finish(error: bool)
      modifies this`settled, this`failed
      ensures settled && failed == if old(settled) then old(failed) else error
    {
      if settled { return; }
      settled := true;
      failed := error;
    }

    method Opened(protocolAgreed: bool)
      modifies this
      ensures forall s: Runtime.System :: old(Mirrors(s)) && old(!settled) && s.stack == [] ==>
        Mirrors(Runtime.Step(s, Runtime.SocketOpens(protocolAgreed)))
    {
      if !protocolAgreed {
        Finish(true);
        return;
      }
      openedOk := true;
    }

    method Message(p: Payload)
      modifies this
      ensures forall s: Runtime.System :: old(Mirrors(s)) && old(!settled) ==> Mirrors(Runtime.HandshakeFrame(s, p))
    {
      if !openedOk {
        Finish(true);
      } else if IsReady(p) {
        Finish(false);
      } else if p.Foreign? {
        Finish(true);
      } else {
        var bytes := ByteLength(p);
        if bytes > MAX_FRAME_BYTES || earlyBytes + bytes > MAX_BUFFERED_BYTES {
          Finish(true);
        } else {
          earlyBytes := earlyBytes + bytes;
          earlyMessages := earlyMessages + [p];
        }
      }
    }
  }

  /** What the data-plane object does with a frame off the socket. */
  datatype Route = CloseSocket | NoListener | Forward

  /** The fields of GPULinkDataPlane; its only message listener is the session's. */
  class GPULinkDataPlane {
    var earlyMessages: seq<Payload>
    var hasListener: bool
    var closeListeners: seq<Listener>
    var closed: bool

    ghost predicate Mirrors(s: Runtime.System)
      reads this
    {
      && s.plane.early == earlyMessages && s.plane.attached == hasListener
      && s.plane.closeListeners == closeListeners && s.plane.closed == closed
    }

    constructor (early: seq<Payload>)
      ensures earlyMessages == early && !hasListener && closeListeners == [] && !closed
    {
      earlyMessages, hasListener, closeListeners, closed := early, false, [], false;
    }

    /** onMessage: the first listener takes the early frames, to be replayed by a microtask. */
    method OnMessage() returns (queued: seq<Payload>)
      requires !closed
      modifies this`hasListener, this`earlyMessages
      ensures forall s: Runtime.System :: old(Mirrors(s)) && !s.aborted && s.socketOpen ==>
        Mirrors(Runtime.BuildSession(s))
      ensures forall s: Runtime.System :: old(Mirrors(s)) && !s.aborted && s.socketOpen && queued != [] ==>
        Runtime.BuildSession(s).plane.captured == queued && Runtime.BuildSession(s).micro == s.micro + [ReplayEarly]
      ensures queued == old(earlyMessages) && earlyMessages == [] && hasListener
    {
      hasListener := true;
      queued := earlyMessages;
      earlyMessages := [];
    }

    /** The socket's message handler. */
    method Incoming(p: Payload) returns (r: Route)
      ensures forall s: Runtime.System :: Mirrors(s) ==>
        Runtime.LiveFrame(s, p) ==
          match r
          case CloseSocket => s.(socketOpen := false)
          case NoListener => s
          case Forward => Runtime.Inbound(s.(history := s.history.(received := s.history.received + [p])), p)
      ensures r.CloseSocket? <==> !IsFrame(p)
    {
      if p.Foreign? || (p.Text? && p.chars == RELAY_READY) { return CloseSocket; }
      r := if hasListener then Forward else NoListener;
    }

    /** onClose: a listener that comes too late is called at once. */
    method OnClose(l: Listener) returns (callNow: bool)
      modifies this`closeListeners
      ensures callNow == closed
      ensures closeListeners == if closed then old(closeListeners) else Insert(old(closeListeners), l)
    {
      if closed { return true; }
      closeListeners := Insert(closeListeners, l);
      callNow := false;
    }

    /** After the last close listener has run, nobody is left to call. */
    method Clear()
      modifies this`hasListener, this`closeListeners
      ensures forall s: Runtime.System :: old(Mirrors(s)) && s.stack != [] ==> Mirrors(Runtime.CloseNext(s, []))
    {
      hasListener := false;
      closeListeners := [];
    }
  }
}
