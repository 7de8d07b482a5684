/** The objects of the client. */
module DotnetObjects {
  import opened ByteStreams
  import opened Wrappers
  import opened DotnetFrames
  import R = DotnetRelease
  import Overlap = DotnetSession

  class Socket {
    var wire: seq<Fragment>
    var aborted: bool

    constructor (fragments: seq<Fragment>)
      ensures wire == fragments && !aborted
    {
      wire, aborted := fragments, false;
    }

    /** Nothing more is delivered, but for what a receive under way may already have. */
    method Abort(pending: bool)
      modifies this
      ensures aborted && wire == if pending && old(wire) != [] then [old(wire)[0]] else []
    {
      aborted := true;
      wire := if pending && wire != [] then [wire[0]] else [];
    }

    /** None is a WebSocketException. */
    method ReceiveFragment() returns (f: Option<Fragment>)
      modifies this`wire
      ensures if old(wire) == [] then f == None && wire == [] else f == Some(old(wire)[0]) && wire == old(wire)[1..]
    {
      if wire == [] { return None; }
      f := Some(wire[0]);
      wire := wire[1..];
    }

    method ReadFrame(utf8: Utf8) returns (r: Frame)
      modifies this`wire
      ensures r == Assemble(old(wire), None, [], utf8)
      ensures r.Frame? ==> wire == r.rest
    {
      var output: Bytes, kind: Option<Kind> := [], None;
      while true
        invariant Assemble(wire, kind, output, utf8) == Assemble(old(wire), None, [], utf8)
        decreases |wire|
      {
        var next := ReceiveFragment();
        if next.None? { return Broken(Interrupted); }
        var f := next.value;
        if f.kind == Close { return Broken(EndOfStream); }
        if kind.Some? && kind != Some(f.kind) { return Broken(InvalidData); }
        kind := Some(f.kind);
        if |f.data| > MAX_FRAME - |output| { return Broken(InvalidData); }
        output := output + f.data;
        if f.endOfMessage {
          if f.kind == Text && !utf8(output) { return Broken(NotUtf8); }
          return Frame(Message(f.kind == Binary, output), wire);
        }
      }
    }

    /** The loop of ConnectAsync; None is an exception, after which the socket is gone. */
    method AwaitReady(utf8: Utf8) returns (early: Option<seq<Message>>)
      requires !aborted
      modifies this
      ensures early.Some? <==> Connect(old(wire), [], utf8).Connected?
      ensures early.Some? ==> Connect(old(wire), [], utf8) == Connected(early.value, wire) && !aborted
      ensures early.None? ==> aborted
    {
      var queue: seq<Message>, earlyBytes := [], 0;
      while true
        invariant Connect(wire, queue, utf8) == Connect(old(wire), [], utf8) && !aborted
        invariant earlyBytes == Size(queue)
        decreases |wire|
      {
        ghost var before := wire;
        var r := ReadFrame(utf8);
        if r.Broken? { break; }
        if IsReady(r.message) { return Some(queue); }
        earlyBytes := earlyBytes + |r.message.payload|;
        if |queue| >= MAX_EARLY || earlyBytes > MAX_BUFFERED { break; }
        assert (queue + [r.message])[..|queue|] == queue;
        queue := queue + [r.message];
      }
      Abort(false);
      early := None;
    }
  }

  class GPULinkSession {
    const socket: Socket
    const utf8: Utf8
    var early: seq<Message>
    var closing: bool
    var reading: Overlap.Reading // the receive lock, and the locals of the read behind it
    var release: R.State

    ghost function View(): Session
      reads this, socket
    {
      Session(early, socket.wire, closing)
    }

    ghost predicate Mirrors(s: Overlap.State)
      reads this, socket
    {
      && s.early == early && s.wire == socket.wire && s.aborted == socket.aborted
      && s.closing == closing && s.reading == reading && s.release == release
    }

    constructor (s: Socket, u: Utf8, queued: seq<Message>)
      ensures socket == s && utf8 == u && early == queued && !closing && release == R.INIT && reading == Overlap.NotReading
    {
      socket, utf8, early, closing, release, reading := s, u, queued, false, R.INIT, Overlap.NotReading;
    }

    /** CloseAsync, also while a receive is waiting. */
    method Close(start: R.Start)
      modifies this`closing, this`release, socket
      ensures closing && socket.aborted
      ensures release == R.Step(old(release), R.Close(start))
      ensures forall s: Overlap.State :: old(Mirrors(s)) ==> Mirrors(Overlap.Close(s, start))
    {
      closing := true;
      socket.Abort(reading.Reading?);
      if release.cached == R.NoTask {
        // The assignment of the returned task comes after the release has run as far as it goes.
        var task := Release(start);
        release := release.(cached := task);
      }
    }

    /** ReleaseAsync up to its first await that suspends. */
    method Release(start: R.Start) returns (task: R.Task)
      modifies this`release
      ensures task == (match start case Yields => R.Running case SucceedsAtOnce => R.Succeeded case FailsAtOnce => R.Faulted)
      ensures release.started == old(release.started) + 1
      ensures release.good == old(release.good) + (if start == R.SucceedsAtOnce then 1 else 0)
      ensures release.bad == old(release.bad) + (if start == R.FailsAtOnce then 1 else 0)
      ensures release.cached == if start == R.FailsAtOnce then R.NoTask else old(release.cached)
    {
      release := release.(started := release.started + 1);
      match start
      case Yields => task := R.Running;
      case SucceedsAtOnce =>
        release := release.(good := release.good + 1);
        task := R.Succeeded;
      case FailsAtOnce =>
        release := release.(cached := R.NoTask, bad := release.bad + 1);
        task := R.Faulted;
    }

    /** The rest of ReleaseAsync. */
    method Settle(ok: bool)
      modifies this`release
      ensures release == R.Step(old(release), R.Settle(ok))
    {
      if release.cached == R.Running {
        release := if ok then release.(cached := R.Succeeded, good := release.good + 1)
                   else release.(cached := R.NoTask, bad := release.bad + 1);
      }
    }

    /** A receive ends badly: the lock is free again and the session closes. */
    method FailReceive(start: R.Start)
      modifies this`closing, this`release, this`reading, socket
      ensures forall s: Overlap.State :: old(Mirrors(s)) ==> Mirrors(Overlap.Fail(s, start))
      ensures reading == Overlap.NotReading
    {
      reading := Overlap.NotReading;
      Close(start);
    }

    /** ReceiveAsync up to its wait for the socket; None means that it waits. */
    method BeginReceive(cancelled: bool, start: R.Start) returns (r: Option<Received>)
      modifies this, socket
      ensures forall s: Overlap.State :: old(Mirrors(s)) ==> Mirrors(Overlap.Begin(s, cancelled, start))
      ensures forall s: Overlap.State :: old(Mirrors(s)) ==>
        Overlap.Begin(s, cancelled, start).returned == if r.Some? && r.value.Got? then s.returned + [r.value.message] else s.returned
    {
      if cancelled { return Some(Cancelled); }
      if reading.Reading? || closing { return Some(NotOpen); }
      if early == [] {
        reading := Overlap.Reading(None, []);
        return None;
      }
      var frame := early[0];
      early := early[1..];
      if IsReady(frame) {
        FailReceive(start);
        return Some(DuplicateReady);
      }
      r := Some(Got(frame));
    }

    /** One turn of the fragment loop; None means that the read goes on. */
    method Arrive(start: R.Start) returns (r: Option<Received>)
      requires reading.Reading? && socket.wire != []
      modifies this, socket
      ensures forall s: Overlap.State :: old(Mirrors(s)) ==> Mirrors(Overlap.TakeFragment(s, start, utf8))
      ensures forall s: Overlap.State :: old(Mirrors(s)) ==>
        Overlap.TakeFragment(s, start, utf8).returned == if r.Some? && r.value.Got? then s.returned + [r.value.message] else s.returned
    {
      var f := socket.wire[0];
      socket.wire := socket.wire[1..];
      var output := reading.got + f.data;
      var m := Message(f.kind == Binary, output);
      var bad: Option<Received> :=
        if f.kind == Kind.Close then Some(Failed(EndOfStream))
        else if (reading.kind.Some? && reading.kind.value != f.kind) || |f.data| > MAX_FRAME - |reading.got| then Some(Failed(InvalidData))
        else if f.endOfMessage && f.kind == Text && !utf8(output) then Some(Failed(NotUtf8))
        else if f.endOfMessage && IsReady(m) then Some(DuplicateReady)
        else None;
      if bad.Some? {
        FailReceive(start);
        return bad;
      }
      reading := if f.endOfMessage then Overlap.NotReading else Overlap.Reading(Some(f.kind), output);
      r := if f.endOfMessage then Some(Got(m)) else None;
    }

    /** The token fires, or an aborted socket reports it so: nothing catches that, and only the lock is released. */
    method CancelRead()
      requires reading.Reading?
      modifies this`reading, socket
      ensures forall s: Overlap.State :: old(Mirrors(s)) ==> Mirrors(Overlap.Step(s, Overlap.CancelRead, utf8))
    {
      reading := Overlap.NotReading;
      socket.Abort(false);
    }

    /** One receive that nothing overlaps. */
    method ReceiveMessage(cancel: Cancellation, start: R.Start) returns (r: Received)
      requires reading == Overlap.NotReading
      modifies this, socket
      ensures reading == Overlap.NotReading
      ensures r == Receive(old(View()), cancel, utf8).0
      ensures r.Got? || r.NotOpen? || r.Cancelled? ==> View() == Receive(old(View()), cancel, utf8).1 && release == old(release)
      ensures r.Failed? || r.DuplicateReady? <==> !old(closing) && closing
      ensures r.Failed? || r.DuplicateReady? ==> socket.aborted && release == R.Step(old(release), R.Close(start))
    {
      if cancel.BeforeTaking? { return Cancelled; }
      if closing { return NotOpen; }
      var frame;
      if early != [] {
        frame := early[0];
        early := early[1..];
      } else {
        if cancel.WhileReading? {
          socket.Abort(false);
          return Cancelled;
        }
        var read := socket.ReadFrame(utf8);
        if read.Broken? {
          Close(start);
          return Failed(read.why);
        }
        frame := read.message;
      }
      if IsReady(frame) {
        Close(start);
        return DuplicateReady;
      }
      r := Got(frame);
    }
  }
}
