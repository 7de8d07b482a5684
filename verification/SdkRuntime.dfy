/**
 * The streaming client as a transition system: relay handshake, data-plane object and
 * session, driven by socket events, microtasks and an application that may do anything
 * at any point where its code runs.
 *
 * Control is an explicit stack, innermost activation last, so that re-entrancy is
 * unbounded. Scheduling assumption (section 8.1.7 of the WHATWG HTML standard): a task
 * starts only on an empty stack, and the relay's ready frame is the last socket event
 * before a microtask checkpoint. Apart from that hand-off, socket events and
 * application tasks may also arrive while microtasks are still queued.
 */
module SdkRuntime {
  import opened Payloads
  import opened OrderedSets
  import opened SessionCore

  datatype Phase = Handshaking | Pairing | Live | Abandoned

  /** openDataPlaneSocket's closure and the GPULinkDataPlane fields it turns into. */
  datatype Plane = Plane(
    openedOk: bool,
    earlyBytes: nat,
    early: seq<Payload>,
    captured: seq<Payload>,        // `queued` of the replay callback
    attached: bool,                // the session's listener is in #messageListeners
    closeListeners: seq<Listener>, // application close listeners; the session's own one runs first
    closed: bool)                  // #closeInfo is set

  datatype Activation =
    | Replaying(rest: seq<Payload>)
    | Draining(rest: seq<Payload>)
    | Delivering(message: Payload, waiting: seq<Listener>)
    | OverflowClose
    | Reporting(errorsTo: seq<Listener>)
    | ClosingLoop(closersLeft: seq<Listener>)
    | ReplayingErrors(index: nat)
    | InMessageListener
    | InErrorListener
    | InCloseListener
    | InApplication

  /** What happened so far; never read by the client itself. */
  datatype History = History(
    received: seq<Payload>,                 // application frames taken from the wire
    dispatched: seq<Payload>,               // frames for which #deliver began
    calls: seq<(Listener, Payload)>,        // every message-listener invocation
    seen: map<Listener, seq<Payload>>,      // invocations since the listener's subscription
    joined: map<Listener, nat>,             // first dispatch of that subscription
    reported: seq<ErrorCode>,
    started: nat, succeeded: nat, failed: nat) // remote releases

  datatype System = System(
    phase: Phase,
    socketOpen: bool,
    aborted: bool,
    plane: Plane,
    session: Session,
    stack: seq<Activation>,
    micro: seq<Microtask>,
    inFlight: nat,
    history: History)

  const START := System(Handshaking, true, false, Plane(false, 0, [], [], false, [], false), FRESH, [], [], 0,
                        History([], [], [], map[], map[], [], 0, 0, 0))

  datatype Label =
    // the environment
    | SocketOpens(protocolAgreed: bool)
    | SocketFails
    | Timeout
    | Abort
    | Wire(payload: Payload)
    | SocketCloses
    | ReleaseSettles(ok: bool)
    | RunMicrotask
    | EnterApplication
    // the client's own code, resumed at the innermost activation
    | Resume
    // the application, while one of its functions is innermost
    | AppSubscribe(l: Listener)
    | AppUnsubscribe(l: Listener)
    | AppOnError(l: Listener)
    | AppOffError(l: Listener)
    | AppOnClose(l: Listener)
    | AppOffClose(l: Listener)
    | AppClose
    | AppQueueJob
    | AppReturn
    | AppThrow

  // ---------------------------------------------------------------- stack helpers

  function Top(stack: seq<Activation>): Activation
    requires stack != []
  {
    stack[|stack| - 1]
  }

  function Pop(s: System): System
    requires s.stack != []
  {
    s.(stack := s.stack[..|s.stack| - 1])
  }

  function Push(s: System, a: Activation): System {
    s.(stack := s.stack + [a])
  }

  function Replace(s: System, a: Activation): System
    requires s.stack != []
  {
    s.(stack := s.stack[..|s.stack| - 1] + [a])
  }

  predicate InApp(s: System) {
    s.stack != [] &&
    (Top(s.stack).InMessageListener? || Top(s.stack).InErrorListener? ||
     Top(s.stack).InCloseListener? || Top(s.stack).InApplication?)
  }

  /** Microtasks that hand the socket over from the handshake to the session. */
  predicate HandOver(micro: seq<Microtask>) {
    ConstructPlane in micro || ConstructSession in micro || ReplayEarly in micro
  }

  function With(s: System, r: (Session, seq<Microtask>)): System {
    s.(session := r.0, micro := s.micro + r.1)
  }

  // ---------------------------------------------------------------- the client's code

  function CloseSession(s: System): System {
    With(s.(socketOpen := false), Close(s.session))
  }

  function Report(s: System, e: ErrorCode): System {
    Push(s.(session := Record(s.session, e), history := s.history.(reported := s.history.reported + [e])),
         Reporting(s.session.errorListeners))
  }

  function Deliver(s: System, m: Payload): System {
    Push(s.(history := s.history.(dispatched := s.history.dispatched + [m])), Delivering(m, s.session.listeners))
  }

  /** The session's message listener, called by the replay loop or the socket handler. */
  function Inbound(s: System, m: Payload): System {
    match Triage(s.session, m)
    case Ignore => s
    case DeliverNow => Deliver(s, m)
    case Overflow => Report(Push(s, OverflowClose), EarlyBufferOverflow)
    case Buffer => With(s, Enqueue(s.session, m))
  }

  function Abandon(s: System): System {
    s.(phase := Abandoned, socketOpen := false)
  }

  function HandshakeFrame(s: System, p: Payload): System {
    if !s.plane.openedOk then Abandon(s)
    else if IsReady(p) then s.(phase := Pairing, micro := s.micro + [ConstructPlane])
    else if p.Foreign? then Abandon(s)
    else if ByteLength(p) > MAX_FRAME_BYTES || s.plane.earlyBytes + ByteLength(p) > MAX_BUFFERED_BYTES then Abandon(s)
    else s.(plane := s.plane.(earlyBytes := s.plane.earlyBytes + ByteLength(p), early := s.plane.early + [p]),
            history := s.history.(received := s.history.received + [p]))
  }

  function LiveFrame(s: System, p: Payload): System {
    if IsReady(p) || p.Foreign? then s.(socketOpen := false)
    else if !s.plane.attached then s
    else Inbound(s.(history := s.history.(received := s.history.received + [p])), p)
  }

  function SocketFrame(s: System, p: Payload): System {
    if s.stack != [] || !s.socketOpen || HandOver(s.micro) then s
    else match s.phase
      case Handshaking => HandshakeFrame(s, p)
      case Live => LiveFrame(s, p)
      case _ => s
  }

  /** The close event: the session's own listener first, then the application's. */
  function SocketClose(s: System): System {
    if s.stack != [] || s.plane.closed then s
    else match s.phase
      case Handshaking => Abandon(s)
      case Live =>
        if HandOver(s.micro) then s else
          var marked := s.(socketOpen := false, plane := s.plane.(closed := true));
          var closing := if marked.session.closing then marked else CloseSession(marked);
          Push(closing, ClosingLoop(closing.plane.closeListeners))
      case _ => s.(socketOpen := false)
  }

  function BuildSession(s: System): System {
    if s.aborted || !s.socketOpen then Abandon(s)
    else if s.plane.early == [] then s.(phase := Live, plane := s.plane.(attached := true))
    else s.(phase := Live, plane := s.plane.(attached := true, early := [], captured := s.plane.early),
            micro := s.micro + [ReplayEarly])
  }

  function StartReplay(s: System): System {
    if !s.plane.attached || s.plane.closed then s.(plane := s.plane.(captured := []))
    else Push(s.(plane := s.plane.(captured := [])), Replaying(s.plane.captured))
  }

  function StartFlush(s: System): System {
    var (next, batch) := BeginFlush(s.session);
    if next.draining then Push(s.(session := next), Draining(batch)) else s.(session := next)
  }

  function Microstep(s: System): System {
    if s.stack != [] || s.micro == [] then s
    else
      var t := s.(micro := s.micro[1..]);
      match s.micro[0]
      case ConstructPlane =>
        if s.aborted || !s.socketOpen then Abandon(t) else t.(micro := t.micro + [ConstructSession])
      case ConstructSession => BuildSession(t)
      case ReplayEarly => StartReplay(t)
      case FlushPending => StartFlush(t)
      case CallRelease => t.(inFlight := t.inFlight + 1, history := t.history.(started := t.history.started + 1))
      case ReleaseDone(ok) =>
        if ok then t else Report(t.(session := ReleaseFailed(t.session)), RemoteReleaseFailed)
      case AppJob => Push(t, InApplication)
  }

  function Settle(s: System, ok: bool): System {
    if s.stack != [] || s.inFlight == 0 then s
    else s.(inFlight := s.inFlight - 1, micro := s.micro + [ReleaseDone(ok)],
            history := if ok then s.history.(succeeded := s.history.succeeded + 1)
                       else s.history.(failed := s.history.failed + 1))
  }

  /** One iteration of #deliver's loop over its snapshot of the listeners. */
  function DeliverNext(s: System, m: Payload, waiting: seq<Listener>): System
    requires s.stack != []
  {
    if waiting == [] || s.session.closing then Pop(s)
    else
      var l := waiting[0];
      var heard := (if l in s.history.seen then s.history.seen[l] else []) + [m];
      Push(Replace(s.(history := s.history.(calls := s.history.calls + [(l, m)], seen := s.history.seen[l := heard])),
                   Delivering(m, waiting[1..])),
           InMessageListener)
  }

  function DrainNext(s: System, rest: seq<Payload>): System
    requires s.stack != []
  {
    if rest == [] || s.session.closing then With(Pop(s), EndFlush(s.session))
    else Deliver(Replace(s, Draining(rest[1..])), rest[0])
  }

  function ReplayNext(s: System, rest: seq<Payload>): System
    requires s.stack != []
  {
    if rest == [] then Pop(s) else Inbound(Replace(s, Replaying(rest[1..])), rest[0])
  }

  function CloseNext(s: System, left: seq<Listener>): System
    requires s.stack != []
  {
    if left == [] then Pop(s.(plane := s.plane.(attached := false, closeListeners := [])))
    else if left[0] in s.plane.closeListeners then Push(Replace(s, ClosingLoop(left[1..])), InCloseListener)
    else Replace(s, ClosingLoop(left[1..]))
  }

  function ResumeClient(s: System): System {
    if s.stack == [] then s
    else match Top(s.stack)
      case Replaying(rest) => ReplayNext(s, rest)
      case Draining(rest) => DrainNext(s, rest)
      case Delivering(m, waiting) => DeliverNext(s, m, waiting)
      case OverflowClose => CloseSession(Pop(s))
      case Reporting(to) => if to == [] then Pop(s) else Push(Replace(s, Reporting(to[1..])), InErrorListener)
      case ClosingLoop(left) => CloseNext(s, left)
      case ReplayingErrors(i) =>
        if i >= |s.session.errors| then Pop(s) else Push(Replace(s, ReplayingErrors(i + 1)), InErrorListener)
      case _ => s
  }

  // ---------------------------------------------------------------- the application

  /** Listeners that #deliver still has to call for the current message. */
  function Waiting(stack: seq<Activation>): seq<Listener> {
    if |stack| > 0 && stack[0].Delivering? then stack[0].waiting
    else if |stack| > 1 && stack[1].Delivering? then stack[1].waiting
    else []
  }

  /** A new subscription starts with the current message if its snapshot still holds the listener. */
  function Enrol(s: System, l: Listener): System {
    if s.session.closing || l in s.session.listeners then s
    else
      var first := |s.history.dispatched| - (if l in Waiting(s.stack) && s.history.dispatched != [] then 1 else 0);
      s.(history := s.history.(seen := s.history.seen[l := []], joined := s.history.joined[l := first]))
  }

  function Act(s: System, a: Label): System {
    if !InApp(s) then s
    else match a
      case AppSubscribe(l) => if s.phase.Live? then With(Enrol(s, l), Subscribe(s.session, l)) else s
      case AppUnsubscribe(l) => s.(session := Unsubscribe(s.session, l))
      case AppOnError(l) =>
        if s.phase.Live?
        then Push(s.(session := s.session.(errorListeners := Insert(s.session.errorListeners, l))), ReplayingErrors(0))
        else s
      case AppOffError(l) => s.(session := s.session.(errorListeners := Delete(s.session.errorListeners, l)))
      case AppOnClose(l) =>
        if !s.phase.Live? then s
        else if s.plane.closed then Push(s, InCloseListener)
        else s.(plane := s.plane.(closeListeners := Insert(s.plane.closeListeners, l)))
      case AppOffClose(l) => s.(plane := s.plane.(closeListeners := Delete(s.plane.closeListeners, l)))
      case AppClose => if s.phase.Live? then CloseSession(s) else s
      case AppQueueJob => s.(micro := s.micro + [AppJob])
      case AppReturn => Pop(s)
      case AppThrow =>
        (match Top(s.stack)
         case InMessageListener => Report(Pop(s), MessageListenerError)
         case InCloseListener => Report(Pop(s), CloseListenerError)
         case _ => Pop(s))
      case _ => s
  }

  // ---------------------------------------------------------------- runs

  function Step(s: System, a: Label): System {
    match a
    case SocketOpens(agreed) =>
      if s.stack != [] || !s.phase.Handshaking? then s
      else if agreed then s.(plane := s.plane.(openedOk := true)) else Abandon(s)
    case SocketFails => if s.stack != [] || !s.phase.Handshaking? then s else Abandon(s)
    case Timeout => if s.stack != [] || !s.phase.Handshaking? then s else Abandon(s)
    case Abort => if s.phase.Handshaking? then Abandon(s.(aborted := true)) else s.(aborted := true)
    case Wire(p) => SocketFrame(s, p)
    case SocketCloses => SocketClose(s)
    case ReleaseSettles(ok) => Settle(s, ok)
    case RunMicrotask => Microstep(s)
    case EnterApplication => if s.stack == [] then Push(s, InApplication) else s
    case Resume => ResumeClient(s)
    case _ => Act(s, a)
  }

  function Run(labels: seq<Label>): System {
    if labels == [] then START else Step(Run(labels[..|labels| - 1]), labels[|labels| - 1])
  }
}
