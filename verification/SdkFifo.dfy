/** End-to-end order of the streaming client, over every run of SdkRuntime. */
module SdkFifo {
  import opened Payloads
  import opened OrderedSets
  import opened SessionCore
  import opened SdkRuntime

  // ---------------------------------------------------------------- the stack

  /** Activations that hold no frame and no right to close. */
  predicate Plain(a: Activation) {
    a.Reporting? || a.ReplayingErrors? || a.InMessageListener? || a.InErrorListener? || a.InCloseListener? || a.InApplication?
  }

  predicate FrameLoop(a: Activation) {
    a.Replaying? || a.Draining?
  }

  /** Frame loops run at the bottom; a delivery or a pending overflow close is at the bottom or directly above one. */
  ghost predicate Shape(stack: seq<Activation>) {
    && (forall i | 1 <= i < |stack| :: !FrameLoop(stack[i]) && !stack[i].ClosingLoop?)
    && (forall i | 2 <= i < |stack| :: Plain(stack[i]))
    && (|stack| > 1 && !Plain(stack[1]) ==> FrameLoop(stack[0]))
  }

  function DrainRest(stack: seq<Activation>): seq<Payload> {
    if stack != [] && stack[0].Draining? then stack[0].rest else []
  }

  function ReplayRest(stack: seq<Activation>): seq<Payload> {
    if stack != [] && stack[0].Replaying? then stack[0].rest else []
  }

  predicate Drains(stack: seq<Activation>) {
    stack != [] && stack[0].Draining?
  }

  predicate Overflowing(stack: seq<Activation>) {
    (|stack| > 0 && stack[0].OverflowClose?) || (|stack| > 1 && stack[1].OverflowClose?)
  }

  /** The delivery in progress, if any. */
  function Current(stack: seq<Activation>): seq<Activation> {
    if |stack| > 0 && stack[0].Delivering? then [stack[0]]
    else if |stack| > 1 && stack[1].Delivering? then [stack[1]]
    else []
  }

  ghost predicate Alike(a: seq<Activation>, b: seq<Activation>) {
    && Shape(b)
    && DrainRest(a) == DrainRest(b) && ReplayRest(a) == ReplayRest(b) && Drains(a) == Drains(b)
    && Overflowing(a) == Overflowing(b) && Current(a) == Current(b)
  }

  lemma PushPlain(stack: seq<Activation>, a: Activation)
    requires Shape(stack) && Plain(a)
    ensures Alike(stack, stack + [a])
  {
  }

  lemma PopPlain(stack: seq<Activation>)
    requires Shape(stack) && stack != [] && Plain(Top(stack))
    ensures Alike(stack, stack[..|stack| - 1])
  {
  }

  // ---------------------------------------------------------------- invariants

  /** How far the hand-over from handshake to session has come. */
  ghost predicate Stages(s: System) {
    var m := multiset(s.micro);
    && m[ConstructPlane] + m[ConstructSession] <= (if s.phase.Handshaking? || s.phase.Live? then 0 else 1)
    && m[ReplayEarly] <= (if s.phase.Live? then 1 else 0)
    && (s.plane.captured != [] ==> ReplayEarly in s.micro && !(s.stack != [] && s.stack[0].Replaying?))
    && (s.phase.Live? ==> s.plane.early == [])
    && (!s.phase.Live? ==> s.session == FRESH && s.history.dispatched == [] && forall i | 0 <= i < |s.stack| :: s.stack[i].InApplication?)
    && (!s.phase.Live? ==> s.inFlight == 0 && CallRelease !in s.micro && ReleaseDone(true) !in s.micro && ReleaseDone(false) !in s.micro)
    && (s.phase.Abandoned? ==> !s.socketOpen)
    && (s.plane.closed ==> s.session.closing)
    && (s.phase.Live? && !s.plane.attached ==> s.plane.closed)
    && (s.stack != [] && s.stack[0].ClosingLoop? ==> s.plane.closed)
  }

  /** The session's buffer and its flags. */
  ghost predicate Buffers(s: System) {
    && Shape(s.stack)
    && s.session.draining == Drains(s.stack)
    && multiset(s.micro)[FlushPending] == (if s.session.flushQueued then 1 else 0)
    && s.session.pendingBytes == TotalLength(s.session.pending) <= MAX_BUFFERED_BYTES
    && |s.session.pending| <= MAX_PENDING_FRAMES
    && (s.session.listeners != [] && s.session.pending != [] && !s.session.closing ==>
          s.session.flushQueued || s.session.draining)
  }

  /** Nothing more is promised: the session closes, is about to, or was never set up. */
  predicate Ended(s: System) {
    s.session.closing || Overflowing(s.stack) || s.phase.Abandoned?
  }

  function Outstanding(s: System, arriving: seq<Payload>): seq<Payload> {
    DrainRest(s.stack) + s.session.pending + arriving + ReplayRest(s.stack) + s.plane.captured + s.plane.early
  }

  ghost predicate InOrder(s: System, arriving: seq<Payload>) {
    && s.history.dispatched <= s.history.received
    && (!Ended(s) ==> s.history.dispatched + Outstanding(s, arriving) == s.history.received)
    && (forall i | 0 <= i < |s.history.received| :: IsFrame(s.history.received[i]))
  }

  ghost predicate Safe(s: System) {
    Stages(s) && Buffers(s) && InOrder(s, [])
  }

  // ---------------------------------------------------------------- building blocks

  lemma CloseKeeps(s: System)
    requires Stages(s) && Buffers(s) && s.history.dispatched <= s.history.received && s.phase.Live?
    requires forall i | 0 <= i < |s.history.received| :: IsFrame(s.history.received[i])
    ensures Safe(CloseSession(s))
  {
  }

  lemma ReportKeeps(s: System, e: ErrorCode)
    requires Safe(s) && s.phase.Live?
    ensures Safe(Report(s, e))
  {
    PushPlain(s.stack, Reporting(s.session.errorListeners));
  }

  lemma DirectDelivery(s: System, m: Payload)
    requires Stages(s) && Buffers(s) && InOrder(s, [m]) && s.phase.Live? && s.plane.captured == []
    requires s.stack == [] || (|s.stack| == 1 && s.stack[0].Replaying?)
    requires Triage(s.session, m) == DeliverNow
    ensures Safe(Deliver(s, m))
  {
    var t := Deliver(s, m);
    if !Ended(s) {
      assert s.history.dispatched + Outstanding(s, [m]) == t.history.dispatched + Outstanding(t, []);
    }
  }

  lemma EnqueueBounds(s: System, m: Payload)
    requires Buffers(s) && Triage(s.session, m) == Buffer
    ensures Buffers(With(s, Enqueue(s.session, m)))
  {
    var t := With(s, Enqueue(s.session, m));
    assert t.session.pending[..|t.session.pending| - 1] == s.session.pending;
  }

  lemma EnqueueOrder(s: System, m: Payload)
    requires InOrder(s, [m])
    requires s.stack == [] || (|s.stack| == 1 && s.stack[0].Replaying?)
    ensures InOrder(With(s, Enqueue(s.session, m)), [])
  {
    var t := With(s, Enqueue(s.session, m));
    assert Outstanding(s, [m]) == Outstanding(t, []);
  }

  lemma Buffering(s: System, m: Payload)
    requires Stages(s) && Buffers(s) && InOrder(s, [m]) && s.phase.Live?
    requires s.stack == [] || (|s.stack| == 1 && s.stack[0].Replaying?)
    requires Triage(s.session, m) == Buffer
    ensures Safe(With(s, Enqueue(s.session, m)))
  {
    EnqueueBounds(s, m);
    EnqueueOrder(s, m);
  }

  lemma OverflowKeeps(s: System, m: Payload)
    requires Stages(s) && Buffers(s) && InOrder(s, [m]) && s.phase.Live?
    requires s.stack == [] || (|s.stack| == 1 && s.stack[0].Replaying?)
    ensures Safe(Report(Push(s, OverflowClose), EarlyBufferOverflow))
  {
    var t := Push(s, OverflowClose);
    assert Safe(t);
    ReportKeeps(t, EarlyBufferOverflow);
  }

  lemma InboundKeeps(s: System, m: Payload)
    requires Stages(s) && Buffers(s) && InOrder(s, [m]) && s.phase.Live? && s.plane.captured == []
    requires s.stack == [] || (|s.stack| == 1 && s.stack[0].Replaying?)
    ensures Safe(Inbound(s, m))
  {
    match Triage(s.session, m)
    case Ignore =>
    case DeliverNow => DirectDelivery(s, m);
    case Overflow => OverflowKeeps(s, m);
    case Buffer => Buffering(s, m);
  }

  // ---------------------------------------------------------------- every step

  lemma EarlyKeeps(s: System, p: Payload)
    requires Safe(s) && s.phase.Handshaking? && s.stack == [] && IsFrame(p)
    ensures Safe(s.(plane := s.plane.(earlyBytes := s.plane.earlyBytes + ByteLength(p), early := s.plane.early + [p]),
                    history := s.history.(received := s.history.received + [p])))
  {
    var t := s.(plane := s.plane.(earlyBytes := s.plane.earlyBytes + ByteLength(p), early := s.plane.early + [p]),
                history := s.history.(received := s.history.received + [p]));
    hide TotalLength, ByteLength, IsFrame;
    assert Outstanding(t, []) == Outstanding(s, []) + [p];
  }

  lemma PairingKeeps(s: System)
    requires Safe(s) && s.phase.Handshaking?
    ensures Safe(s.(phase := Pairing, micro := s.micro + [ConstructPlane]))
  {
    hide TotalLength, IsFrame;
    var t := s.(phase := Pairing, micro := s.micro + [ConstructPlane]);
    assert Outstanding(t, []) == Outstanding(s, []);
  }

  lemma HandshakeKeeps(s: System, p: Payload)
    requires Safe(s) && s.phase.Handshaking? && s.stack == []
    ensures Safe(HandshakeFrame(s, p))
  {
    hide Safe, ByteLength, Abandon;
    AbandonKeeps(s);
    PairingKeeps(s);
    if IsFrame(p) { EarlyKeeps(s, p); }
  }

  lemma SocketKeeps(s: System, p: Payload)
    requires Safe(s)
    ensures Safe(SocketFrame(s, p))
  {
    if s.stack == [] && s.socketOpen && !HandOver(s.micro) {
      if s.phase.Handshaking? {
        HandshakeKeeps(s, p);
      } else if s.phase.Live? && IsFrame(p) && s.plane.attached {
        var t := s.(history := s.history.(received := s.history.received + [p]));
        assert Outstanding(t, [p]) == Outstanding(s, []) + [p];
        InboundKeeps(t, p);
      }
    }
  }

  lemma SocketCloseKeeps(s: System)
    requires Safe(s)
    ensures Safe(SocketClose(s))
  {
    if s.stack == [] && !s.plane.closed && s.phase.Live? && !HandOver(s.micro) {
      if !s.session.closing {
        CloseKeeps(s.(socketOpen := false));
      }
    }
  }

  lemma BuildKeeps(s: System)
    requires Safe(s) && s.stack == [] && s.micro != [] && s.micro[0].ConstructSession?
    ensures Safe(BuildSession(s.(micro := s.micro[1..])))
  {
    assert s.micro == [s.micro[0]] + s.micro[1..];
    var t := BuildSession(s.(micro := s.micro[1..]));
    assert !t.phase.Abandoned? ==> Outstanding(t, []) == Outstanding(s, []);
  }

  lemma ReplayStartKeeps(s: System)
    requires Safe(s) && s.stack == [] && s.micro != [] && s.micro[0].ReplayEarly?
    ensures Safe(StartReplay(s.(micro := s.micro[1..])))
  {
    assert s.micro == [s.micro[0]] + s.micro[1..];
    var t := StartReplay(s.(micro := s.micro[1..]));
    assert !Ended(s) ==> Outstanding(t, []) == Outstanding(s, []);
  }

  lemma FlushStartOrder(s: System)
    requires InOrder(s, []) && s.stack == [] && s.micro != [] && s.micro[0].FlushPending?
    ensures InOrder(StartFlush(s.(micro := s.micro[1..])), [])
  {
    var t := StartFlush(s.(micro := s.micro[1..]));
    assert !Ended(s) ==> Outstanding(t, []) == Outstanding(s, []);
  }

  lemma FlushStartKeeps(s: System)
    requires Safe(s) && s.stack == [] && s.micro != [] && s.micro[0].FlushPending?
    ensures Safe(StartFlush(s.(micro := s.micro[1..])))
  {
    assert s.micro == [s.micro[0]] + s.micro[1..];
    FlushStartOrder(s);
  }

  lemma DropMicrotask(s: System)
    requires Safe(s) && s.stack == [] && s.micro != []
    requires !s.micro[0].FlushPending? && !s.micro[0].ReplayEarly?
    ensures Safe(s.(micro := s.micro[1..]))
  {
    assert s.micro == [s.micro[0]] + s.micro[1..];
  }

  lemma CallReleaseKeeps(s: System)
    requires Safe(s) && s.stack == [] && s.micro != [] && s.micro[0].CallRelease?
    ensures Safe(Microstep(s))
  {
    DropMicrotask(s);
  }

  lemma ReleaseDoneKeeps(s: System, ok: bool)
    requires Safe(s) && s.stack == [] && s.phase.Live?
    ensures Safe(if ok then s else Report(s.(session := ReleaseFailed(s.session)), RemoteReleaseFailed))
  {
    if !ok {
      ReportKeeps(s.(session := ReleaseFailed(s.session)), RemoteReleaseFailed);
    }
  }

  lemma MicroKeeps(s: System)
    requires Safe(s)
    ensures Safe(Microstep(s))
  {
    if s.stack == [] && s.micro != [] {
      var t := s.(micro := s.micro[1..]);
      assert s.micro == [s.micro[0]] + s.micro[1..];
      match s.micro[0]
      case ConstructPlane => DropMicrotask(s);
      case ConstructSession => BuildKeeps(s);
      case ReplayEarly => ReplayStartKeeps(s);
      case FlushPending => FlushStartKeeps(s);
      case CallRelease => CallReleaseKeeps(s);
      case ReleaseDone(ok) => DropMicrotask(s); ReleaseDoneKeeps(t, ok);
      case AppJob => DropMicrotask(s); PushPlain(t.stack, InApplication);
    }
  }

  lemma SettleKeeps(s: System, ok: bool)
    requires Safe(s)
    ensures Safe(Settle(s, ok))
  {
  }

  /** Only the stack changes, and none of what it says about frames. */
  lemma Restacked(s: System, t: System)
    requires Safe(s) && t == s.(stack := t.stack, history := s.history.(calls := t.history.calls, seen := t.history.seen))
    requires Shape(t.stack) && s.phase.Live? && s.stack != []
    requires DrainRest(t.stack) == DrainRest(s.stack) && ReplayRest(t.stack) == ReplayRest(s.stack)
    requires Drains(t.stack) == Drains(s.stack) && Overflowing(t.stack) == Overflowing(s.stack)
    requires t.stack != [] ==> t.stack[0].Replaying? == s.stack[0].Replaying? && (t.stack[0].ClosingLoop? ==> s.stack[0].ClosingLoop?)
    ensures Safe(t)
  {
    assert Outstanding(t, []) == Outstanding(s, []);
    hide Outstanding, TotalLength, IsFrame;
  }

  lemma DeliveringIsLive(s: System)
    requires Safe(s) && s.stack != [] && Top(s.stack).Delivering?
    ensures s.phase.Live? && Shape(s.stack) && |s.stack| <= 2
  {
    hide TotalLength, IsFrame, InOrder;
  }

  lemma NextDelivery(stack: seq<Activation>, m: Payload, waiting: seq<Listener>)
    requires Shape(stack) && 1 <= |stack| <= 2 && Top(stack).Delivering?
    ensures var rest := stack[..|stack| - 1];
      && Shape(rest) && Shape(rest + [Delivering(m, waiting), InMessageListener])
      && DrainRest(rest) == DrainRest(stack) == DrainRest(rest + [Delivering(m, waiting), InMessageListener])
      && ReplayRest(rest) == ReplayRest(stack) == ReplayRest(rest + [Delivering(m, waiting), InMessageListener])
  {
  }

  lemma DeliverNextKeeps(s: System)
    requires Safe(s) && s.stack != [] && Top(s.stack).Delivering?
    ensures Safe(DeliverNext(s, Top(s.stack).message, Top(s.stack).waiting))
  {
    hide Safe, Shape, DrainRest, ReplayRest;
    var a := Top(s.stack);
    var t := DeliverNext(s, a.message, a.waiting);
    DeliveringIsLive(s);
    var left := if a.waiting == [] then [] else a.waiting[1..];
    NextDelivery(s.stack, a.message, left);
    assert t.stack == s.stack[..|s.stack| - 1] || t.stack == s.stack[..|s.stack| - 1] + [Delivering(a.message, left), InMessageListener];
    Restacked(s, t);
  }

  lemma DrainOneKeeps(s: System)
    requires Safe(s) && |s.stack| == 1 && s.stack[0].Draining? && s.stack[0].rest != [] && !s.session.closing
    ensures Safe(Deliver(Replace(s, Draining(s.stack[0].rest[1..])), s.stack[0].rest[0]))
  {
    hide TotalLength, IsFrame, ByteLength;
    var rest := s.stack[0].rest;
    var t := Deliver(Replace(s, Draining(rest[1..])), rest[0]);
    assert t.stack == [Draining(rest[1..]), Delivering(rest[0], s.session.listeners)];
    assert rest == [rest[0]] + rest[1..];
    assert s.history.dispatched + Outstanding(s, []) == t.history.dispatched + Outstanding(t, []);
  }

  lemma DrainEndKeeps(s: System)
    requires Safe(s) && |s.stack| == 1 && s.stack[0].Draining? && (s.stack[0].rest == [] || s.session.closing)
    ensures Safe(With(Pop(s), EndFlush(s.session)))
  {
    var t := With(Pop(s), EndFlush(s.session));
    assert t.stack == [];
    assert !Ended(s) ==> Outstanding(s, []) == Outstanding(t, []);
  }

  lemma DrainNextKeeps(s: System)
    requires Safe(s) && s.stack != [] && Top(s.stack).Draining?
    ensures Safe(DrainNext(s, Top(s.stack).rest))
  {
    assert |s.stack| == 1;
    if s.stack[0].rest != [] && !s.session.closing { DrainOneKeeps(s); } else { DrainEndKeeps(s); }
  }

  lemma ReplayEnds(s: System)
    requires Safe(s) && s.stack != [] && Top(s.stack).Replaying? && Top(s.stack).rest == []
    ensures Safe(Pop(s))
  {
    hide TotalLength, IsFrame;
    assert |s.stack| == 1 && Pop(s).stack == [];
    assert Outstanding(s, []) == Outstanding(Pop(s), []);
  }

  lemma ReplayAdvances(s: System)
    requires Safe(s) && s.stack != [] && Top(s.stack).Replaying? && Top(s.stack).rest != []
    ensures var rest := Top(s.stack).rest; var t := Replace(s, Replaying(rest[1..]));
      && t.stack == [Replaying(rest[1..])] && Stages(t) && Buffers(t) && InOrder(t, [rest[0]]) && t.phase.Live? && t.plane.captured == []
  {
    hide TotalLength, IsFrame;
    assert |s.stack| == 1;
    var rest := s.stack[0].rest;
    var t := Replace(s, Replaying(rest[1..]));
    assert rest == [rest[0]] + rest[1..];
    assert Outstanding(t, [rest[0]]) == Outstanding(s, []);
  }

  lemma ReplayNextKeeps(s: System)
    requires Safe(s) && s.stack != [] && Top(s.stack).Replaying?
    ensures Safe(ReplayNext(s, Top(s.stack).rest))
  {
    hide Safe, Stages, Buffers, InOrder, Inbound;
    var rest := Top(s.stack).rest;
    if rest == [] {
      ReplayEnds(s);
    } else {
      ReplayAdvances(s);
      InboundKeeps(Replace(s, Replaying(rest[1..])), rest[0]);
    }
  }

  lemma OverflowNextKeeps(s: System)
    requires Safe(s) && s.stack != [] && Top(s.stack).OverflowClose?
    ensures Safe(CloseSession(Pop(s)))
  {
    var t := Pop(s);
    assert Buffers(t);
    CloseKeeps(t);
  }

  /** Replacing a plain top by a plain activation and pushing another. */
  lemma SwapPlain(s: System, a: Activation, b: Activation)
    requires Safe(s) && s.stack != [] && Plain(Top(s.stack)) && Plain(a) && Plain(b) && s.phase.Live?
    ensures Safe(Push(Replace(s, a), b))
  {
    PopPlain(s.stack);
    PushPlain(s.stack[..|s.stack| - 1], a);
    PushPlain(s.stack[..|s.stack| - 1] + [a], b);
  }

  lemma PopKeeps(s: System)
    requires Safe(s) && s.stack != [] && Plain(Top(s.stack))
    ensures Safe(Pop(s))
  {
    PopPlain(s.stack);
  }

  lemma ClosersGone(s: System)
    requires Safe(s) && s.stack != [] && Top(s.stack).ClosingLoop?
    ensures Safe(Pop(s.(plane := s.plane.(attached := false, closeListeners := []))))
  {
    hide TotalLength, IsFrame;
    assert |s.stack| == 1;
  }

  lemma NextCloser(s: System, left: seq<Listener>, more: seq<Activation>)
    requires Safe(s) && s.stack != [] && Top(s.stack).ClosingLoop? && (more == [] || more == [InCloseListener])
    ensures Safe(s.(stack := s.stack[..|s.stack| - 1] + [ClosingLoop(left)] + more))
  {
    assert |s.stack| == 1 && s.phase.Live?;
    var t := s.(stack := [ClosingLoop(left)] + more);
    hide Safe;
    Restacked(s, t);
  }

  lemma CloseNextKeeps(s: System)
    requires Safe(s) && s.stack != [] && Top(s.stack).ClosingLoop?
    ensures Safe(CloseNext(s, Top(s.stack).closersLeft))
  {
    hide Safe;
    var left := Top(s.stack).closersLeft;
    ClosersGone(s);
    if left != [] {
      NextCloser(s, left[1..], []);
      NextCloser(s, left[1..], [InCloseListener]);
      assert s.stack[..|s.stack| - 1] + [ClosingLoop(left[1..])] + [] == s.stack[..|s.stack| - 1] + [ClosingLoop(left[1..])];
    }
  }

  lemma ReportNextKeeps(s: System, to: seq<Listener>)
    requires Safe(s) && s.stack != [] && Top(s.stack) == Reporting(to)
    ensures Safe(if to == [] then Pop(s) else Push(Replace(s, Reporting(to[1..])), InErrorListener))
  {
    if to == [] { PopKeeps(s); } else { SwapPlain(s, Reporting(to[1..]), InErrorListener); }
  }

  lemma ErrorsNextKeeps(s: System, i: nat)
    requires Safe(s) && s.stack != [] && Top(s.stack) == ReplayingErrors(i)
    ensures Safe(if i >= |s.session.errors| then Pop(s) else Push(Replace(s, ReplayingErrors(i + 1)), InErrorListener))
  {
    if i >= |s.session.errors| { PopKeeps(s); } else { SwapPlain(s, ReplayingErrors(i + 1), InErrorListener); }
  }

  lemma ResumeKeeps(s: System)
    requires Safe(s)
    ensures Safe(ResumeClient(s))
  {
    hide Safe;
    if s.stack != [] {
      match Top(s.stack)
      case Replaying(_) => ReplayNextKeeps(s);
      case Draining(_) => DrainNextKeeps(s);
      case Delivering(_, _) => DeliverNextKeeps(s);
      case OverflowClose => OverflowNextKeeps(s);
      case Reporting(to) => ReportNextKeeps(s, to);
      case ClosingLoop(_) => CloseNextKeeps(s);
      case ReplayingErrors(i) => ErrorsNextKeeps(s, i);
      case _ =>
    }
  }

  lemma SubscribeKeeps(s: System, l: Listener)
    requires Safe(s) && s.phase.Live?
    ensures Safe(With(Enrol(s, l), Subscribe(s.session, l)))
  {
    hide TotalLength, IsFrame, ByteLength;
  }

  lemma RegistrationKeeps(s: System, a: Label)
    requires Safe(s)
    requires a.AppUnsubscribe? || a.AppOffError? || a.AppOffClose? || a.AppQueueJob?
    ensures Safe(Act(s, a))
  {
    if a.AppUnsubscribe? { DeleteRemoves(s.session.listeners, a.l); }
    hide TotalLength, IsFrame;
  }

  lemma OnErrorKeeps(s: System, l: Listener)
    requires Safe(s) && s.phase.Live?
    ensures Safe(Act(s, AppOnError(l)))
  {
    PushPlain(s.stack, ReplayingErrors(0));
    hide TotalLength, IsFrame, Insert;
  }

  lemma OnCloseKeeps(s: System, l: Listener)
    requires Safe(s) && s.phase.Live?
    ensures Safe(Act(s, AppOnClose(l)))
  {
    PushPlain(s.stack, InCloseListener);
    hide TotalLength, IsFrame, Insert;
  }

  lemma ActKeeps(s: System, a: Label)
    requires Safe(s)
    ensures Safe(Act(s, a))
  {
    if InApp(s) {
      match a
      case AppSubscribe(l) => if s.phase.Live? { SubscribeKeeps(s, l); }
      case AppUnsubscribe(_) => RegistrationKeeps(s, a);
      case AppOnError(l) => if s.phase.Live? { OnErrorKeeps(s, l); }
      case AppOffError(_) => RegistrationKeeps(s, a);
      case AppOnClose(l) => if s.phase.Live? { OnCloseKeeps(s, l); }
      case AppOffClose(_) => RegistrationKeeps(s, a);
      case AppClose => if s.phase.Live? { CloseKeeps(s); }
      case AppQueueJob => RegistrationKeeps(s, a);
      case AppReturn => PopKeeps(s);
      case AppThrow =>
        PopKeeps(s);
        if Top(s.stack).InMessageListener? || Top(s.stack).InCloseListener? { ThrowsWhileLive(s); }
        if Top(s.stack).InMessageListener? { ReportKeeps(Pop(s), MessageListenerError); }
        if Top(s.stack).InCloseListener? { ReportKeeps(Pop(s), CloseListenerError); }
      case _ =>
    }
    hide Safe, Report, CloseSession, Enrol, With;
  }

  lemma ThrowsWhileLive(s: System)
    requires Safe(s) && s.stack != [] && (Top(s.stack).InMessageListener? || Top(s.stack).InCloseListener?)
    ensures s.phase.Live?
  {
  }

  lemma AbandonKeeps(s: System)
    requires Safe(s) && s.phase.Handshaking?
    ensures Safe(Abandon(s))
  {
  }

  lemma FlagsKeep(s: System, aborted: bool, openedOk: bool)
    requires Safe(s)
    ensures Safe(s.(aborted := aborted, plane := s.plane.(openedOk := openedOk)))
  {
    var t := s.(aborted := aborted, plane := s.plane.(openedOk := openedOk));
    assert Outstanding(t, []) == Outstanding(s, []);
    hide Outstanding, TotalLength, IsFrame;
  }

  lemma StartKeeps(s: System, a: Label)
    requires Safe(s) && (a.SocketOpens? || a.SocketFails? || a.Timeout? || a.Abort?)
    ensures Safe(Step(s, a))
  {
    FlagsKeep(s, true, s.plane.openedOk);
    FlagsKeep(s, s.aborted, true);
    if s.phase.Handshaking? {
      AbandonKeeps(s);
      AbandonKeeps(s.(aborted := true));
    }
    hide Safe, Abandon;
  }

  lemma EnterKeeps(s: System)
    requires Safe(s) && s.stack == []
    ensures Safe(Push(s, InApplication))
  {
    PushPlain(s.stack, InApplication);
  }

  lemma StepKeeps(s: System, a: Label)
    requires Safe(s)
    ensures Safe(Step(s, a))
  {
    hide Safe;
    match a
    case SocketOpens(_) => StartKeeps(s, a);
    case SocketFails => StartKeeps(s, a);
    case Timeout => StartKeeps(s, a);
    case Abort => StartKeeps(s, a);
    case Wire(p) => SocketKeeps(s, p);
    case SocketCloses => SocketCloseKeeps(s);
    case ReleaseSettles(ok) => SettleKeeps(s, ok);
    case RunMicrotask => MicroKeeps(s);
    case EnterApplication => if s.stack == [] { EnterKeeps(s); }
    case Resume => ResumeKeeps(s);
    case _ => ActKeeps(s, a);
  }

  // ---------------------------------------------------------------- every run

  lemma {:induction false} RunIsSafe(labels: seq<Label>)
    ensures Safe(Run(labels))
  {
    if labels != [] {
      RunIsSafe(labels[..|labels| - 1]);
      StepKeeps(Run(labels[..|labels| - 1]), labels[|labels| - 1]);
    }
  }
}
