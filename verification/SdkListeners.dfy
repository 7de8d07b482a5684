/** What each subscribed listener hears, and the silence after close. */
module SdkListeners {
  import opened Payloads
  import opened Sequences
  import opened OrderedSets
  import opened SessionCore
  import opened SdkRuntime
  import opened SdkFifo

  /** End of the slice of dispatched frames that listener l has been given. */
  function HeardUpTo(s: System, l: Listener): int {
    |s.history.dispatched| - (if l in Waiting(s.stack) then 1 else 0)
  }

  ghost predicate Slice(s: System, l: Listener) {
    && l in s.history.seen && l in s.history.joined
    && var from := s.history.joined[l];
    && from <= |s.history.dispatched|
    && if s.session.closing then s.history.seen[l] <= s.history.dispatched[from..]
       else from <= HeardUpTo(s, l) && s.history.seen[l] == s.history.dispatched[from..HeardUpTo(s, l)]
  }

  ghost predicate Heard(s: System) {
    && Distinct(s.session.listeners)
    && (Current(s.stack) != [] ==>
          && s.history.dispatched != []
          && s.history.dispatched[|s.history.dispatched| - 1] == Current(s.stack)[0].message
          && Distinct(Current(s.stack)[0].waiting))
    && (forall l | l in s.session.listeners :: Slice(s, l))
  }

  lemma WaitingIsCurrent(stack: seq<Activation>)
    ensures Waiting(stack) == if Current(stack) == [] then [] else Current(stack)[0].waiting
  {
  }

  /** Steps that touch neither listeners nor deliveries. */
  lemma Untouched(s: System, t: System)
    requires Heard(s)
    requires t.session.listeners == s.session.listeners && Current(t.stack) == Current(s.stack)
    requires t.history.dispatched == s.history.dispatched && t.history.seen == s.history.seen && t.history.joined == s.history.joined
    requires s.session.closing ==> t.session.closing
    ensures Heard(t)
  {
    WaitingIsCurrent(s.stack);
    WaitingIsCurrent(t.stack);
    assert Waiting(s.stack) == Waiting(t.stack);
    forall l | l in t.session.listeners ensures Slice(t, l) {
      assert Slice(s, l);
    }
  }

  lemma DeliverHeard(s: System, m: Payload)
    requires Heard(s) && Shape(s.stack) && Current(s.stack) == [] && !s.session.closing
    requires s.stack == [] || (|s.stack| == 1 && FrameLoop(s.stack[0]))
    ensures Heard(Deliver(s, m))
  {
    var t := Deliver(s, m);
    assert Waiting(s.stack) == [];
    assert Waiting(t.stack) == s.session.listeners;
    forall l | l in t.session.listeners ensures Slice(t, l) {
      assert Slice(s, l);
    }
  }

  lemma DeliveryEnds(s: System)
    requires Heard(s) && Shape(s.stack) && s.stack != [] && Top(s.stack).Delivering?
    requires Top(s.stack).waiting == [] || s.session.closing
    ensures Heard(Pop(s))
  {
    var t := Pop(s);
    assert Waiting(s.stack) == Top(s.stack).waiting;
    assert Current(t.stack) == [] && Waiting(t.stack) == [];
    forall l | l in t.session.listeners ensures Slice(t, l) {
      assert Slice(s, l);
    }
  }

  lemma CallHeard(s: System, m: Payload, w: seq<Listener>)
    requires Heard(s) && Shape(s.stack) && s.stack != [] && Top(s.stack) == Delivering(m, w)
    requires w != [] && !s.session.closing
    ensures Heard(DeliverNext(s, m, w))
  {
    var t := DeliverNext(s, m, w);
    assert Waiting(s.stack) == w && Current(s.stack) == [Delivering(m, w)];
    assert Current(t.stack) == [Delivering(m, w[1..])] && Waiting(t.stack) == w[1..];
    forall l | l in t.session.listeners ensures Slice(t, l) {
      assert Slice(s, l);
      assert l in w <==> l == w[0] || l in w[1..];
      if l == w[0] {
        var d := s.history.dispatched;
        assert d == d[..|d| - 1] + [m];
      }
    }
  }

  lemma DeliverNextHeard(s: System)
    requires Heard(s) && Shape(s.stack) && s.stack != [] && Top(s.stack).Delivering?
    ensures Heard(DeliverNext(s, Top(s.stack).message, Top(s.stack).waiting))
  {
    hide Heard;
    var a := Top(s.stack);
    if a.waiting == [] || s.session.closing { DeliveryEnds(s); } else { CallHeard(s, a.message, a.waiting); }
  }

  lemma JoinedSlice(s: System, l: Listener)
    requires Heard(s) && !s.session.closing && l !in s.session.listeners
    ensures Slice(With(Enrol(s, l), Subscribe(s.session, l)), l)
  {
    WaitingIsCurrent(s.stack);
    hide Insert;
  }

  lemma SubscribeHeard(s: System, l: Listener)
    requires Heard(s)
    ensures Heard(With(Enrol(s, l), Subscribe(s.session, l)))
  {
    InsertAdds(s.session.listeners, l);
    var t := With(Enrol(s, l), Subscribe(s.session, l));
    forall k | k in t.session.listeners ensures Slice(t, k) {
      if k in s.session.listeners { assert Slice(s, k); } else { JoinedSlice(s, l); }
    }
    hide Slice, Insert;
  }

  lemma UnsubscribeHeard(s: System, l: Listener)
    requires Heard(s)
    ensures Heard(s.(session := Unsubscribe(s.session, l)))
  {
    DeleteRemoves(s.session.listeners, l);
    var t := s.(session := Unsubscribe(s.session, l));
    forall k | k in t.session.listeners ensures Slice(t, k) {
      assert Slice(s, k);
    }
  }

  lemma OverflowHeard(s: System)
    requires Heard(s) && Shape(s.stack) && (s.stack == [] || (|s.stack| == 1 && s.stack[0].Replaying?))
    ensures Heard(Report(Push(s, OverflowClose), EarlyBufferOverflow))
  {
    hide Heard;
    Untouched(s, Report(Push(s, OverflowClose), EarlyBufferOverflow));
  }

  lemma BufferHeard(s: System, m: Payload)
    requires Heard(s)
    ensures Heard(With(s, Enqueue(s.session, m)))
  {
    hide Heard, ByteLength;
    Untouched(s, With(s, Enqueue(s.session, m)));
  }

  lemma InboundHeard(s: System, m: Payload)
    requires Heard(s) && Shape(s.stack) && s.session.draining == Drains(s.stack)
    requires s.stack == [] || (|s.stack| == 1 && s.stack[0].Replaying?)
    ensures Heard(Inbound(s, m))
  {
    hide Heard, Report, Enqueue, Deliver;
    match Triage(s.session, m)
    case DeliverNow => DeliverHeard(s, m);
    case Overflow => OverflowHeard(s);
    case Buffer => BufferHeard(s, m);
    case Ignore =>
  }

  lemma HandshakeHeard(s: System, p: Payload)
    requires Heard(s)
    ensures Heard(HandshakeFrame(s, p))
  {
    hide Heard, ByteLength, IsReady;
    Untouched(s, HandshakeFrame(s, p));
  }

  lemma LiveHeard(s: System, p: Payload)
    requires Heard(s) && s.stack == [] && s.session.draining == Drains(s.stack)
    ensures Heard(LiveFrame(s, p))
  {
    var t := s.(history := s.history.(received := s.history.received + [p]));
    hide Heard, Inbound, IsReady;
    Untouched(s, t);
    Untouched(s, s.(socketOpen := false));
    InboundHeard(t, p);
  }

  lemma SocketHeard(s: System, p: Payload)
    requires Heard(s) && Shape(s.stack) && s.session.draining == Drains(s.stack)
    ensures Heard(SocketFrame(s, p))
  {
    hide Heard, HandshakeFrame, LiveFrame, HandOver;
    if s.stack == [] {
      HandshakeHeard(s, p);
      LiveHeard(s, p);
    }
  }

  lemma TaskHeard(s: System)
    requires Heard(s) && s.stack == [] && s.micro != []
    requires s.micro[0].ConstructPlane? || s.micro[0].ConstructSession? || s.micro[0].ReplayEarly? || s.micro[0].AppJob?
    ensures Heard(Microstep(s))
  {
    hide Heard;
    var t := s.(micro := s.micro[1..]);
    match s.micro[0]
    case ConstructSession => Untouched(s, BuildSession(t));
    case ReplayEarly => Untouched(s, StartReplay(t));
    case _ => Untouched(s, Microstep(s));
  }

  lemma FlushHeard(s: System)
    requires Heard(s) && s.stack == []
    ensures Heard(StartFlush(s))
  {
    hide Heard;
    Untouched(s, StartFlush(s));
  }

  lemma ReleaseHeard(s: System)
    requires Heard(s) && s.stack == [] && s.micro != [] && (s.micro[0].CallRelease? || s.micro[0].ReleaseDone?)
    ensures Heard(Microstep(s))
  {
    hide Heard;
    Untouched(s, Microstep(s));
  }

  lemma MicroHeard(s: System)
    requires Heard(s)
    ensures Heard(Microstep(s))
  {
    hide Heard;
    if s.stack == [] && s.micro != [] {
      var t := s.(micro := s.micro[1..]);
      match s.micro[0]
      case FlushPending => Untouched(s, t); FlushHeard(t);
      case CallRelease => ReleaseHeard(s);
      case ReleaseDone(_) => ReleaseHeard(s);
      case _ => TaskHeard(s);
    }
  }

  lemma ResumeHeard(s: System)
    requires Heard(s) && Safe(s)
    ensures Heard(ResumeClient(s))
  {
    assert Shape(s.stack) && s.session.draining == Drains(s.stack);
    hide Safe;
    hide Shape;
    hide Heard;
    if s.stack != [] {
      match Top(s.stack)
      case Delivering(_, _) => DeliverNextHeard(s);
      case Draining(rest) => DrainHeard(s, rest);
      case Replaying(rest) => ReplayHeard(s, rest);
      case _ => OtherHeard(s);
    }
  }

  lemma DrainHeard(s: System, rest: seq<Payload>)
    requires Heard(s) && Shape(s.stack) && s.stack != [] && Top(s.stack) == Draining(rest)
    ensures Heard(DrainNext(s, rest))
  {
    hide Heard;
    assert |s.stack| == 1;
    if rest == [] || s.session.closing {
      Untouched(s, DrainNext(s, rest));
    } else {
      var t := Replace(s, Draining(rest[1..]));
      Untouched(s, t);
      DeliverHeard(t, rest[0]);
    }
  }

  lemma ReplayHeard(s: System, rest: seq<Payload>)
    requires Heard(s) && Shape(s.stack) && s.session.draining == Drains(s.stack) && s.stack != [] && Top(s.stack) == Replaying(rest)
    ensures Heard(ReplayNext(s, rest))
  {
    hide Heard;
    assert |s.stack| == 1;
    if rest == [] {
      Untouched(s, Pop(s));
    } else {
      var t := Replace(s, Replaying(rest[1..]));
      Untouched(s, t);
      InboundHeard(t, rest[0]);
    }
  }

  lemma CloserHeard(s: System)
    requires Heard(s) && Shape(s.stack) && s.stack != [] && (Top(s.stack).ClosingLoop? || Top(s.stack).OverflowClose?)
    ensures Heard(ResumeClient(s))
  {
    hide Heard;
    match Top(s.stack)
    case ClosingLoop(left) => Untouched(s, CloseNext(s, left));
    case OverflowClose => Untouched(s, CloseSession(Pop(s)));
  }

  lemma OtherHeard(s: System)
    requires Heard(s) && Shape(s.stack) && s.stack != []
    requires !FrameLoop(Top(s.stack)) && !Top(s.stack).Delivering?
    ensures Heard(ResumeClient(s))
  {
    hide Heard;
    match Top(s.stack)
    case ClosingLoop(_) => CloserHeard(s);
    case OverflowClose => CloserHeard(s);
    case Reporting(to) => if to == [] { Untouched(s, Pop(s)); } else { Untouched(s, Push(Replace(s, Reporting(to[1..])), InErrorListener)); }
    case ReplayingErrors(i) =>
      if i >= |s.session.errors| { Untouched(s, Pop(s)); } else { Untouched(s, Push(Replace(s, ReplayingErrors(i + 1)), InErrorListener)); }
    case _ =>
  }

  lemma RegistrationHeard(s: System, a: Label)
    requires Heard(s) && Shape(s.stack) && (a.AppOnError? || a.AppOnClose?)
    ensures Heard(Act(s, a))
  {
    hide Heard;
    if InApp(s) { Untouched(s, Act(s, a)); }
  }

  lemma ReturnHeard(s: System)
    requires Heard(s) && Shape(s.stack) && InApp(s)
    ensures Heard(Pop(s))
  {
    hide Heard;
    Untouched(s, Pop(s));
  }

  lemma ThrowHeard(s: System, e: ErrorCode)
    requires Heard(s) && Shape(s.stack)
    ensures Heard(Report(s, e))
  {
    hide Heard;
    Untouched(s, Report(s, e));
  }

  lemma ActHeard(s: System, a: Label)
    requires Heard(s) && Shape(s.stack)
    ensures Heard(Act(s, a))
  {
    hide Heard;
    match a
    case AppSubscribe(l) => if InApp(s) && s.phase.Live? { SubscribeHeard(s, l); }
    case AppUnsubscribe(l) => UnsubscribeHeard(s, l);
    case AppOnError(_) => RegistrationHeard(s, a);
    case AppOnClose(_) => RegistrationHeard(s, a);
    case AppReturn => if InApp(s) { ReturnHeard(s); }
    case AppThrow =>
      if InApp(s) {
        ReturnHeard(s);
        PopPlain(s.stack);
        ThrowHeard(Pop(s), MessageListenerError);
        ThrowHeard(Pop(s), CloseListenerError);
      }
    case _ => hide Shape; Untouched(s, Act(s, a));
  }

  lemma StepHeard(s: System, a: Label)
    requires Heard(s) && Safe(s)
    ensures Heard(Step(s, a))
  {
    hide Heard;
    assert Shape(s.stack) && s.session.draining == Drains(s.stack);
    hide Safe;
    hide Shape;
    match a
    case Wire(p) => SocketHeard(s, p);
    case RunMicrotask => MicroHeard(s);
    case Resume => ResumeHeard(s);
    case SocketOpens(_) => EventHeard(s, a);
    case SocketFails => EventHeard(s, a);
    case Timeout => EventHeard(s, a);
    case Abort => EventHeard(s, a);
    case SocketCloses => EventHeard(s, a);
    case ReleaseSettles(_) => EventHeard(s, a);
    case EnterApplication => EventHeard(s, a);
    case _ => ActHeard(s, a);
  }

  lemma SocketCloseHeard(s: System)
    requires Heard(s) && Shape(s.stack)
    ensures Heard(SocketClose(s))
  {
    hide Heard, HandOver;
    Untouched(s, SocketClose(s));
  }

  lemma EventHeard(s: System, a: Label)
    requires Heard(s) && Shape(s.stack)
    requires a.SocketOpens? || a.SocketFails? || a.Timeout? || a.Abort? || a.SocketCloses? || a.ReleaseSettles? || a.EnterApplication?
    ensures Heard(Step(s, a))
  {
    hide Heard, SocketClose;
    if a.SocketCloses? { SocketCloseHeard(s); } else { Untouched(s, Step(s, a)); }
  }

  lemma {:induction false} RunIsHeard(labels: seq<Label>)
    ensures Heard(Run(labels))
  {
    if labels != [] {
      var before := labels[..|labels| - 1];
      RunIsSafe(before);
      RunIsHeard(before);
      StepHeard(Run(before), labels[|labels| - 1]);
    }
  }
}
