/** The remote release behind close(), and the bounded list of reported errors. */
module SdkRelease {
  import opened Payloads
  import opened OrderedSets
  import opened SessionCore
  import opened SdkRuntime

  /** A release that was requested and has neither succeeded nor been given up. */
  function Underway(s: System): nat {
    multiset(s.micro)[CallRelease] + s.inFlight + multiset(s.micro)[ReleaseDone(false)]
  }

  ghost predicate Accounts(s: System) {
    && Underway(s) + s.history.succeeded == (if s.session.closePromise then 1 else 0)
    && s.history.started == s.inFlight + s.history.succeeded + s.history.failed
    && (s.session.closePromise ==> s.session.closing)
    && (s.session.closing ==> s.history.started + multiset(s.micro)[CallRelease] >= 1)
    && s.session.errors == LastErrors(s.history.reported)
  }

  ghost predicate SameAccounts(s: System, t: System) {
    && multiset(t.micro)[CallRelease] == multiset(s.micro)[CallRelease]
    && multiset(t.micro)[ReleaseDone(false)] == multiset(s.micro)[ReleaseDone(false)]
    && t.inFlight == s.inFlight && t.session.closePromise == s.session.closePromise && t.session.closing == s.session.closing
    && t.session.errors == s.session.errors && t.history.reported == s.history.reported
    && t.history.started == s.history.started && t.history.succeeded == s.history.succeeded && t.history.failed == s.history.failed
  }

  lemma Unchanged(s: System, t: System)
    requires Accounts(s) && SameAccounts(s, t)
    ensures Accounts(t)
  {
  }

  lemma CloseAccounts(s: System)
    requires Accounts(s)
    ensures Accounts(CloseSession(s))
  {
  }

  lemma LastErrorsAppend(es: seq<ErrorCode>, e: ErrorCode)
    ensures var longer := LastErrors(es) + [e]; LastErrors(es + [e]) == if |longer| > MAX_ERRORS then longer[1..] else longer
  {
  }

  lemma ReportAccounts(s: System, e: ErrorCode)
    requires Accounts(s)
    ensures Accounts(Report(s, e))
  {
    LastErrorsAppend(s.history.reported, e);
    hide LastErrors;
  }

  lemma InboundAccounts(s: System, m: Payload)
    requires Accounts(s)
    ensures Accounts(Inbound(s, m))
  {
    match Triage(s.session, m)
    case Overflow => ReportAccounts(Push(s, OverflowClose), EarlyBufferOverflow);
    case _ => Unchanged(s, Inbound(s, m));
  }

  lemma HandshakeSame(s: System, p: Payload)
    ensures SameAccounts(s, HandshakeFrame(s, p))
  {
    hide ByteLength, IsReady;
  }

  lemma FrameAccounts(s: System, p: Payload)
    requires Accounts(s)
    ensures Accounts(SocketFrame(s, p))
  {
    var t := s.(history := s.history.(received := s.history.received + [p]));
    InboundAccounts(t, p);
    HandshakeSame(s, p);
    hide Inbound, HandshakeFrame, HandOver, IsReady, Accounts;
    if SocketFrame(s, p) != Inbound(t, p) {
      assert SameAccounts(s, SocketFrame(s, p));
      Unchanged(s, SocketFrame(s, p));
    }
  }

  lemma CloseEventAccounts(s: System)
    requires Accounts(s)
    ensures Accounts(SocketClose(s))
  {
    hide Accounts;
    var t := s.(socketOpen := false, plane := s.plane.(closed := true));
    Unchanged(s, t);
    CloseAccounts(t);
    var u := if t.session.closing then t else CloseSession(t);
    if s.phase.Live? && SocketClose(s) != s {
      Unchanged(u, SocketClose(s));
    } else {
      Unchanged(s, SocketClose(s));
    }
  }

  lemma ReleaseMicroAccounts(s: System)
    requires Accounts(s) && s.stack == [] && s.micro != [] && (s.micro[0].ReleaseDone? || s.micro[0].CallRelease?)
    ensures Accounts(Microstep(s))
  {
    assert s.micro == [s.micro[0]] + s.micro[1..];
    var t := s.(micro := s.micro[1..]);
    if s.micro[0] == ReleaseDone(false) {
      ReportAccounts(t.(session := ReleaseFailed(t.session)), RemoteReleaseFailed);
    }
  }

  /** Taking one of the other microtasks off the queue, and running it. */
  lemma DequeueSame(s: System)
    requires s.micro != [] && !s.micro[0].ReleaseDone? && !s.micro[0].CallRelease?
    ensures SameAccounts(s, s.(micro := s.micro[1..]))
  {
    assert s.micro == [s.micro[0]] + s.micro[1..];
  }

  lemma BuildSame(s: System)
    ensures SameAccounts(s, BuildSession(s))
  {
  }

  lemma ReplaySame(s: System)
    ensures SameAccounts(s, StartReplay(s))
  {
  }

  lemma FlushSame(s: System)
    ensures SameAccounts(s, StartFlush(s))
  {
  }

  lemma OtherMicroAccounts(s: System)
    requires Accounts(s) && s.stack == [] && s.micro != [] && !s.micro[0].ReleaseDone? && !s.micro[0].CallRelease?
    ensures Accounts(Microstep(s))
  {
    var t := s.(micro := s.micro[1..]);
    DequeueSame(s);
    Unchanged(s, t);
    hide Accounts;
    match s.micro[0]
    case ConstructPlane => Unchanged(t, Microstep(s));
    case ConstructSession => BuildSame(t); Unchanged(t, BuildSession(t));
    case ReplayEarly => ReplaySame(t); Unchanged(t, StartReplay(t));
    case FlushPending => FlushSame(t); Unchanged(t, StartFlush(t));
    case AppJob => Unchanged(t, Push(t, InApplication));
  }

  lemma MicroAccounts(s: System)
    requires Accounts(s)
    ensures Accounts(Microstep(s))
  {
    if s.stack == [] && s.micro != [] {
      if s.micro[0].ReleaseDone? || s.micro[0].CallRelease? {
        ReleaseMicroAccounts(s);
      } else {
        OtherMicroAccounts(s);
      }
    }
  }

  lemma DrainSame(s: System, rest: seq<Payload>)
    requires s.stack != []
    ensures SameAccounts(s, DrainNext(s, rest))
  {
  }

  lemma DeliverSame(s: System, m: Payload, waiting: seq<Listener>)
    requires s.stack != []
    ensures SameAccounts(s, DeliverNext(s, m, waiting))
  {
  }

  lemma ResumeSame(s: System)
    requires s.stack != [] && !Top(s.stack).Replaying? && !Top(s.stack).OverflowClose?
    ensures SameAccounts(s, ResumeClient(s))
  {
    match Top(s.stack)
    case Draining(rest) => DrainSame(s, rest);
    case Delivering(m, waiting) => DeliverSame(s, m, waiting);
    case _ =>
  }

  lemma ResumeAccounts(s: System)
    requires Accounts(s)
    ensures Accounts(ResumeClient(s))
  {
    hide Accounts;
    if s.stack != [] {
      match Top(s.stack)
      case Replaying(rest) =>
        var t := if rest == [] then Pop(s) else Replace(s, Replaying(rest[1..]));
        Unchanged(s, t);
        if rest != [] { InboundAccounts(t, rest[0]); }
      case OverflowClose => Unchanged(s, Pop(s)); CloseAccounts(Pop(s));
      case _ => ResumeSame(s); Unchanged(s, ResumeClient(s));
    }
  }

  lemma SubscribeSame(s: System, l: Listener)
    ensures SameAccounts(s, With(Enrol(s, l), Subscribe(s.session, l)))
  {
    hide Insert, Waiting;
  }

  lemma QueueSame(s: System)
    ensures SameAccounts(s, Act(s, AppQueueJob))
  {
    hide InApp;
  }

  lemma RegistrationSame(s: System, a: Label)
    requires a.AppUnsubscribe? || a.AppOffError? || a.AppOffClose? || a.AppReturn?
    ensures SameAccounts(s, Act(s, a))
  {
    hide InApp, Delete;
  }

  lemma NotificationSame(s: System, a: Label)
    requires a.AppOnError? || a.AppOnClose?
    ensures SameAccounts(s, Act(s, a))
  {
    hide InApp, Insert;
  }

  lemma ActSame(s: System, a: Label)
    requires !a.AppClose? && !a.AppThrow?
    ensures SameAccounts(s, Act(s, a))
  {
    match a
    case AppSubscribe(l) => SubscribeSame(s, l); hide With, Enrol, Subscribe, InApp;
    case AppQueueJob => QueueSame(s);
    case AppOnError(_) => hide Act; NotificationSame(s, a);
    case AppOnClose(_) => hide Act; NotificationSame(s, a);
    case AppUnsubscribe(_) => hide Act; RegistrationSame(s, a);
    case AppOffError(_) => hide Act; RegistrationSame(s, a);
    case AppOffClose(_) => hide Act; RegistrationSame(s, a);
    case AppReturn => hide Act; RegistrationSame(s, a);
    case _ => hide InApp;
  }

  lemma ActAccounts(s: System, a: Label)
    requires Accounts(s)
    ensures Accounts(Act(s, a))
  {
    hide Accounts;
    match a
    case AppClose => CloseAccounts(s);
    case AppThrow =>
      if InApp(s) {
        Unchanged(s, Pop(s));
        ReportAccounts(Pop(s), MessageListenerError);
        ReportAccounts(Pop(s), CloseListenerError);
      }
    case _ => ActSame(s, a); Unchanged(s, Act(s, a));
  }

  lemma StepAccounts(s: System, a: Label)
    requires Accounts(s)
    ensures Accounts(Step(s, a))
  {
    hide Accounts;
    match a
    case Wire(p) => FrameAccounts(s, p);
    case SocketCloses => CloseEventAccounts(s);
    case RunMicrotask => MicroAccounts(s);
    case Resume => ResumeAccounts(s);
    case SocketOpens(_) => EventAccounts(s, a);
    case SocketFails => EventAccounts(s, a);
    case Timeout => EventAccounts(s, a);
    case Abort => EventAccounts(s, a);
    case ReleaseSettles(_) => EventAccounts(s, a);
    case EnterApplication => EventAccounts(s, a);
    case _ => ActAccounts(s, a);
  }

  lemma EventAccounts(s: System, a: Label)
    requires Accounts(s)
    requires a.SocketOpens? || a.SocketFails? || a.Timeout? || a.Abort? || a.ReleaseSettles? || a.EnterApplication?
    ensures Accounts(Step(s, a))
  {
  }

  lemma {:induction false} RunAccounts(labels: seq<Label>)
    ensures Accounts(Run(labels))
  {
    if labels != [] {
      RunAccounts(labels[..|labels| - 1]);
      StepAccounts(Run(labels[..|labels| - 1]), labels[|labels| - 1]);
    }
  }

  // ---------------------------------------------------------------- across runs

  /** Facts that later steps can only extend. */
  ghost predicate Later(s: System, t: System) {
    && (s.session.closing ==> t.session.closing && t.history.calls == s.history.calls && t.history.dispatched == s.history.dispatched)
    && (s.history.succeeded > 0 ==> t.history.succeeded == s.history.succeeded && t.history.started == s.history.started)
    && s.history.calls <= t.history.calls && s.history.dispatched <= t.history.dispatched
    && s.history.received <= t.history.received && s.history.reported <= t.history.reported
    && s.history.started <= t.history.started
  }

  lemma InboundLater(s: System, m: Payload)
    ensures Later(s, Inbound(s, m))
  {
    hide ByteLength, Record, Insert, Delete;
  }

  lemma HandshakeLater(s: System, p: Payload)
    ensures Later(s, HandshakeFrame(s, p))
  {
    hide ByteLength, IsReady;
  }

  lemma FrameLater(s: System, p: Payload)
    ensures Later(s, SocketFrame(s, p))
  {
    InboundLater(s.(history := s.history.(received := s.history.received + [p])), p);
    HandshakeLater(s, p);
    hide Inbound, HandshakeFrame, HandOver, IsReady;
  }

  lemma TaskLater(s: System)
    ensures Later(s, BuildSession(s)) && Later(s, StartReplay(s)) && Later(s, StartFlush(s))
  {
    BuildLater(s);
    FlushLater(s);
    hide BuildSession, StartReplay, StartFlush;
  }

  lemma BuildLater(s: System)
    ensures Later(s, BuildSession(s)) && Later(s, StartReplay(s))
  {
  }

  lemma FlushLater(s: System)
    ensures Later(s, StartFlush(s))
  {
  }

  lemma DequeuedLater(s: System, u: System)
    requires s.micro != [] && Later(s.(micro := s.micro[1..]), u)
    ensures Later(s, u)
  {
  }

  lemma CallReleaseLater(s: System)
    requires Accounts(s) && s.stack == [] && s.micro != [] && s.micro[0].CallRelease?
    ensures Later(s, Microstep(s))
  {
    assert CallRelease in s.micro;
    assert s.history.succeeded == 0;
  }

  lemma ReleaseDoneLater(s: System)
    requires s.stack == [] && s.micro != [] && s.micro[0].ReleaseDone?
    ensures Later(s, Microstep(s))
  {
    var t := s.(micro := s.micro[1..]);
    ReportLater(t.(session := ReleaseFailed(t.session)), RemoteReleaseFailed);
    hide Report;
  }

  lemma QueueLater(s: System)
    requires s.stack == [] && s.micro != [] && (s.micro[0].ConstructPlane? || s.micro[0].AppJob?)
    ensures Later(s, Microstep(s))
  {
  }

  lemma MicroLater(s: System)
    requires Accounts(s)
    ensures Later(s, Microstep(s))
  {
    if s.stack == [] && s.micro != [] {
      var t := s.(micro := s.micro[1..]);
      TaskLater(t);
      hide Accounts, Later, BuildSession, StartReplay, StartFlush;
      match s.micro[0]
      case ConstructPlane => QueueLater(s);
      case AppJob => QueueLater(s);
      case CallRelease => CallReleaseLater(s);
      case ReleaseDone(_) => ReleaseDoneLater(s);
      case ConstructSession => DequeuedLater(s, BuildSession(t));
      case ReplayEarly => DequeuedLater(s, StartReplay(t));
      case FlushPending => DequeuedLater(s, StartFlush(t));
    }
  }

  lemma LoopLater(s: System, rest: seq<Payload>)
    requires s.stack != []
    ensures Later(s, ReplayNext(s, rest)) && Later(s, DrainNext(s, rest))
  {
    if rest != [] { InboundLater(Replace(s, Replaying(rest[1..])), rest[0]); }
    hide Inbound;
  }

  lemma ResumeLater(s: System)
    ensures Later(s, ResumeClient(s))
  {
    if s.stack != [] && (Top(s.stack).Replaying? || Top(s.stack).Draining?) {
      LoopLater(s, Top(s.stack).rest);
    }
    hide ReplayNext, DrainNext;
  }

  lemma ReportLater(s: System, e: ErrorCode)
    ensures Later(s, Report(s, e))
  {
  }

  lemma ThrowLater(s: System)
    ensures Later(s, Act(s, AppThrow))
  {
    if InApp(s) {
      ReportLater(Pop(s), MessageListenerError);
      ReportLater(Pop(s), CloseListenerError);
    }
    hide Report, InApp;
  }

  lemma AppCloseLater(s: System)
    ensures Later(s, Act(s, AppClose))
  {
  }

  lemma ActLater(s: System, a: Label)
    ensures Later(s, Act(s, a))
  {
    ThrowLater(s);
    AppCloseLater(s);
    if !a.AppThrow? && !a.AppClose? {
      hide Report, CloseSession, Insert, Delete, ScheduleFlush, Waiting, InApp;
    }
  }

  lemma EventLater(s: System, a: Label)
    requires a.SocketOpens? || a.SocketFails? || a.Timeout? || a.Abort? || a.EnterApplication? || a.ReleaseSettles?
    requires s.history.succeeded > 0 ==> s.inFlight == 0
    ensures Later(s, Step(s, a))
  {
  }

  lemma SocketCloseLater(s: System)
    ensures Later(s, SocketClose(s))
  {
    hide HandOver;
  }

  lemma StepLater(s: System, a: Label)
    requires Accounts(s)
    ensures Later(s, Step(s, a))
  {
    assert s.history.succeeded > 0 ==> s.inFlight == 0;
    hide Later, Accounts;
    match a
    case Wire(p) => FrameLater(s, p);
    case RunMicrotask => MicroLater(s);
    case Resume => ResumeLater(s);
    case SocketCloses => SocketCloseLater(s);
    case SocketOpens(_) => EventLater(s, a);
    case SocketFails => EventLater(s, a);
    case Timeout => EventLater(s, a);
    case Abort => EventLater(s, a);
    case ReleaseSettles(_) => EventLater(s, a);
    case EnterApplication => EventLater(s, a);
    case _ => ActLater(s, a);
  }
}
