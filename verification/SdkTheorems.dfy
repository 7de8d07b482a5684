/** The streaming client's guarantees, over every run. */
module SdkTheorems {
  import opened Payloads
  import opened OrderedSets
  import opened SessionCore
  import opened SdkRuntime
  import opened SdkFifo
  import opened SdkListeners
  import opened SdkRelease

  // ---------------------------------------------------------------- order

  /**
   * Dispatched frames, the rest of the draining batch, the session buffer, the rest of a
   * replay and the data plane's early queue spell the application frames taken off the
   * wire; what was dispatched stays a prefix of them even after the session ended.
   */
  lemma {:induction false} FramesStayInOrder(labels: seq<Label>)
    ensures var s := Run(labels);
      && s.history.dispatched <= s.history.received
      && (forall f | f in s.history.received :: IsFrame(f))
      && (!s.session.closing && !Overflowing(s.stack) && !s.phase.Abandoned? ==>
            s.history.dispatched + DrainRest(s.stack) + s.session.pending + ReplayRest(s.stack) + s.plane.captured + s.plane.early
            == s.history.received)
  {
    hide Run;
    hide Step;
    RunIsSafe(labels);
    var s := Run(labels);
    assert s.history.dispatched + Outstanding(s, []) ==
      s.history.dispatched + DrainRest(s.stack) + s.session.pending + ReplayRest(s.stack) + s.plane.captured + s.plane.early;
  }

  /** No lost wake-up: once the client has nothing left to run, a listener has been given everything. */
  lemma {:induction false} QuietSessionOwesNothing(labels: seq<Label>)
    requires var s := Run(labels); s.stack == [] && s.micro == [] && s.phase.Live? && !s.session.closing && s.session.listeners != []
    ensures Run(labels).history.dispatched == Run(labels).history.received
  {
    hide Run;
    hide Step;
    RunIsSafe(labels);
  }

  /** Both client-side queues stay within their limits, and the byte counters are exact. */
  lemma {:induction false} QueuesStayBounded(labels: seq<Label>)
    ensures var s := Run(labels);
      && s.session.pendingBytes == TotalLength(s.session.pending) <= MAX_BUFFERED_BYTES
      && |s.session.pending| <= MAX_PENDING_FRAMES
      && EarlyBounded(s)
      && (s.session.listeners != [] && s.session.pending != [] && !s.session.closing ==>
            FlushPending in s.micro || Drains(s.stack))
  {
    hide Run;
    hide Step;
    RunIsSafe(labels);
    RunEarlyBounded(labels);
  }

  ghost predicate EarlyBounded(s: System) {
    s.phase.Handshaking? || s.phase.Pairing? ==>
      && s.plane.earlyBytes == TotalLength(s.plane.early) <= MAX_BUFFERED_BYTES
      && forall i | 0 <= i < |s.plane.early| :: ByteLength(s.plane.early[i]) <= MAX_FRAME_BYTES
  }

  lemma TotalGrows(ps: seq<Payload>, p: Payload)
    ensures TotalLength(ps + [p]) == TotalLength(ps) + ByteLength(p)
  {
    hide ByteLength;
    assert (ps + [p])[..|ps|] == ps;
  }

  lemma HandshakeBounded(s: System, p: Payload)
    requires EarlyBounded(s) && s.phase.Handshaking?
    ensures EarlyBounded(HandshakeFrame(s, p))
  {
    TotalGrows(s.plane.early, p);
    hide TotalLength, ByteLength, IsReady;
    forall i | 0 <= i < |s.plane.early| ensures ByteLength((s.plane.early + [p])[i]) <= MAX_FRAME_BYTES {
      assert (s.plane.early + [p])[i] == s.plane.early[i];
    }
  }

  /** Everything but a handshake frame leaves the early queue alone or hands it over. */
  ghost predicate SameEarly(s: System, t: System) {
    t.phase.Handshaking? || t.phase.Pairing? ==>
      t.plane.early == s.plane.early && t.plane.earlyBytes == s.plane.earlyBytes && (s.phase.Handshaking? || s.phase.Pairing?)
  }

  lemma MicroEarly(s: System)
    ensures SameEarly(s, Microstep(s))
  {
    hide Record, BeginFlush;
  }

  lemma ActEarly(s: System, a: Label)
    ensures SameEarly(s, Act(s, a))
  {
    hide Insert, Delete, Subscribe, Unsubscribe, Record, Close, Waiting;
  }

  lemma InboundEarly(s: System, m: Payload)
    ensures SameEarly(s, Inbound(s, m))
  {
    hide Enqueue, Record, ByteLength;
  }

  lemma ResumeEarly(s: System)
    ensures SameEarly(s, ResumeClient(s))
  {
    if s.stack != [] && Top(s.stack).Replaying? && Top(s.stack).rest != [] {
      InboundEarly(Replace(s, Replaying(Top(s.stack).rest[1..])), Top(s.stack).rest[0]);
    }
    hide Inbound, Close, EndFlush;
  }

  lemma EarlyUntouched(s: System, a: Label)
    requires !a.Wire? || !s.phase.Handshaking?
    ensures SameEarly(s, Step(s, a))
  {
    match a
    case RunMicrotask => MicroEarly(s);
    case Resume => ResumeEarly(s);
    case Wire(p) =>
      InboundEarly(s.(history := s.history.(received := s.history.received + [p])), p);
      hide Inbound, HandshakeFrame;
    case SocketOpens(_) =>
    case SocketFails =>
    case Timeout =>
    case Abort =>
    case SocketCloses =>
    case ReleaseSettles(_) =>
    case EnterApplication =>
    case _ => ActEarly(s, a);
  }

  lemma {:induction false} RunEarlyBounded(labels: seq<Label>)
    ensures EarlyBounded(Run(labels))
  {
    if labels != [] {
      var s, a := Run(labels[..|labels| - 1]), labels[|labels| - 1];
      RunEarlyBounded(labels[..|labels| - 1]);
      if a.Wire? && s.phase.Handshaking? {
        HandshakeBounded(s, a.payload);
      } else {
        EarlyUntouched(s, a);
      }
    }
  }

  // ---------------------------------------------------------------- listeners

  /** A subscribed listener has heard a gap-free slice of the wire, starting at its subscription. */
  lemma {:induction false} ListenersHearSlices(labels: seq<Label>, l: Listener)
    requires l in Run(labels).session.listeners
    ensures var s := Run(labels);
      && l in s.history.seen && l in s.history.joined
      && s.history.joined[l] <= |s.history.received|
      && s.history.seen[l] <= s.history.received[s.history.joined[l]..]
      && s.history.joined[l] <= |s.history.dispatched|
      && (s.stack == [] && !s.session.closing ==> s.history.seen[l] == s.history.dispatched[s.history.joined[l]..])
  {
    hide Run;
    hide Step;
    RunIsSafe(labels);
    RunIsHeard(labels);
    var s := Run(labels);
    assert Slice(s, l);
    var d, r := s.history.dispatched, s.history.received;
    assert r[..|d|] == d;
  }

  /** Steps that neither subscribe, nor unsubscribe, nor close. */
  ghost predicate Steady(s: System, t: System) {
    t.session.listeners == s.session.listeners && t.history.joined == s.history.joined && t.session.closing == s.session.closing
  }

  lemma ReportSteady(s: System, e: ErrorCode)
    ensures Steady(s, Report(s, e))
  {
  }

  lemma InboundSteady(s: System, m: Payload)
    ensures Steady(s, Inbound(s, m))
  {
    ReportSteady(Push(s, OverflowClose), EarlyBufferOverflow);
    hide Report, ByteLength;
  }

  lemma FrameSteady(s: System, p: Payload)
    ensures Steady(s, SocketFrame(s, p))
  {
    InboundSteady(s.(history := s.history.(received := s.history.received + [p])), p);
    hide Inbound, HandOver, IsReady, ByteLength;
  }

  lemma MicroSteady(s: System)
    ensures Steady(s, Microstep(s))
  {
    if s.stack == [] && s.micro != [] {
      var t := s.(micro := s.micro[1..]);
      BuildSteady(t);
      FlushSteady(t);
      ReportSteady(t.(session := ReleaseFailed(t.session)), RemoteReleaseFailed);
      hide BuildSession, StartReplay, StartFlush, Report;
    }
  }

  lemma BuildSteady(s: System)
    ensures Steady(s, BuildSession(s)) && Steady(s, StartReplay(s))
  {
  }

  lemma FlushSteady(s: System)
    ensures Steady(s, StartFlush(s))
  {
  }

  lemma LoopSteady(s: System, rest: seq<Payload>)
    requires s.stack != []
    ensures Steady(s, ReplayNext(s, rest)) && Steady(s, DrainNext(s, rest))
  {
    if rest != [] { InboundSteady(Replace(s, Replaying(rest[1..])), rest[0]); }
    hide Inbound;
  }

  lemma ResumeSteady(s: System)
    ensures !(s.stack != [] && Top(s.stack).OverflowClose?) ==> Steady(s, ResumeClient(s))
    ensures ResumeClient(s).session.listeners == s.session.listeners && ResumeClient(s).history.joined == s.history.joined
  {
    if s.stack != [] && FrameLoop(Top(s.stack)) {
      LoopSteady(s, Top(s.stack).rest);
    }
    hide ReplayNext, DrainNext;
  }

  lemma ThrowSteady(s: System)
    ensures Steady(s, Act(s, AppThrow))
  {
    if InApp(s) {
      ReportSteady(Pop(s), MessageListenerError);
      ReportSteady(Pop(s), CloseListenerError);
    }
    hide Report;
  }

  lemma ActSteady(s: System, a: Label)
    requires !a.AppUnsubscribe? && !a.AppSubscribe?
    ensures !(a.AppClose? && InApp(s)) ==> Steady(s, Act(s, a))
    ensures Act(s, a).session.listeners == s.session.listeners && Act(s, a).history.joined == s.history.joined
  {
    if a.AppThrow? { ThrowSteady(s); } else { hide Report; }
    hide Delete, Insert;
  }

  lemma SubscribingStaysOpen(s: System, a: Label)
    requires a.AppUnsubscribe? || a.AppSubscribe?
    ensures Act(s, a).session.closing == s.session.closing
  {
    hide Delete, Insert;
  }

  lemma SubscriptionStays(s: System, a: Label, l: Listener)
    requires l in s.session.listeners && l in s.history.joined && a != AppUnsubscribe(l)
    ensures var t := Step(s, a); l in t.session.listeners && l in t.history.joined && t.history.joined[l] == s.history.joined[l]
  {
    match a
    case RunMicrotask => MicroSteady(s);
    case Resume => ResumeSteady(s);
    case Wire(p) => FrameSteady(s, p);
    case SocketOpens(_) =>
    case SocketFails =>
    case Timeout =>
    case Abort =>
    case SocketCloses =>
    case ReleaseSettles(_) =>
    case EnterApplication =>
    case _ => ActSubscriptions(s, a, l);
  }

  lemma ActSubscriptions(s: System, a: Label, l: Listener)
    requires l in s.session.listeners && l in s.history.joined && a != AppUnsubscribe(l)
    ensures var t := Act(s, a); l in t.session.listeners && l in t.history.joined && t.history.joined[l] == s.history.joined[l]
  {
    match a
    case AppSubscribe(k) => InsertAdds(s.session.listeners, k);
    case AppUnsubscribe(k) => DeleteRemoves(s.session.listeners, k);
    case _ => ActSteady(s, a);
  }

  /** A listener subscribed before the first dispatch and never removed hears exactly a prefix of the wire. */
  lemma {:induction false} PermanentListenerHearsPrefix(before: seq<Label>, l: Listener, after: seq<Label>)
    requires BeforeDispatch(Run(before), l)
    requires AppUnsubscribe(l) !in after
    ensures var s := Run(before + [AppSubscribe(l)] + after);
      && l in s.session.listeners && l in s.history.seen
      && s.history.seen[l] <= s.history.received
  {
    var all := before + [AppSubscribe(l)] + after;
    FromTheStart(before, l, after);
    hide Run;
    ListenersHearSlices(all, l);
  }

  lemma {:induction false} RunAppends(labels: seq<Label>, a: Label)
    ensures Run(labels + [a]) == Step(Run(labels), a)
  {
    hide Step;
    assert (labels + [a])[..|labels|] == labels;
  }

  /** The application may subscribe l for the first time, and nothing was dispatched yet. */
  ghost predicate BeforeDispatch(s: System, l: Listener) {
    InApp(s) && s.phase.Live? && !s.session.closing && s.history.dispatched == [] && l !in s.session.listeners
  }

  ghost predicate SubscribedAtZero(s: System, l: Listener) {
    l in s.session.listeners && l in s.history.joined && s.history.joined[l] == 0
  }

  lemma StartsAtZero(s: System, l: Listener)
    requires BeforeDispatch(s, l)
    ensures SubscribedAtZero(Step(s, AppSubscribe(l)), l)
  {
    InsertAdds(s.session.listeners, l);
    hide Insert, InApp;
  }

  lemma ZeroStays(s: System, a: Label, l: Listener)
    requires SubscribedAtZero(s, l) && a != AppUnsubscribe(l)
    ensures SubscribedAtZero(Step(s, a), l)
  {
    hide Step;
    SubscriptionStays(s, a, l);
  }

  lemma {:induction false} FromTheStart(before: seq<Label>, l: Listener, after: seq<Label>)
    requires BeforeDispatch(Run(before), l) && AppUnsubscribe(l) !in after
    ensures SubscribedAtZero(Run(before + [AppSubscribe(l)] + after), l)
  {
    hide BeforeDispatch, SubscribedAtZero, Run, Step;
    var all := before + [AppSubscribe(l)] + after;
    if after == [] {
      assert all == before + [AppSubscribe(l)];
      RunAppends(before, AppSubscribe(l));
      StartsAtZero(Run(before), l);
    } else {
      var n := |after| - 1;
      var middle := before + [AppSubscribe(l)] + after[..n];
      assert all == middle + [after[n]];
      FromTheStart(before, l, after[..n]);
      RunAppends(middle, after[n]);
      ZeroStays(Run(middle), after[n], l);
    }
  }

  // ---------------------------------------------------------------- close and release

  lemma LaterIsReflexive(s: System)
    ensures Later(s, s)
  {
  }

  lemma LaterIsTransitive(s: System, t: System, u: System)
    requires Later(s, t) && Later(t, u)
    ensures Later(s, u)
  {
  }

  lemma {:induction false} RunLater(before: seq<Label>, after: seq<Label>)
    ensures Later(Run(before), Run(before + after))
  {
    hide Later;
    hide Step;
    var all := before + after;
    if after == [] {
      assert all == before;
      LaterIsReflexive(Run(before));
    } else {
      var n := |after| - 1;
      assert all[..|all| - 1] == before + after[..n];
      RunLater(before, after[..n]);
      RunAccounts(before + after[..n]);
      StepLater(Run(before + after[..n]), after[n]);
      LaterIsTransitive(Run(before), Run(before + after[..n]), Run(all));
    }
  }

  /** Once the session closes, no message listener is ever called again. */
  lemma {:induction false} ClosedSessionIsSilent(before: seq<Label>, after: seq<Label>)
    requires Run(before).session.closing
    ensures Run(before + after).session.closing
    ensures Run(before + after).history.calls == Run(before).history.calls
  {
    hide Run;
    hide Step;
    RunLater(before, after);
  }

  /** At most one remote release is requested or in flight, and a closing session has asked for one. */
  lemma {:induction false} ReleaseIsSingleFlight(labels: seq<Label>)
    ensures var s := Run(labels);
      && Underway(s) + s.history.succeeded <= 1
      && s.history.started == s.inFlight + s.history.succeeded + s.history.failed
      && (s.session.closing ==> s.history.started >= 1 || CallRelease in s.micro)
      && (s.session.closing && !s.session.closePromise ==> s.history.failed >= 1 && Underway(s) == 0)
  {
    hide Run;
    hide Step;
    RunAccounts(labels);
  }

  /** After one release succeeded no other one starts. */
  lemma {:induction false} ReleaseNeverRestarts(before: seq<Label>, after: seq<Label>)
    requires Run(before).history.succeeded > 0
    ensures Run(before + after).history.started == Run(before).history.started
    ensures Run(before + after).history.succeeded == Run(before).history.succeeded == 1
  {
    hide Run;
    hide Step;
    RunLater(before, after);
    RunAccounts(before);
  }

  /** After the failure was handled, close() requests a new release; before that it does not. */
  lemma {:induction false} CloseRetriesExactlyAfterFailure(labels: seq<Label>)
    requires var s := Run(labels); InApp(s) && s.phase.Live? && s.session.closing
    ensures var s := Run(labels);
      Step(s, AppClose).micro == (if Underway(s) + s.history.succeeded == 0 then s.micro + [CallRelease] else s.micro)
  {
    hide Run;
    RunAccounts(labels);
  }

  /** The diagnostic list is the last sixteen reports, oldest first. */
  lemma {:induction false} ErrorsAreTheLastReports(labels: seq<Label>)
    ensures var s := Run(labels);
      && |s.session.errors| == (if |s.history.reported| < MAX_ERRORS then |s.history.reported| else MAX_ERRORS)
      && s.session.errors == s.history.reported[|s.history.reported| - |s.session.errors|..]
  {
    hide Run;
    hide Step;
    RunAccounts(labels);
  }

  /** A closed socket closes the session and has its release asked for. */
  lemma {:induction false} SocketClosureReleases(labels: seq<Label>)
    requires Run(labels).plane.closed
    ensures var s := Run(labels); s.session.closing && (s.history.started >= 1 || CallRelease in s.micro)
  {
    hide Run;
    RunIsSafe(labels);
    RunAccounts(labels);
  }

  // ---------------------------------------------------------------- what is refused

  /** An application frame is taken off the wire whatever happens, and overflows exactly when it has to wait and finds no room. */
  lemma {:induction false} FramesAreTakenUnlessFull(labels: seq<Label>, p: Payload)
    requires IsFrame(p)
    requires var s := Run(labels);
      s.stack == [] && s.phase.Live? && s.socketOpen && s.plane.attached && !HandOver(s.micro) && !s.session.closing
    ensures var s, t := Run(labels), Step(Run(labels), Wire(p));
      && t.history.received == s.history.received + [p]
      && (Overflowing(t.stack) <==>
            && (s.session.listeners == [] || s.history.dispatched != s.history.received || FlushPending in s.micro)
            && (|s.session.pending| == MAX_PENDING_FRAMES || TotalLength(s.session.pending) + ByteLength(p) > MAX_BUFFERED_BYTES))
      && (t.history.dispatched == t.history.received <==>
            s.session.listeners != [] && s.history.dispatched == s.history.received && FlushPending !in s.micro)
  {
    RunIsSafe(labels);
    var s := Run(labels);
    hide Run;
    assert s.plane.captured == [] && s.plane.early == [] && s.history.dispatched + s.session.pending == s.history.received by {
      assert s.history.dispatched + Outstanding(s, []) == s.history.dispatched + s.session.pending;
    }
    hide Safe, HandOver;
    assert s.session.pending == [] <==> s.history.dispatched == s.history.received;
    var r := s.(history := s.history.(received := s.history.received + [p]));
    assert Step(s, Wire(p)) == Inbound(r, p);
    TakenInbound(r, p);
  }

  lemma TakenInbound(s: System, p: Payload)
    requires s.stack == [] && !s.session.closing
    ensures var t, now := Inbound(s, p), s.session.listeners != [] && !s.session.flushQueued && !s.session.draining && s.session.pending == [];
      && t.history.received == s.history.received
      && t.history.dispatched == (if now then s.history.dispatched + [p] else s.history.dispatched)
      && (Overflowing(t.stack) <==>
            !now && (|s.session.pending| >= MAX_PENDING_FRAMES || s.session.pendingBytes + ByteLength(p) > MAX_BUFFERED_BYTES))
  {
  }

  /** Before readiness the socket is given up exactly for a frame that comes too early, is no frame, or finds no room. */
  lemma {:induction false} HandshakeRefusesExactly(labels: seq<Label>, p: Payload)
    requires var s := Run(labels); s.stack == [] && s.phase.Handshaking? && s.socketOpen && !HandOver(s.micro)
    ensures var s, t := Run(labels), Step(Run(labels), Wire(p));
      && (t.phase.Abandoned? <==>
            !s.plane.openedOk || (!IsReady(p) && (p.Foreign? || ByteLength(p) > MAX_FRAME_BYTES || TotalLength(s.plane.early) + ByteLength(p) > MAX_BUFFERED_BYTES)))
      && (t.phase.Pairing? <==> s.plane.openedOk && IsReady(p))
      && (t.phase.Handshaking? ==> t.plane.early == s.plane.early + [p])
  {
    RunEarlyBounded(labels);
  }

  /** An open session starts to close for three reasons only: the application, the socket, or an overflow it reported. */
  lemma {:induction false} ClosesOnlyForCause(labels: seq<Label>, a: Label)
    ensures var s := Run(labels);
      s.session.closing || !Step(s, a).session.closing
      || (a.AppClose? && InApp(s))
      || (a.SocketCloses? && !s.plane.closed)
      || (a.Resume? && s.stack != [] && Top(s.stack).OverflowClose?)
  {
    hide Run;
    if !Run(labels).session.closing && Step(Run(labels), a).session.closing {
      CauseOfClosing(Run(labels), a);
    }
  }

  lemma CauseOfClosing(s: System, a: Label)
    requires !s.session.closing && Step(s, a).session.closing
    ensures (a.AppClose? && InApp(s)) || (a.SocketCloses? && !s.plane.closed) || (a.Resume? && s.stack != [] && Top(s.stack).OverflowClose?)
  {
    match a
    case RunMicrotask => MicroSteady(s);
    case Resume => ResumeSteady(s);
    case Wire(p) => FrameSteady(s, p);
    case SocketOpens(_) =>
    case SocketFails =>
    case Timeout =>
    case Abort =>
    case SocketCloses =>
    case ReleaseSettles(_) =>
    case EnterApplication =>
    case AppSubscribe(_) => SubscribingStaysOpen(s, a);
    case AppUnsubscribe(_) => SubscribingStaysOpen(s, a);
    case _ => ActSteady(s, a);
  }

  // ---------------------------------------------------------------- the scheduling assumption

  lemma SameTail<T>(head: seq<T>, a: seq<T>, b: seq<T>)
    ensures head + a == head + b <==> a == b
  {
    assert (head + a)[|head|..] == a && (head + b)[|head|..] == b;
  }

  /** What a frame accepted ahead of the replay callback does to the order of frames. */
  lemma Overtaking(s: System, p: Payload)
    requires InOrder(s, []) && !Ended(s) && s.phase.Live? && s.stack == [] && s.plane.early == [] && s.plane.attached && IsFrame(p)
    requires Triage(s.session, p).DeliverNow? || Triage(s.session, p).Buffer?
    requires s.session.draining == Drains(s.stack)
    ensures var t, head := LiveFrame(s, p), s.history.dispatched + s.session.pending;
      && !Ended(t)
      && t.history.received == head + (s.plane.captured + [p])
      && t.history.dispatched + Outstanding(t, []) == head + ([p] + s.plane.captured)
      && t.history.dispatched <= head + [p]
      && forall i | 0 <= i < |t.history.received| :: IsFrame(t.history.received[i])
  {
  }

  /**
   * The hand-over needs the microtask checkpoint: had a frame been accepted while the
   * replay callback was still queued, order would survive only if the frame commutes
   * with everything the callback still holds.
   */
  lemma {:induction false} FrameBeforeReplayKeepsOrderOnlyIfItCommutes(s: System, p: Payload)
    requires Safe(s) && !Ended(s) && s.phase.Live? && s.stack == [] && s.plane.attached && IsFrame(p)
    requires Triage(s.session, p) != Overflow
    ensures InOrder(LiveFrame(s, p), []) <==> s.plane.captured + [p] == [p] + s.plane.captured
  {
    Overtaking(s, p);
    assert forall i | 0 <= i < |s.history.received| :: IsFrame(s.history.received[i]);
    hide LiveFrame, Safe, Triage, IsFrame, Ended, Outstanding;
    OrderMeansCommuting(LiveFrame(s, p), s.history.dispatched + s.session.pending, s.plane.captured, p);
  }

  lemma OrderMeansCommuting(t: System, head: seq<Payload>, c: seq<Payload>, p: Payload)
    requires !Ended(t) && t.history.received == head + (c + [p])
    requires t.history.dispatched + Outstanding(t, []) == head + ([p] + c) && t.history.dispatched <= head + [p]
    requires forall i | 0 <= i < |t.history.received| :: IsFrame(t.history.received[i])
    ensures InOrder(t, []) <==> c + [p] == [p] + c
  {
    hide Ended, Outstanding, IsFrame;
    SameTail(head, [p] + c, c + [p]);
    if c + [p] == [p] + c {
      assert t.history.received == (head + [p]) + c;
      assert t.history.received[..|head + [p]|] == head + [p];
    }
  }
}
