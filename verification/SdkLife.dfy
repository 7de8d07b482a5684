/**
 * The whole life of one session ID in the TypeScript client: openSession up to the
 * hand-over (packages/gpulink-sdk/src/index.ts), and then the session object. Both may
 * call closeSession for the ID; together they behave as one owner.
 */
module SdkLife {
  import Payloads
  import opened SessionCore
  import opened SdkRuntime
  import opened SdkFifo
  import opened SdkRelease
  import A = Acquisition

  /** How far openSession has come. */
  datatype Stage =
    | Requesting // no ID yet
    | Rejected   // it threw without one
    | Polling
    | Connecting // grant issued, socket being opened
    | Failing    // in the catch block
    | Cleaning   // its closeSession is in flight
    | Thrown
    | Owned      // the session was returned

  datatype Life = Life(stage: Stage, client: System, cleanups: nat, good: nat, bad: nat)

  const BIRTH := Life(Requesting, START, 0, 0, 0)

  datatype Event =
    | Created(idOk: bool)
    | Polled(poll: A.Poll)
    | DeadlineInPoll
    | GrantFails
    | Client(step: Label)    // the handshake, the data plane and the session
    | Cleanup
    | CleanupSettles(ok: bool)

  function GiveUp(l: Life): Life {
    l.(stage := Failing, client := Abandon(l.client))
  }

  /** One turn of the allocation loop. */
  function Poll(l: Life, p: A.Poll): Life {
    if !A.Answers(p) then GiveUp(l)
    else if A.IsActivated(p.reply.value) then l.(stage := Connecting)
    else if A.IsWaiting(p.reply.value) && !p.abortedWaiting then l
    else GiveUp(l)
  }

  /** The client runs; openSession returns with a live session and fails with an abandoned socket. */
  function RunClient(l: Life, a: Label): Life {
    var next := l.(client := Step(l.client, a));
    if !l.stage.Connecting? then next
    else if next.client.phase.Live? then next.(stage := Owned)
    else if next.client.phase.Abandoned? then next.(stage := Failing)
    else next
  }

  function LifeStep(l: Life, e: Event): Life {
    match e
    case Created(idOk) => if l.stage.Requesting? then l.(stage := if idOk then Polling else Rejected) else l
    case Polled(p) => if l.stage.Polling? then Poll(l, p) else l
    case DeadlineInPoll => if l.stage.Polling? then GiveUp(l) else l
    case GrantFails => if l.stage.Connecting? && l.client == START then GiveUp(l) else l
    case Client(a) => if l.stage.Requesting? || l.stage.Rejected? || l.stage.Polling? then l else RunClient(l, a)
    case Cleanup => if l.stage.Failing? then l.(stage := Cleaning, cleanups := l.cleanups + 1) else l
    case CleanupSettles(ok) =>
      if !l.stage.Cleaning? then l
      else l.(stage := Thrown, good := l.good + (if ok then 1 else 0), bad := l.bad + (if ok then 0 else 1))
  }

  function Lived(events: seq<Event>): Life {
    if events == [] then BIRTH else LifeStep(Lived(events[..|events| - 1]), events[|events| - 1])
  }

  // ---------------------------------------------------------------- both owners together

  /** All calls of closeSession for the ID. */
  function Started(l: Life): nat { l.cleanups + l.client.history.started }

  function Succeeded(l: Life): nat { l.good + l.client.history.succeeded }

  function Failed(l: Life): nat { l.bad + l.client.history.failed }

  function InFlight(l: Life): int { Started(l) - Succeeded(l) - Failed(l) }

  // ---------------------------------------------------------------- what the client adds

  /** An open session has not released anything. */
  ghost predicate Unreleased(s: System) {
    !s.session.closing ==> s.history.started == 0 && s.history.succeeded == 0 && s.history.failed == 0
  }

  ghost predicate SameReleases(s: System, t: System) {
    t.history.started == s.history.started && t.history.succeeded == s.history.succeeded && t.history.failed == s.history.failed
  }

  lemma ReportReleases(s: System, e: ErrorCode)
    ensures SameReleases(s, Report(s, e))
  {
  }

  lemma TaskReleases(s: System)
    ensures SameReleases(s, BuildSession(s)) && SameReleases(s, StartReplay(s)) && SameReleases(s, StartFlush(s))
  {
  }

  lemma MicroReleases(s: System)
    requires CallRelease !in s.micro
    ensures SameReleases(s, Microstep(s))
  {
    if s.stack == [] && s.micro != [] {
      var t := s.(micro := s.micro[1..]);
      assert s.micro[0] != CallRelease;
      TaskReleases(t);
      ReportReleases(t.(session := ReleaseFailed(t.session)), RemoteReleaseFailed);
      hide BuildSession, StartReplay, StartFlush, Report;
    }
  }

  lemma InboundReleases(s: System, m: Payloads.Payload)
    ensures SameReleases(s, Inbound(s, m))
  {
    hide Payloads.ByteLength, Record;
  }

  lemma FrameReleases(s: System, p: Payloads.Payload)
    ensures SameReleases(s, SocketFrame(s, p))
  {
    InboundReleases(s.(history := s.history.(received := s.history.received + [p])), p);
    hide Inbound, HandOver, Payloads.IsReady, Payloads.ByteLength;
  }

  lemma LoopReleases(s: System, rest: seq<Payloads.Payload>)
    requires s.stack != []
    ensures SameReleases(s, ReplayNext(s, rest)) && SameReleases(s, DrainNext(s, rest))
  {
    if rest != [] { InboundReleases(Replace(s, Replaying(rest[1..])), rest[0]); }
    hide Inbound;
  }

  lemma ResumeReleases(s: System)
    ensures SameReleases(s, ResumeClient(s))
  {
    if s.stack != [] && FrameLoop(Top(s.stack)) { LoopReleases(s, Top(s.stack).rest); }
    hide ReplayNext, DrainNext;
  }

  lemma ActReleases(s: System, a: Label)
    ensures SameReleases(s, Act(s, a))
  {
    hide Record, Subscribe, Unsubscribe, Waiting, InApp;
  }

  lemma EventReleases(s: System, a: Label)
    requires s.inFlight == 0
    requires a.SocketOpens? || a.SocketFails? || a.Timeout? || a.Abort? || a.SocketCloses? || a.ReleaseSettles? || a.EnterApplication?
    ensures SameReleases(s, Step(s, a))
  {
    hide HandOver;
  }

  lemma StepReleases(s: System, a: Label)
    requires CallRelease !in s.micro && s.inFlight == 0
    ensures SameReleases(s, Step(s, a))
  {
    hide SameReleases;
    match a
    case Wire(p) => FrameReleases(s, p);
    case RunMicrotask => MicroReleases(s);
    case Resume => ResumeReleases(s);
    case SocketOpens(_) => EventReleases(s, a);
    case SocketFails => EventReleases(s, a);
    case Timeout => EventReleases(s, a);
    case Abort => EventReleases(s, a);
    case SocketCloses => EventReleases(s, a);
    case ReleaseSettles(_) => EventReleases(s, a);
    case EnterApplication => EventReleases(s, a);
    case _ => ActReleases(s, a);
  }

  lemma StepUnreleased(s: System, a: Label)
    requires Accounts(s) && Unreleased(s)
    ensures Unreleased(Step(s, a))
  {
    StepLater(s, a);
    if !s.session.closing {
      assert Underway(s) == 0;
      StepReleases(s, a);
    }
    hide Step, Accounts;
  }

  /** The socket does not come back, and the phase does not change. */
  ghost predicate SameOrClosed(s: System, t: System) {
    t.phase == s.phase && (t.socketOpen ==> s.socketOpen)
  }

  lemma InboundPhase(s: System, m: Payloads.Payload)
    ensures SameOrClosed(s, Inbound(s, m))
  {
    hide Payloads.ByteLength, Record;
  }

  lemma ResumePhase(s: System)
    ensures SameOrClosed(s, ResumeClient(s))
  {
    if s.stack != [] && Top(s.stack).Replaying? && Top(s.stack).rest != [] {
      InboundPhase(Replace(s, Replaying(Top(s.stack).rest[1..])), Top(s.stack).rest[0]);
    }
    hide Inbound;
  }

  lemma ActPhase(s: System, a: Label)
    ensures SameOrClosed(s, Act(s, a))
  {
    hide Record, Subscribe, Unsubscribe, Waiting, InApp;
  }

  lemma MicroAbandoned(s: System)
    requires s.phase.Abandoned? && !s.socketOpen
    ensures Microstep(s).phase.Abandoned? && !Microstep(s).socketOpen
  {
    hide Record, BeginFlush;
  }

  lemma AbandonedStays(s: System, a: Label)
    requires s.phase.Abandoned? && !s.socketOpen
    ensures Step(s, a).phase.Abandoned? && !Step(s, a).socketOpen
  {
    match a
    case RunMicrotask => MicroAbandoned(s); hide Microstep;
    case Resume => ResumePhase(s); hide ResumeClient;
    case Wire(_) =>
    case SocketOpens(_) =>
    case SocketFails =>
    case Timeout =>
    case Abort =>
    case SocketCloses =>
    case ReleaseSettles(_) =>
    case EnterApplication =>
    case _ => ActPhase(s, a); hide Act;
  }

  lemma MicroLive(s: System)
    requires Stages(s) && s.phase.Live?
    ensures Microstep(s).phase.Live?
  {
    assert ConstructPlane !in s.micro && ConstructSession !in s.micro;
    hide Record, BeginFlush, Stages;
    if s.micro != [] { assert s.micro[0] in s.micro; }
  }

  lemma LivePhase(s: System, a: Label)
    requires Safe(s) && s.phase.Live?
    ensures Step(s, a).phase.Live?
  {
    match a
    case RunMicrotask => MicroLive(s); hide Microstep;
    case Resume => ResumePhase(s); hide ResumeClient;
    case Wire(p) =>
      InboundPhase(s.(history := s.history.(received := s.history.received + [p])), p);
      hide Inbound, HandOver;
    case SocketOpens(_) =>
    case SocketFails =>
    case Timeout =>
    case Abort =>
    case SocketCloses =>
    case ReleaseSettles(_) =>
    case EnterApplication =>
    case _ => ActPhase(s, a); hide Act;
  }

  // ---------------------------------------------------------------- every life

  ghost predicate Sound(s: System) {
    Safe(s) && Accounts(s) && Unreleased(s)
  }

  ghost predicate Whole(l: Life) {
    && Sound(l.client)
    && (l.stage.Requesting? || l.stage.Rejected? || l.stage.Polling? ==> l.client == START)
    && (l.stage.Connecting? ==> !l.client.phase.Live? && !l.client.phase.Abandoned?)
    && (l.stage.Owned? ==> l.client.phase.Live?)
    && (l.stage.Failing? || l.stage.Cleaning? || l.stage.Thrown? ==> l.client.phase.Abandoned?)
    && l.cleanups == (if l.stage.Cleaning? || l.stage.Thrown? then 1 else 0)
    && l.good + l.bad == (if l.stage.Thrown? then 1 else 0)
  }

  lemma StepIsSound(s: System, a: Label)
    requires Sound(s)
    ensures Sound(Step(s, a))
  {
    hide Step, Safe, Accounts, Unreleased;
    StepKeeps(s, a);
    StepAccounts(s, a);
    StepUnreleased(s, a);
  }

  lemma StartIsSound()
    ensures Sound(START) && Sound(Abandon(START))
  {
    AbandonKeeps(START);
  }

  lemma GiveUpKeeps(l: Life)
    requires Whole(l) && l.client == START && (l.stage.Polling? || l.stage.Connecting?)
    ensures Whole(GiveUp(l))
  {
    StartIsSound();
    hide Sound;
  }

  lemma AbandonedIsClosed(s: System)
    requires Sound(s) && s.phase.Abandoned?
    ensures !s.socketOpen
  {
    hide Buffers, InOrder, Accounts, Unreleased;
  }

  lemma SoundIsSafe(s: System)
    requires Sound(s)
    ensures Safe(s)
  {
    hide Safe, Accounts, Unreleased;
  }

  lemma RunClientKeeps(l: Life, a: Label)
    requires Whole(l) && !l.stage.Requesting? && !l.stage.Rejected? && !l.stage.Polling?
    ensures Whole(RunClient(l, a))
  {
    hide Sound, Step, Safe;
    StepIsSound(l.client, a);
    if l.client.phase.Live? {
      SoundIsSafe(l.client);
      LivePhase(l.client, a);
    }
    if l.client.phase.Abandoned? {
      AbandonedIsClosed(l.client);
      AbandonedStays(l.client, a);
    }
  }

  lemma ConnectingKeeps(l: Life)
    requires Whole(l) && l.stage.Polling?
    ensures Whole(l.(stage := Connecting))
  {
    hide Sound;
  }

  lemma PollingIsStart(l: Life)
    requires Whole(l) && l.stage.Polling?
    ensures l.client == START
  {
    hide Sound;
  }

  lemma PollKeeps(l: Life, p: A.Poll)
    requires Whole(l) && l.stage.Polling?
    ensures Whole(Poll(l, p))
  {
    hide Whole, GiveUp, A.Answers, A.IsActivated, A.IsWaiting;
    PollingIsStart(l);
    GiveUpKeeps(l);
    ConnectingKeeps(l);
  }

  lemma OwnStepKeeps(l: Life, e: Event)
    requires Whole(l) && (e.Created? || e.Cleanup? || e.CleanupSettles?)
    ensures Whole(LifeStep(l, e))
  {
    hide Sound, Poll, RunClient, GiveUp;
  }

  lemma LifeStepKeeps(l: Life, e: Event)
    requires Whole(l)
    ensures Whole(LifeStep(l, e))
  {
    hide RunClient, Whole, GiveUp, Poll;
    if l.stage.Polling? { PollingIsStart(l); }
    match e
    case Client(a) => if !l.stage.Requesting? && !l.stage.Rejected? && !l.stage.Polling? { RunClientKeeps(l, a); }
    case Polled(p) => if l.stage.Polling? { PollKeeps(l, p); }
    case DeadlineInPoll => if l.stage.Polling? { GiveUpKeeps(l); }
    case GrantFails => if l.stage.Connecting? && l.client == START { GiveUpKeeps(l); }
    case _ => hide LifeStep; OwnStepKeeps(l, e);
  }

  lemma BirthIsWhole()
    ensures Whole(BIRTH)
  {
    StartIsSound();
    hide Sound;
  }

  lemma {:induction false} LifeIsWhole(events: seq<Event>)
    ensures Whole(Lived(events))
  {
    hide Whole, LifeStep;
    if events == [] {
      BirthIsWhole();
    } else {
      LifeIsWhole(events[..|events| - 1]);
      LifeStepKeeps(Lived(events[..|events| - 1]), events[|events| - 1]);
    }
  }

  lemma NotLiveNotReleased(s: System)
    requires Sound(s) && !s.phase.Live?
    ensures s.history.started == 0 && s.history.succeeded == 0 && s.history.failed == 0 && !s.session.closing
  {
  }

  /**
   * One owner at a time: over every run, openSession's cleanup and the session's close
   * together have at most one closeSession in flight and at most one success, and only one
   * of the two ever calls. A thrown openSession has called exactly once, a returned session
   * starts with no call made.
   */
  lemma {:induction false} OneOwnerReleases(events: seq<Event>)
    ensures var l := Lived(events);
      && 0 <= InFlight(l) <= 1 && Succeeded(l) <= 1 && Succeeded(l) + InFlight(l) <= 1
      && (l.cleanups == 0 || l.client.history.started == 0)
      && (l.stage.Thrown? ==> Started(l) == 1 && InFlight(l) == 0)
      && (l.stage.Cleaning? ==> Started(l) == InFlight(l) == 1)
      && (l.stage.Owned? && !l.client.session.closing ==> Started(l) == 0)
      && (l.stage.Requesting? || l.stage.Rejected? || l.stage.Polling? || l.stage.Connecting? || l.stage.Failing? ==> Started(l) == 0)
  {
    LifeIsWhole(events);
    var l := Lived(events);
    hide Lived;
    if !l.client.phase.Live? { NotLiveNotReleased(l.client); }
    hide Safe, Stages, Buffers, InOrder;
  }

  lemma LifeStepLater(l: Life, e: Event)
    requires Whole(l)
    ensures Succeeded(l) > 0 ==> Started(LifeStep(l, e)) == Started(l) && Succeeded(LifeStep(l, e)) == Succeeded(l)
    ensures l.stage.Thrown? ==> LifeStep(l, e).stage.Thrown? && Started(LifeStep(l, e)) == Started(l) && Succeeded(LifeStep(l, e)) == Succeeded(l)
  {
    LifeStepKeeps(l, e);
    if e.Client? { StepLater(l.client, e.step); }
    if !l.client.phase.Live? { NotLiveNotReleased(l.client); }
    if !LifeStep(l, e).client.phase.Live? { NotLiveNotReleased(LifeStep(l, e).client); }
    hide Step, Sound;
  }

  lemma LivedAppends(events: seq<Event>, e: Event)
    ensures Lived(events + [e]) == LifeStep(Lived(events), e)
  {
    hide LifeStep;
    assert (events + [e])[..|events|] == events;
  }

  /** After the first success nobody calls closeSession for the ID again. */
  lemma {:induction false} SuccessIsFinal(before: seq<Event>, after: seq<Event>)
    requires Succeeded(Lived(before)) > 0
    ensures Started(Lived(before + after)) == Started(Lived(before)) && Succeeded(Lived(before + after)) == 1
    decreases |after|
  {
    hide Lived, LifeStep, Whole, Started;
    OneOwnerReleases(before);
    if after == [] {
      assert before + after == before;
    } else {
      var n := |after| - 1;
      var middle := before + after[..n];
      assert before + after == middle + [after[n]];
      SuccessIsFinal(before, after[..n]);
      LivedAppends(middle, after[n]);
      LifeIsWhole(middle);
      LifeStepLater(Lived(middle), after[n]);
    }
  }

  /** A thrown openSession never calls again, even if its one cleanup failed: that ID is left to the server. */
  lemma {:induction false} ThrownIsFinal(before: seq<Event>, after: seq<Event>)
    requires Lived(before).stage.Thrown?
    ensures var l := Lived(before + after); l.stage.Thrown? && Started(l) == 1 && Succeeded(l) == Succeeded(Lived(before))
    decreases |after|
  {
    hide Lived, LifeStep, Whole, Started, Succeeded;
    OneOwnerReleases(before);
    if after == [] {
      assert before + after == before;
    } else {
      var n := |after| - 1;
      var middle := before + after[..n];
      assert before + after == middle + [after[n]];
      ThrownIsFinal(before, after[..n]);
      LivedAppends(middle, after[n]);
      LifeIsWhole(middle);
      LifeStepLater(Lived(middle), after[n]);
    }
  }
}
