/**
 * The .NET session while its calls overlap: a receive waits for the socket, and meanwhile
 * other threads may receive, close, or see a release settle. Each label is one stretch of
 * GPULinkSession.cs between two awaits that suspend.
 */
module DotnetSession {
  import opened ByteStreams
  import opened Wrappers
  import opened DotnetFrames
  import R = DotnetRelease

  /** The receive lock, and what the read behind it has so far. */
  datatype Reading = NotReading | Reading(kind: Option<Kind>, got: Bytes)

  datatype State = State(
    early: seq<Message>,
    wire: seq<Fragment>, // what the socket can still deliver
    aborted: bool,
    closing: bool,
    reading: Reading,
    release: R.State,
    // what happened so far
    returned: seq<Message>,
    failures: nat,       // receives that failed, but not by cancellation or because the session was closing
    closeCalls: nat)

  function Opened(early: seq<Message>, wire: seq<Fragment>): State {
    State(early, wire, false, false, NotReading, R.INIT, [], 0, 0)
  }

  datatype Label =
    | BeginReceive(cancelled: bool, start: R.Start)
    | Arrive(start: R.Start)     // the pending socket receive delivers a fragment
    | Break(start: R.Start)      // it fails with a WebSocketException
    | CancelRead                 // it fails with an OperationCanceledException
    | CloseCall(start: R.Start)
    | Settle(ok: bool)

  /** CloseAsync. Of an aborted socket at most the receive under way can still complete. */
  function Close(s: State, start: R.Start): State {
    s.(closing := true, aborted := true, release := R.Step(s.release, R.Close(start)),
       wire := if s.reading.Reading? && s.wire != [] then [s.wire[0]] else [])
  }

  function Fail(s: State, start: R.Start): State {
    Close(s.(reading := NotReading, failures := s.failures + 1), start)
  }

  /** A frame is returned, or is the relay's READY and fails the receive. */
  function Deliver(s: State, m: Message, start: R.Start): State {
    if IsReady(m) then Fail(s, start) else s.(reading := NotReading, returned := s.returned + [m])
  }

  function Begin(s: State, cancelled: bool, start: R.Start): State {
    if cancelled || s.reading.Reading? || s.closing then s
    else if s.early != [] then Deliver(s.(early := s.early[1..]), s.early[0], start)
    else s.(reading := Reading(None, []))
  }

  function TakeFragment(s: State, start: R.Start, utf8: Utf8): State {
    if !s.reading.Reading? || s.wire == [] then s
    else
      var f, kind, got, t := s.wire[0], s.reading.kind, s.reading.got, s.(wire := s.wire[1..]);
      if f.kind == Kind.Close || (kind.Some? && kind.value != f.kind) || |f.data| > MAX_FRAME - |got| then Fail(t, start)
      else if !f.endOfMessage then t.(reading := Reading(Some(f.kind), got + f.data))
      else if f.kind == Text && !utf8(got + f.data) then Fail(t, start)
      else Deliver(t, Message(f.kind == Binary, got + f.data), start)
  }

  function Step(s: State, l: Label, utf8: Utf8): State {
    match l
    case BeginReceive(cancelled, start) => Begin(s, cancelled, start)
    case Arrive(start) => TakeFragment(s, start, utf8)
    case Break(start) => if s.reading.Reading? then Fail(s, start) else s
    case CancelRead => if s.reading.Reading? then s.(reading := NotReading, aborted := true, wire := []) else s
    case CloseCall(start) => Close(s.(closeCalls := s.closeCalls + 1), start)
    case Settle(ok) => s.(release := R.Step(s.release, R.Settle(ok)))
  }

  function Run(s: State, labels: seq<Label>, utf8: Utf8): State {
    if labels == [] then s else Step(Run(s, labels[..|labels| - 1], utf8), labels[|labels| - 1], utf8)
  }

  // ---------------------------------------------------------------- order

  /** The messages the socket can still complete. */
  function Rest(s: State, utf8: Utf8): seq<Message> {
    match s.reading
    case NotReading => Messages(s.wire, utf8)
    case Reading(kind, got) =>
      var r := Assemble(s.wire, kind, got, utf8);
      if r.Frame? then [r.message] + Messages(r.rest, utf8) else []
  }

  /** What receives can still return. */
  function Coming(s: State, utf8: Utf8): seq<Message> {
    if s.closing && s.reading.NotReading? then [] else UpToReady(s.early + Rest(s, utf8))
  }

  /** Returned so far, and then the rest of what is due; all of it until the socket is aborted. */
  ghost predicate InOrder(s: State, due: seq<Message>, utf8: Utf8) {
    && (s.reading.Reading? ==> s.early == [])
    && (s.closing ==> s.aborted) && (s.aborted && s.reading.NotReading? ==> s.wire == []) && (s.aborted ==> |s.wire| <= 1)
    && s.returned + Coming(s, utf8) <= due
    && (!s.aborted ==> s.returned + Coming(s, utf8) == due)
  }

  lemma CloseOrder(s: State, start: R.Start, due: seq<Message>, utf8: Utf8)
    requires (s.reading.Reading? ==> s.early == []) && s.returned + Coming(s, utf8) <= due
    ensures InOrder(Close(s, start), due, utf8)
  {
    var t := Close(s, start);
    if s.reading.Reading? && s.wire != [] {
      OneMore(s.wire, s.reading.kind, s.reading.got, utf8);
      var r := Assemble(s.wire, s.reading.kind, s.reading.got, utf8);
      var q := Assemble([s.wire[0]], s.reading.kind, s.reading.got, utf8);
      assert s.early + Rest(s, utf8) == Rest(s, utf8) && t.early + Rest(t, utf8) == Rest(t, utf8);
      assert Messages([], utf8) == [];
      if q.Frame? {
        assert Rest(t, utf8) == [q.message] && Rest(s, utf8)[0] == q.message;
        assert UpToReady(Rest(t, utf8)) <= UpToReady(Rest(s, utf8));
      }
    } else {
      assert Coming(t, utf8) == [];
    }
  }

  /** One fragment completes a message exactly if it does so in front of others. */
  lemma OneMore(wire: seq<Fragment>, kind: Option<Kind>, got: Bytes, utf8: Utf8)
    requires wire != []
    ensures var r, q := Assemble(wire, kind, got, utf8), Assemble([wire[0]], kind, got, utf8);
      q.Frame? ==> q.rest == [] && r == Frame(q.message, wire[1..])
  {
  }

  lemma FailOrder(s: State, start: R.Start, due: seq<Message>, utf8: Utf8)
    requires s.returned <= due
    ensures InOrder(Fail(s, start), due, utf8)
  {
  }

  lemma Shift(a: seq<Message>, m: Message, more: seq<Message>)
    ensures a + ([m] + more) == (a + [m]) + more && a + [m] <= (a + [m]) + more
  {
  }

  lemma ComingDequeued(s: State, utf8: Utf8)
    requires s.early != [] && !s.closing && !IsReady(s.early[0])
    ensures Coming(s, utf8) == [s.early[0]] + Coming(s.(early := s.early[1..], returned := s.returned + [s.early[0]]), utf8)
  {
    var t := s.(early := s.early[1..], returned := s.returned + [s.early[0]]);
    assert Rest(t, utf8) == Rest(s, utf8);
    var all := s.early + Rest(s, utf8);
    hide Rest;
    assert all[0] == s.early[0] && all[1..] == t.early + Rest(s, utf8);
  }

  lemma DequeueOrder(s: State, start: R.Start, due: seq<Message>, utf8: Utf8)
    requires InOrder(s, due, utf8) && s.early != [] && !s.closing && !IsReady(s.early[0])
    ensures InOrder(s.(early := s.early[1..], returned := s.returned + [s.early[0]]), due, utf8)
  {
    hide Coming;
    ComingDequeued(s, utf8);
    var t := s.(early := s.early[1..], returned := s.returned + [s.early[0]]);
    Shift(s.returned, s.early[0], Coming(t, utf8));
  }

  lemma BeginOrder(s: State, cancelled: bool, start: R.Start, due: seq<Message>, utf8: Utf8)
    requires InOrder(s, due, utf8)
    ensures InOrder(Begin(s, cancelled, start), due, utf8)
  {
    var t := Begin(s, cancelled, start);
    if !(cancelled || s.reading.Reading? || s.closing) {
      if s.early == [] {
        assert Rest(t, utf8) == Rest(s, utf8);
        hide Rest, UpToReady;
      } else if IsReady(s.early[0]) {
        assert s.returned <= due;
        FailOrder(s.(early := s.early[1..]), start, due, utf8);
      } else {
        DequeueOrder(s, start, due, utf8);
      }
    }
    hide InOrder;
  }

  /** The pending read goes on: what it makes of the wire is unchanged. */
  lemma ContinueOrder(s: State, start: R.Start, utf8: Utf8)
    requires s.reading.Reading? && s.wire != [] && TakeFragment(s, start, utf8).reading.Reading?
    ensures Rest(TakeFragment(s, start, utf8), utf8) == Rest(s, utf8)
    ensures TakeFragment(s, start, utf8) == s.(wire := s.wire[1..], reading := TakeFragment(s, start, utf8).reading)
  {
  }

  /** It returns a message: the next one due. */
  lemma CompleteOrder(s: State, start: R.Start, utf8: Utf8)
    requires s.reading.Reading? && s.wire != []
    requires var t := TakeFragment(s, start, utf8); t.reading.NotReading? && t.failures == s.failures
    ensures var t := TakeFragment(s, start, utf8);
      && |t.returned| > 0 && t == s.(wire := s.wire[1..], reading := NotReading, returned := s.returned + [t.returned[|t.returned| - 1]])
      && UpToReady(Rest(s, utf8)) == [t.returned[|t.returned| - 1]] + UpToReady(Messages(s.wire[1..], utf8))
  {
    var t, f := TakeFragment(s, start, utf8), s.wire[0];
    var m := Message(f.kind == Binary, s.reading.got + f.data);
    assert t.returned == s.returned + [m];
    assert Rest(s, utf8) == [m] + Messages(s.wire[1..], utf8);
  }

  lemma FailedFragment(s: State, start: R.Start, utf8: Utf8)
    requires s.reading.Reading? && s.wire != []
    requires var t := TakeFragment(s, start, utf8); t.reading.NotReading? && t.failures != s.failures
    ensures TakeFragment(s, start, utf8) == Fail(s.(wire := s.wire[1..]), start)
  {
    hide Close;
  }

  lemma ContinueKeeps(s: State, reading: Reading, due: seq<Message>, utf8: Utf8)
    requires InOrder(s, due, utf8) && s.reading.Reading? && s.wire != [] && reading.Reading?
    requires Rest(s.(wire := s.wire[1..], reading := reading), utf8) == Rest(s, utf8)
    ensures InOrder(s.(wire := s.wire[1..], reading := reading), due, utf8)
  {
    hide Rest, UpToReady;
  }

  lemma CompleteComing(s: State, m: Message, utf8: Utf8)
    requires s.reading.Reading? && s.early == [] && s.wire != []
    requires UpToReady(Rest(s, utf8)) == [m] + UpToReady(Messages(s.wire[1..], utf8))
    ensures var t, more := s.(wire := s.wire[1..], reading := NotReading, returned := s.returned + [m]), UpToReady(Messages(s.wire[1..], utf8));
      Coming(s, utf8) == [m] + more && Coming(t, utf8) == if s.closing then [] else more
  {
    var t := s.(wire := s.wire[1..], reading := NotReading, returned := s.returned + [m]);
    assert Rest(t, utf8) == Messages(s.wire[1..], utf8);
    hide Rest, UpToReady, Messages;
    assert s.early + Rest(s, utf8) == Rest(s, utf8) && t.early + Rest(t, utf8) == Rest(t, utf8);
  }

  lemma CompleteKeeps(s: State, m: Message, due: seq<Message>, utf8: Utf8)
    requires InOrder(s, due, utf8) && s.reading.Reading? && s.wire != []
    requires UpToReady(Rest(s, utf8)) == [m] + UpToReady(Messages(s.wire[1..], utf8))
    ensures InOrder(s.(wire := s.wire[1..], reading := NotReading, returned := s.returned + [m]), due, utf8)
  {
    CompleteComing(s, m, utf8);
    hide Rest, UpToReady, Messages, Coming;
    Shift(s.returned, m, UpToReady(Messages(s.wire[1..], utf8)));
  }

  lemma ArriveOrder(s: State, start: R.Start, due: seq<Message>, utf8: Utf8)
    requires InOrder(s, due, utf8) && s.reading.Reading? && s.wire != []
    ensures InOrder(TakeFragment(s, start, utf8), due, utf8)
  {
    assert s.returned <= due;
    hide InOrder, TakeFragment;
    var t := TakeFragment(s, start, utf8);
    if t.reading.Reading? {
      ContinueOrder(s, start, utf8);
      ContinueKeeps(s, t.reading, due, utf8);
    } else if t.failures == s.failures {
      CompleteOrder(s, start, utf8);
      CompleteKeeps(s, t.returned[|t.returned| - 1], due, utf8);
    } else {
      FailedFragment(s, start, utf8);
      FailOrder(s.(wire := s.wire[1..]), start, due, utf8);
    }
  }

  lemma StepOrder(s: State, l: Label, due: seq<Message>, utf8: Utf8)
    requires InOrder(s, due, utf8)
    ensures InOrder(Step(s, l, utf8), due, utf8)
  {
    match l
    case BeginReceive(cancelled, start) => BeginOrder(s, cancelled, start, due, utf8);
    case Arrive(start) => if s.reading.Reading? && s.wire != [] { ArriveOrder(s, start, due, utf8); }
    case Break(start) => if s.reading.Reading? { FailOrder(s, start, due, utf8); }
    case CancelRead =>
      var t := Step(s, CancelRead, utf8);
      assert s.reading.Reading? ==> t.early + Rest(t, utf8) == [];
    case CloseCall(start) => CloseOrder(s.(closeCalls := s.closeCalls + 1), start, due, utf8);
    case Settle(_) =>
  }

  lemma {:induction false} RunOrder(s: State, labels: seq<Label>, due: seq<Message>, utf8: Utf8)
    requires InOrder(s, due, utf8)
    ensures InOrder(Run(s, labels, utf8), due, utf8)
  {
    hide InOrder, Step;
    if labels != [] {
      RunOrder(s, labels[..|labels| - 1], due, utf8);
      StepOrder(Run(s, labels[..|labels| - 1], utf8), labels[|labels| - 1], due, utf8);
    }
  }

  /**
   * However receives, cancellations, closes, failures and releases interleave, what is
   * returned is a prefix of the wire's messages without the first READY, up to the next
   * READY; while the socket is not aborted the rest of them is still to come.
   */
  lemma {:induction false} OverlappingCallsKeepOrder(wire: seq<Fragment>, labels: seq<Label>, utf8: Utf8)
    requires Connect(wire, [], utf8).Connected?
    ensures var c, ms := Connect(wire, [], utf8), Messages(wire, utf8);
      && ReadyAt(ms, |c.early|)
      && var due, s := UpToReady(Without(ms, |c.early|)), Run(Opened(c.early, c.rest), labels, utf8);
         && s.returned <= due
         && (!s.aborted ==> s.returned + Coming(s, utf8) == due)
  {
    ConnectsExactly(wire, utf8);
    var c, ms := Connect(wire, [], utf8), Messages(wire, utf8);
    hide Messages, Connect;
    var s0 := Opened(c.early, c.rest);
    assert s0.early + Rest(s0, utf8) == Without(ms, |c.early|);
    var due := UpToReady(Without(ms, |c.early|));
    assert s0.returned + Coming(s0, utf8) == due;
    RunOrder(s0, labels, due, utf8);
    hide UpToReady, Rest, Run;
  }

  /** And a message that is to come is returned by a receive that is left to run: begin it, and let its fragments arrive. */
  lemma {:induction false} PendingReceiveReturns(s: State, fs: seq<Fragment>, m: Message, start: R.Start, utf8: Utf8)
    requires s.reading.Reading? && Completes(fs, s.reading.kind, s.reading.got, m, utf8) && fs <= s.wire && !IsReady(m)
    ensures Run(s, seq(|fs|, _ => Arrive(start)), utf8) == s.(wire := s.wire[|fs|..], reading := NotReading, returned := s.returned + [m])
    decreases |fs|
  {
    var n, arrivals := |fs| - 1, seq(|fs|, _ => Arrive(start));
    var t := TakeFragment(s, start, utf8);
    if n == 0 {
      LastFragment(s, fs, m, start, utf8);
      assert arrivals[..0] == [];
    } else {
      FirstFragment(s, fs, m, start, utf8);
      PendingReceiveReturns(t, fs[1..], m, start, utf8);
      assert arrivals == [Arrive(start)] + seq(n, _ => Arrive(start));
      RunConcat(s, [Arrive(start)], seq(n, _ => Arrive(start)), utf8);
      assert [Arrive(start)][..0] == [];
      assert s.wire[1..][n..] == s.wire[|fs|..];
    }
  }

  lemma LastFragment(s: State, fs: seq<Fragment>, m: Message, start: R.Start, utf8: Utf8)
    requires s.reading.Reading? && Completes(fs, s.reading.kind, s.reading.got, m, utf8) && fs <= s.wire && !IsReady(m) && |fs| == 1
    ensures TakeFragment(s, start, utf8) == s.(wire := s.wire[1..], reading := NotReading, returned := s.returned + [m])
  {
    assert Concat(fs) == fs[0].data + Concat(fs[1..]) && Concat(fs[1..]) == [] && fs[0].data + [] == fs[0].data;
    assert m == Message(fs[0].kind == Binary, s.reading.got + fs[0].data);
  }

  lemma FirstFragment(s: State, fs: seq<Fragment>, m: Message, start: R.Start, utf8: Utf8)
    requires s.reading.Reading? && Completes(fs, s.reading.kind, s.reading.got, m, utf8) && fs <= s.wire && |fs| > 1
    ensures var t := TakeFragment(s, start, utf8);
      && t == s.(wire := s.wire[1..], reading := Reading(Some(fs[0].kind), s.reading.got + fs[0].data))
      && Completes(fs[1..], t.reading.kind, t.reading.got, m, utf8) && fs[1..] <= t.wire
  {
    var got := s.reading.got;
    assert got + (fs[0].data + Concat(fs[1..])) == (got + fs[0].data) + Concat(fs[1..]);
    assert forall i | 0 <= i < |fs| - 1 :: fs[1..][i] == fs[i + 1];
  }

  lemma {:induction false} RunConcat(s: State, before: seq<Label>, after: seq<Label>, utf8: Utf8)
    ensures Run(s, before + after, utf8) == Run(Run(s, before, utf8), after, utf8)
    decreases |after|
  {
    hide Step;
    var all := before + after;
    if after == [] {
      assert all == before;
    } else {
      var n := |after| - 1;
      assert all[..|all| - 1] == before + after[..n];
      RunConcat(s, before, after[..n], utf8);
    }
  }

  // ---------------------------------------------------------------- closing

  /** Closing and releasing go together, and both have a cause. */
  ghost predicate Caused(s: State) {
    && (s.closing <==> s.failures + s.closeCalls > 0) && (s.closing <==> s.release.started > 0)
    && (s.closing ==> s.aborted) && R.Inv(s.release)
    && (s.closing && s.reading.NotReading? ==> s.wire == []) && (s.reading.Reading? ==> s.early == [])
    && (s.closing ==> |s.wire| <= 1)
  }

  lemma ReleaseStarts(r: R.State, start: R.Start)
    requires R.Inv(r)
    ensures R.Inv(R.Step(r, R.Close(start))) && R.Step(r, R.Close(start)).started > 0
  {
  }

  lemma CloseCaused(s: State, start: R.Start)
    requires R.Inv(s.release) && s.failures + s.closeCalls > 0 && (s.reading.Reading? ==> s.early == [])
    ensures Caused(Close(s, start))
  {
    ReleaseStarts(s.release, start);
    hide R.Step, R.Inv;
  }

  lemma StepCaused(s: State, l: Label, utf8: Utf8)
    requires Caused(s)
    ensures Caused(Step(s, l, utf8))
  {
    hide R.Inv;
    match l
    case CloseCall(start) => CloseCaused(s.(closeCalls := s.closeCalls + 1), start);
    case Settle(_) => SettleKeeps(s.release, l.ok);
    case CancelRead =>
    case Break(start) => CloseCaused(s.(reading := NotReading, failures := s.failures + 1), start);
    case Arrive(start) =>
      if s.reading.Reading? && s.wire != [] {
        CloseCaused(s.(wire := s.wire[1..], reading := NotReading, failures := s.failures + 1), start);
      }
      hide Close;
    case BeginReceive(_, start) =>
      if s.early != [] { CloseCaused(s.(early := s.early[1..], reading := NotReading, failures := s.failures + 1), start); }
      hide Close;
  }

  lemma SettleKeeps(r: R.State, ok: bool)
    requires R.Inv(r)
    ensures R.Inv(R.Step(r, R.Settle(ok))) && R.Step(r, R.Settle(ok)).started == r.started
  {
  }

  lemma OpenedCaused(early: seq<Message>, wire: seq<Fragment>)
    ensures Caused(Opened(early, wire))
  {
    R.RunKeepsInv([]);
    hide R.Inv;
  }

  lemma {:induction false} RunCaused(early: seq<Message>, wire: seq<Fragment>, labels: seq<Label>, utf8: Utf8)
    ensures Caused(Run(Opened(early, wire), labels, utf8))
  {
    hide Step, Caused, Opened;
    if labels == [] {
      OpenedCaused(early, wire);
    } else {
      RunCaused(early, wire, labels[..|labels| - 1], utf8);
      StepCaused(Run(Opened(early, wire), labels[..|labels| - 1], utf8), labels[|labels| - 1], utf8);
    }
  }

  /**
   * In every run a session closes and starts its release exactly if close was called or a
   * receive failed in any other way than by cancellation; at most one release is in
   * flight and at most one succeeds, however the calls overlap.
   */
  lemma {:induction false} ClosesExactlyForCause(early: seq<Message>, wire: seq<Fragment>, labels: seq<Label>, utf8: Utf8)
    ensures var s := Run(Opened(early, wire), labels, utf8);
      && (s.closing <==> s.failures > 0 || s.closeCalls > 0)
      && (s.release.started > 0 <==> s.failures > 0 || s.closeCalls > 0)
      && R.InFlight(s.release) <= 1 && s.release.good <= 1
  {
    RunCaused(early, wire, labels, utf8);
    hide Run;
  }

  /** What is left of a session after a cancelled read. */
  ghost predicate Dangling(s: State) {
    !s.closing && s.aborted && s.early == [] && s.wire == [] && s.release == R.INIT
  }

  lemma CancelDangles(s: State, utf8: Utf8)
    requires Caused(s) && s.reading.Reading? && !s.closing
    ensures Dangling(Step(s, CancelRead, utf8))
  {
  }

  lemma RunAppends(s: State, labels: seq<Label>, l: Label, utf8: Utf8)
    ensures Run(s, labels + [l], utf8) == Step(Run(s, labels, utf8), l, utf8)
  {
    hide Step;
    assert (labels + [l])[..|labels|] == labels;
  }

  /** A cancelled read leaves an open session like that: unusable, and neither closing nor released. */
  lemma {:induction false} CancelledReadDoesNotRelease(early: seq<Message>, wire: seq<Fragment>, labels: seq<Label>, utf8: Utf8)
    requires var s := Run(Opened(early, wire), labels, utf8); s.reading.Reading? && !s.closing
    ensures Dangling(Run(Opened(early, wire), labels + [CancelRead], utf8))
  {
    hide Run, Step, Opened, Caused, Dangling;
    RunCaused(early, wire, labels, utf8);
    RunAppends(Opened(early, wire), labels, CancelRead, utf8);
    CancelDangles(Run(Opened(early, wire), labels, utf8), utf8);
  }

  predicate Closes(l: Label) { l.Break? || l.CloseCall? }

  /**
   * From there on cancelled receives change nothing, however many: only a call to close,
   * or a receive that is let run into the broken socket, releases the session.
   */
  lemma {:induction false} OnlyCloseOrFailureReleases(s: State, labels: seq<Label>, utf8: Utf8)
    requires Dangling(s) && forall l | l in labels :: !Closes(l)
    ensures Dangling(Run(s, labels, utf8)) && Run(s, labels, utf8).returned == s.returned
  {
    if labels != [] {
      var n := |labels| - 1;
      assert labels[n] in labels;
      OnlyCloseOrFailureReleases(s, labels[..n], utf8);
    }
  }

  lemma NextReceiveReleases(s: State, start: R.Start, utf8: Utf8)
    requires Dangling(s)
    ensures var t := Step(Step(s, BeginReceive(false, start), utf8), Break(start), utf8); t.closing && t.release == R.Step(R.INIT, R.Close(start))
    ensures var t := Step(s, Label.CloseCall(start), utf8); t.closing && t.release == R.Step(R.INIT, R.Close(start))
  {
  }

  /** After closing at most one more message is returned, and only by a receive that was waiting then. */
  lemma {:induction false} CloseStopsReceives(early: seq<Message>, wire: seq<Fragment>, before: seq<Label>, after: seq<Label>, utf8: Utf8)
    requires Run(Opened(early, wire), before, utf8).closing
    ensures var s, t := Run(Opened(early, wire), before, utf8), Run(Opened(early, wire), before + after, utf8);
      && t.closing && s.returned <= t.returned
      && |t.returned| <= |s.returned| + (if s.reading.Reading? && s.wire != [] then 1 else 0)
  {
    RunCaused(early, wire, before, utf8);
    RunConcat(Opened(early, wire), before, after, utf8);
    var s := Run(Opened(early, wire), before, utf8);
    hide Run;
    StoppedRun(s, after, utf8);
  }

  ghost predicate Stopped(s: State) {
    s.closing && |s.wire| <= 1 && (s.reading.NotReading? ==> s.wire == [])
  }

  lemma StoppedStep(s: State, l: Label, utf8: Utf8)
    requires Stopped(s)
    ensures var t := Step(s, l, utf8);
      Stopped(t) && s.returned <= t.returned && |t.returned| + |t.wire| <= |s.returned| + |s.wire|
  {
    hide R.Step;
  }

  lemma {:induction false} StoppedRun(s: State, labels: seq<Label>, utf8: Utf8)
    requires Stopped(s)
    ensures var t := Run(s, labels, utf8);
      Stopped(t) && s.returned <= t.returned && |t.returned| + |t.wire| <= |s.returned| + |s.wire|
  {
    hide Step;
    if labels != [] {
      var n := |labels| - 1;
      StoppedRun(s, labels[..n], utf8);
      StoppedStep(Run(s, labels[..n], utf8), labels[n], utf8);
    }
  }
}
