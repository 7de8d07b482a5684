/**
 * The broker process: the journal held as table fields, and the request handlers of
 * src/broker as methods over them. A handler is given the rest of the world as a ghost
 * state, and its effect on the journal is that of a run of BrokerRuntime.
 */
module BrokerObjects {
  import opened Wrappers
  import opened Names
  import opened BrokerJournal
  import opened BrokerRuntime
  import opened BrokerSafety

  datatype Denial =
    | InvalidMessage | UnauthorizedPeer | AttemptReplay | AuthorityUncertain | AttemptUnknown
    | WitnessMissing | IdentityMismatch | BindingExists | HostUnconfirmed
    | AuthorityDisabled | ProvenanceConflict | ProvenanceExists | ProvenanceUncertain

  datatype Reply<+T> = Granted(value: T) | Denied(why: Denial)

  /** The fate of the reservation request: never sent, sent but without a usable reply, or answered. */
  datatype Exchange = NotSent | NoReply | Answered(epoch: int)

  /** The control plane's answer to an observation, as far as _observe_cp lets it through. */
  datatype Answer = Failed | Answer(disposition: Disposition, epoch: Option<int>)

  /** The fate of the fixed child after the intent is durable. */
  datatype Child = NotForked | Lost | Observed(reading: Identity)

  ghost predicate Honest(s: System, attempt: Id, answer: Answer) {
    answer.Answer? ==>
      && (answer.disposition.NotFound? <==> answer.epoch.None?)
      && (answer.epoch.Some? ==> attempt in s.grants && s.grants[attempt].epoch == answer.epoch.value)
  }

  const MAX_WITNESSES := 64

  /** _witnesses: the operator's file of process hints, accepted whole or not at all. */
  method LoadWitnesses(entries: seq<(Id, Witness)>) returns (r: Option<map<Id, Witness>>)
    ensures r.Some? <==>
      && |entries| <= MAX_WITNESSES && (forall i | 0 <= i < |entries| :: WitnessOk(entries[i].0, entries[i].1))
      && forall i, j | 0 <= i < j < |entries| :: entries[i].0 != entries[j].0
    ensures r.Some? ==>
      && (forall i | 0 <= i < |entries| :: entries[i].0 in r.value && r.value[entries[i].0] == entries[i].1)
      && (forall a | a in r.value :: WitnessOk(a, r.value[a]) && exists i :: 0 <= i < |entries| && entries[i].0 == a)
  {
    if |entries| > MAX_WITNESSES { return None; }
    var result: map<Id, Witness> := map[];
    hide WitnessOk;
    for n := 0 to |entries|
      invariant forall i | 0 <= i < n :: WitnessOk(entries[i].0, entries[i].1)
      invariant forall i | 0 <= i < n :: entries[i].0 in result && result[entries[i].0] == entries[i].1
      invariant forall a | a in result :: WitnessOk(a, result[a]) && exists i :: 0 <= i < n && entries[i].0 == a
      invariant forall i, j | 0 <= i < j < n :: entries[i].0 != entries[j].0
    {
      var (attempt, w) := entries[n];
      if !WitnessOk(attempt, w) || attempt in result { return None; }
      result := result[attempt := w];
    }
    r := Some(result);
  }

  class Broker {
    var worker: Id
    var witnesses: map<Id, Witness>
    var probe: bool
    var claims: map<Id, Claim>
    var bindings: map<Id, Binding>
    var events: map<(Id, int), Event>

    ghost function Tables(): Journal
      reads this
    {
      Journal(claims, bindings, events)
    }

    ghost predicate Serves(s: System)
      reads this
    {
      s.activity.Idle? && s.worker == worker && s.witnesses == witnesses && s.probe == probe && s.journal == Tables() && Control(s)
    }

    constructor (worker: Id, witnesses: map<Id, Witness>, probe: bool, j: Journal)
      ensures this.worker == worker && this.witnesses == witnesses && this.probe == probe && Tables() == j
    {
      this.worker, this.witnesses, this.probe := worker, witnesses, probe;
      claims, bindings, events := j.claims, j.bindings, j.events;
    }

    // ---------------------------------------------------------------- start-up

    /** HostBindingJournal's loop over preexisting rows. */
    method BindingsValidate() returns (ok: bool)
      ensures ok <==> BindingsAccepted(Tables())
    {
      var todo := bindings.Keys;
      while todo != {}
        invariant todo <= bindings.Keys
        invariant forall a | a in bindings && a !in todo ::
          BindingRowOk(a, bindings[a]) && Matches(claims, a, bindings[a].lease, bindings[a].worker, bindings[a].epoch)
        decreases |todo|
      {
        var a :| a in todo;
        var row := bindings[a];
        if !BindingRowOk(a, row) || !Matches(claims, a, row.lease, row.worker, row.epoch) { return false; }
        todo := todo - {a};
      }
      ok := true;
    }

    /** The rows of one attempt in sequence order. */
    function RowsOf(attempt: Id): (rows: seq<(int, Event)>)
      reads this
    {
      (if (attempt, 1) in events then [(1, events[(attempt, 1)])] else []) +
      (if (attempt, 2) in events then [(2, events[(attempt, 2)])] else [])
    }

    /** SyntheticProvenance's first loop: each row by itself, collecting the attempts. */
    method RowsValidate() returns (ok: bool, attempts: set<Id>)
      ensures ok <==> forall k | k in events :: EventRowOk(k.0, k.1, events[k])
      ensures ok ==> attempts == set k | k in events :: k.0
    {
      var todo := events.Keys;
      attempts := {};
      while todo != {}
        invariant todo <= events.Keys
        invariant forall k | k in events && k !in todo :: EventRowOk(k.0, k.1, events[k])
        invariant attempts == set k | k in events.Keys - todo :: k.0
        decreases |todo|
      {
        var k :| k in todo;
        if !EventRowOk(k.0, k.1, events[k]) { return false, {}; }
        todo := todo - {k};
        attempts := attempts + {k.0};
      }
      ok := true;
    }

    /** SyntheticProvenance's second loop: the rows of each attempt against each other and its claim. */
    method EventsValidate() returns (ok: bool)
      ensures ok <==> EventsAccepted(Tables())
    {
      var todo;
      ok, todo := RowsValidate();
      hide EventRowOk;
      if !ok { return; }
      while todo != {}
        invariant forall a | a in todo :: exists k :: k in events && k.0 == a
        invariant forall k | k in events && k.0 !in todo :: AttemptOk(Tables(), k.0)
        decreases |todo|
      {
        var a :| a in todo;
        var rows := RowsOf(a);
        if rows == [] || rows[0].0 != 1 || (|rows| == 2 && rows[1].0 != 2) {
          assert !AttemptOk(Tables(), a);
          RejectsAttempt(Tables(), a);
          return false;
        }
        var first := rows[0].1;
        if !Matches(claims, a, first.lease, first.worker, first.epoch) || (|rows| == 2 && !SameOrigin(first, rows[1].1)) {
          assert !AttemptOk(Tables(), a);
          RejectsAttempt(Tables(), a);
          return false;
        }
        todo := todo - {a};
      }
      AcceptsAttempts(Tables());
    }

    /** Broker start: quarantine, then the binding validator, and the event validator if the probe was asked for. */
    method Start() returns (ok: bool)
      modifies this`claims
      ensures Tables() == old(Tables()).(claims := QuarantineAll(old(claims)))
      ensures ok <==> Validates(Tables(), probe)
    {
      claims := QuarantineAll(claims);
      ok := BindingsValidate();
      if ok && probe { ok := EventsValidate(); }
    }

    // ---------------------------------------------------------------- requests

    /** reserve: the pending row is durable before the request leaves, and only an acceptable reply moves it on. */
    method Reserve(authorized: bool, r: Request, exchange: Exchange, ghost s: System) returns (reply: Reply<int>)
      requires Serves(s)
      modifies this`claims
      ensures reply.Granted? <==> authorized && RequestOk(r) && r.attempt !in old(claims) && exchange.Answered? && Positive(exchange.epoch)
      ensures reply.Granted? ==> reply.value == exchange.epoch && r.attempt in claims && claims[r.attempt].epoch == Some(exchange.epoch)
      ensures !authorized || !RequestOk(r) || r.attempt in old(claims) ==> claims == old(claims)
      ensures authorized && RequestOk(r) && r.attempt in old(claims) ==> reply == Denied(AttemptReplay)
      ensures authorized && RequestOk(r) && r.attempt !in old(claims) ==>
        Tables() == After(s, ReserveScript(r, exchange)).journal
    {
      if !RequestOk(r) { return Denied(InvalidMessage); }
      if !authorized { return Denied(UnauthorizedPeer); }
      if r.attempt in claims { return Denied(AttemptReplay); }
      claims := claims[r.attempt := Claim(r.kind, r.subject, r.lease, worker, Pending, None)];
      ReserveRuns(s, r, exchange);
      if !exchange.Answered? || !Positive(exchange.epoch) { return Denied(AuthorityUncertain); }
      var row := claims[r.attempt];
      if !row.status.Pending? { return Denied(AuthorityUncertain); }
      claims := claims[r.attempt := row.(status := Reserved, epoch := Some(exchange.epoch))];
      reply := Granted(exchange.epoch);
    }

    /** bridge.observe: only for a journaled attempt, and never against an acknowledged local epoch. */
    method Observe(authorized: bool, attempt: Id, answer: Answer) returns (reply: Reply<Answer>)
      ensures reply.Granted? ==> reply.value == answer && answer.Answer? && attempt in claims && claims[attempt].worker == worker
      ensures reply.Granted? && claims[attempt].epoch.Some? ==> answer.epoch == claims[attempt].epoch
      ensures reply.Granted? <==>
        IsId(attempt) && authorized && attempt in claims && claims[attempt].worker == worker &&
        answer.Answer? && (claims[attempt].epoch.None? || answer.epoch == claims[attempt].epoch)
      ensures reply.Denied? ==> reply.why in {InvalidMessage, UnauthorizedPeer, AttemptUnknown, AuthorityUncertain}
    {
      if !IsId(attempt) { return Denied(InvalidMessage); }
      if !authorized { return Denied(UnauthorizedPeer); }
      if attempt !in claims || claims[attempt].worker != worker { return Denied(AttemptUnknown); }
      if answer.Failed? { return Denied(AuthorityUncertain); }
      if claims[attempt].epoch.Some? && answer.epoch != claims[attempt].epoch { return Denied(AuthorityUncertain); }
      reply := Granted(answer);
    }

    /** capture: bind an attempt to a process that the operator hinted at and the kernel confirms. */
    method CaptureHost(authorized: bool, attempt: Id, answer: Answer, present: bool, ghost s: System) returns (reply: Reply<Binding>)
      requires Serves(s) && Honest(s, attempt, answer)
      modifies this`bindings
      ensures Tables() == Step(s, Capture(authorized, attempt, if answer.Answer? then answer.disposition else NotFound, present)).journal
      ensures reply.Granted? ==> attempt !in old(bindings) && bindings == old(bindings)[attempt := reply.value]
      ensures reply.Denied? ==> bindings == old(bindings)
    {
      hide Control;
      if !IsId(attempt) { return Denied(InvalidMessage); }
      if !authorized { return Denied(UnauthorizedPeer); }
      if attempt !in claims || claims[attempt].worker != worker { return Denied(AttemptUnknown); }
      var c := claims[attempt];
      if c.epoch.None? || !Positive(c.epoch.value) || c.status.Pending? { return Denied(AuthorityUncertain); }
      if attempt !in witnesses { return Denied(WitnessMissing); }
      var w := witnesses[attempt];
      if (w.lease, w.worker, w.epoch) != (c.lease, c.worker, c.epoch.value) { return Denied(IdentityMismatch); }
      if attempt in bindings { return Denied(BindingExists); }
      var seen := Observe(authorized, attempt, answer);
      if seen.Denied? { return Denied(seen.why); }
      if !seen.value.disposition.Held? || seen.value.epoch != c.epoch { return Denied(AuthorityUncertain); }
      if !present { return Denied(HostUnconfirmed); }
      if !KeyFreeInBindings(bindings, w.identity) { return Denied(BindingExists); }
      var row := Binding(c.lease, c.worker, c.epoch.value, w.identity);
      bindings := bindings[attempt := row];
      reply := Granted(row);
    }

    /** spawn: the intent is durable before the fork, and the child's row only follows a usable reading. */
    method SpawnProbe(authorized: bool, attempt: Id, answer: Answer, child: Child, ghost s: System) returns (reply: Reply<Identity>)
      requires Serves(s) && Honest(s, attempt, answer) && (child.Observed? ==> IsReading(child.reading))
      modifies this`events
      ensures Tables() == After(s, SpawnScript(authorized, attempt, answer, child)).journal
      ensures reply == Denied(AuthorityDisabled) <==> !probe
      ensures reply.Granted? ==> child.Observed? && reply.value == child.reading
      ensures reply.Granted? ==> (attempt, 1) !in old(events) && (attempt, 1) in events && (attempt, 2) in events
      ensures reply == Denied(ProvenanceUncertain) ==> (attempt, 1) !in old(events) && (attempt, 1) in events && (attempt, 2) !in events
      ensures reply.Denied? && reply.why != ProvenanceUncertain ==> events == old(events)
    {
      hide Control;
      hide IsReading;
      SpawnRuns(s, authorized, attempt, answer, child);
      if !probe { return Denied(AuthorityDisabled); }
      if !IsId(attempt) { return Denied(InvalidMessage); }
      if !authorized { return Denied(UnauthorizedPeer); }
      if attempt !in claims || claims[attempt].worker != worker { return Denied(AttemptUnknown); }
      var c := claims[attempt];
      if c.epoch.None? || !Positive(c.epoch.value) || !c.status.Reserved? { return Denied(AuthorityUncertain); }
      if attempt in bindings { return Denied(ProvenanceConflict); }
      if (attempt, 1) in events || (attempt, 2) in events { return Denied(ProvenanceExists); }
      var seen := Observe(authorized, attempt, answer);
      if seen.Denied? { return Denied(seen.why); }
      if !seen.value.disposition.Held? || seen.value.epoch != c.epoch { return Denied(AuthorityUncertain); }
      events := events[(attempt, 1) := Event(c.lease, c.worker, c.epoch.value, None)];
      if !child.Observed? || !KeyFreeInEvents(events, child.reading) { return Denied(ProvenanceUncertain); }
      events := events[(attempt, 2) := Event(c.lease, c.worker, c.epoch.value, Some(child.reading))];
      reply := Granted(child.reading);
    }
  }

  // ---------------------------------------------------------------- validators, attempt by attempt

  ghost predicate AttemptOk(j: Journal, a: Id) {
    && (a, 1) in j.events
    && Matches(j.claims, a, j.events[(a, 1)].lease, j.events[(a, 1)].worker, j.events[(a, 1)].epoch)
    && ((a, 2) in j.events ==> SameOrigin(j.events[(a, 1)], j.events[(a, 2)]))
  }

  lemma RejectsAttempt(j: Journal, a: Id)
    requires !AttemptOk(j, a) && exists k :: k in j.events && k.0 == a
    ensures !EventsAccepted(j)
  {
    hide EventRowOk;
    var k :| k in j.events && k.0 == a;
    assert EventsAccepted(j) ==> (k.0, 1) in j.events;
  }

  lemma AcceptsAttempts(j: Journal)
    requires forall k | k in j.events :: EventRowOk(k.0, k.1, j.events[k]) && AttemptOk(j, k.0)
    ensures EventsAccepted(j)
  {
    hide EventRowOk;
    forall k | k in j.events && k.1 == 1 ensures Matches(j.claims, k.0, j.events[k].lease, j.events[k].worker, j.events[k].epoch) {
      assert k == (k.0, 1);
    }
    forall k | k in j.events && k.1 == 2 && (k.0, 1) in j.events ensures SameOrigin(j.events[(k.0, 1)], j.events[k]) {
      assert k == (k.0, 2);
    }
  }

  // ---------------------------------------------------------------- handlers as runs

  function ReserveScript(r: Request, exchange: Exchange): seq<Label> {
    match exchange
    case NotSent => [Reserve(true, r), ReserveFails]
    case NoReply => [Reserve(true, r), SendReserve, ReserveFails]
    case Answered(e) => if e < 1 then [Reserve(true, r), SendReserve, ReserveFails]
                        else [Reserve(true, r), SendReserve, AuthorityGrants(r.attempt, e), ReserveReply]
  }

  lemma {:induction false} AfterAppend(s: System, labels: seq<Label>, l: Label)
    ensures After(s, labels + [l]) == Step(After(s, labels), l)
  {
    hide Step;
    assert (labels + [l])[..|labels|] == labels;
  }

  /** The world right after a request was journaled and sent. */
  function Requested(s: System, r: Request): System {
    s.(activity := Reserving(r.attempt, true), requests := s.requests + [r.attempt], network := s.network[r.attempt := r],
       journal := s.journal.(claims := s.journal.claims[r.attempt := Claim(r.kind, r.subject, r.lease, s.worker, Pending, None)]))
  }

  lemma RequestRuns(s: System, r: Request)
    requires s.activity.Idle? && RequestOk(r) && r.attempt !in s.journal.claims
    ensures After(s, [Reserve(true, r), SendReserve]) == Requested(s, r)
    ensures After(s, [Reserve(true, r)]) == BeginReserve(s, r)
  {
    hide IsId;
    AfterAppend(s, [], Reserve(true, r));
    assert [] + [Reserve(true, r)] == [Reserve(true, r)];
    AfterAppend(s, [Reserve(true, r)], SendReserve);
    assert [Reserve(true, r)] + [SendReserve] == [Reserve(true, r), SendReserve];
    hide After;
    assert Send(BeginReserve(s, r)) == Requested(s, r);
  }

  lemma AnswerRuns(s: System, r: Request, e: int)
    requires r.attempt !in s.grants && e >= 1
    ensures Step(Step(Requested(s, r), AuthorityGrants(r.attempt, e)), ReserveReply).journal == s.journal.(claims := s.journal.claims[r.attempt :=
        if Positive(e) then Claim(r.kind, r.subject, r.lease, s.worker, Reserved, Some(e))
        else Claim(r.kind, r.subject, r.lease, s.worker, Pending, None)])
  {
  }

  lemma ReplyRuns(s: System, r: Request, e: int)
    requires s.activity.Idle? && RequestOk(r) && r.attempt !in s.journal.claims && r.attempt !in s.grants && e >= 1
    ensures After(s, [Reserve(true, r), SendReserve, AuthorityGrants(r.attempt, e), ReserveReply]) ==
      Step(Step(Requested(s, r), AuthorityGrants(r.attempt, e)), ReserveReply)
  {
    RequestRuns(s, r);
    var two, grant := [Reserve(true, r), SendReserve], AuthorityGrants(r.attempt, e);
    hide RequestOk, After, Step, Requested;
    AfterAppend(s, two, grant);
    AfterAppend(s, two + [grant], ReserveReply);
    assert two + [grant] + [ReserveReply] == [Reserve(true, r), SendReserve, grant, ReserveReply];
  }

  lemma GivingUpRuns(s: System, r: Request)
    requires s.activity.Idle? && RequestOk(r) && r.attempt !in s.journal.claims
    ensures After(s, [Reserve(true, r), ReserveFails]).journal == BeginReserve(s, r).journal
    ensures After(s, [Reserve(true, r), SendReserve, ReserveFails]).journal == Requested(s, r).journal
  {
    RequestRuns(s, r);
    hide RequestOk, After, Requested, BeginReserve;
    AfterAppend(s, [Reserve(true, r)], ReserveFails);
    assert [Reserve(true, r)] + [ReserveFails] == [Reserve(true, r), ReserveFails];
    AfterAppend(s, [Reserve(true, r), SendReserve], ReserveFails);
    assert [Reserve(true, r), SendReserve] + [ReserveFails] == [Reserve(true, r), SendReserve, ReserveFails];
    FailureKeepsJournal(BeginReserve(s, r));
    FailureKeepsJournal(Requested(s, r));
    hide Step;
  }

  lemma FailureKeepsJournal(s: System)
    ensures Step(s, ReserveFails).journal == s.journal
  {
  }

  lemma ReserveRuns(s: System, r: Request, exchange: Exchange)
    requires s.activity.Idle? && Control(s) && RequestOk(r) && r.attempt !in s.journal.claims
    ensures
      var pending := Claim(r.kind, r.subject, r.lease, s.worker, Pending, None);
      After(s, ReserveScript(r, exchange)).journal == s.journal.(claims := s.journal.claims[r.attempt :=
        if exchange.Answered? && Positive(exchange.epoch) then pending.(status := Reserved, epoch := Some(exchange.epoch)) else pending])
  {
    assert r.attempt !in s.network && r.attempt !in s.grants;
    hide Control, After, Step;
    GivingUpRuns(s, r);
    if exchange.Answered? && exchange.epoch >= 1 {
      AnswerRuns(s, r, exchange.epoch);
      ReplyRuns(s, r, exchange.epoch);
    }
    hide IsId;
  }

  function SpawnScript(authorized: bool, attempt: Id, answer: Answer, child: Child): seq<Label> {
    [Spawn(authorized, attempt, if answer.Answer? then answer.disposition else NotFound)] +
    match child
    case NotForked => [SpawnFails]
    case Lost => [Fork, SpawnFails]
    case Observed(i) => [Fork, ObserveChild(i)]
  }

  lemma TwoLabels(s: System, a: Label, b: Label)
    ensures After(s, [a]) == Step(s, a) && After(s, [a, b]) == Step(Step(s, a), b)
  {
    hide Step;
    AfterAppend(s, [], a);
    assert [] + [a] == [a];
    AfterAppend(s, [a], b);
    assert [a] + [b] == [a, b];
  }

  lemma ThreeLabels(s: System, a: Label, b: Label, c: Label)
    ensures After(s, [a, b, c]) == Step(Step(Step(s, a), b), c)
  {
    hide Step, After;
    TwoLabels(s, a, b);
    AfterAppend(s, [a, b], c);
    assert [a, b] + [c] == [a, b, c];
  }

  lemma SpawnRuns(s: System, authorized: bool, attempt: Id, answer: Answer, child: Child)
    requires s.activity.Idle? && (child.Observed? ==> IsReading(child.reading))
    ensures
      var d := if answer.Answer? then answer.disposition else NotFound;
      var begun := if s.probe && authorized then BeginSpawn(s, attempt, d) else s;
      After(s, SpawnScript(authorized, attempt, answer, child)).journal ==
        if begun.activity.Spawning? && child.Observed?
        then RecordChild(begun.(activity := begun.activity.(forked := true)), child.reading).journal
        else begun.journal
  {
    hide IsReading, After;
    var d := if answer.Answer? then answer.disposition else NotFound;
    var spawn := Spawn(authorized, attempt, d);
    BegunIsFresh(s, attempt, d);
    hide BeginSpawn;
    match child
    case NotForked =>
      TwoLabels(s, spawn, SpawnFails);
      assert SpawnScript(authorized, attempt, answer, child) == [spawn, SpawnFails];
    case Lost =>
      ThreeLabels(s, spawn, Fork, SpawnFails);
      assert SpawnScript(authorized, attempt, answer, child) == [spawn, Fork, SpawnFails];
    case Observed(i) =>
      ThreeLabels(s, spawn, Fork, ObserveChild(i));
      assert SpawnScript(authorized, attempt, answer, child) == [spawn, Fork, ObserveChild(i)];
      ForkedReads(Step(s, spawn), i);
      hide RecordChild;
  }

  lemma BegunIsFresh(s: System, attempt: Id, d: Disposition)
    requires s.activity.Idle?
    ensures var t := BeginSpawn(s, attempt, d); t.activity.Spawning? ==> !t.activity.forked
    ensures var t := BeginSpawn(s, attempt, d); !t.activity.Spawning? ==> t == s
  {
    hide IsId;
  }

  /** What recording makes of the journal: neither the list of forks nor anything remote enters into it. */
  function ChildJournal(activity: Activity, j: Journal, i: Identity): Journal {
    if !activity.Spawning? || !activity.forked || !IsReading(i) then j
    else
      var a, c := activity.attempt, activity.claim;
      if a !in j.claims || j.claims[a] != c || c.epoch.None? || (a, 2) in j.events || !KeyFreeInEvents(j.events, i) then j
      else j.(events := j.events[(a, 2) := Event(c.lease, c.worker, c.epoch.value, Some(i))])
  }

  lemma RecordIs(s: System, i: Identity)
    ensures RecordChild(s, i).journal == ChildJournal(s.activity, s.journal, i)
  {
    hide IsReading, KeyFreeInEvents;
  }

  lemma RecordReads(s: System, t: System, i: Identity)
    requires s.activity == t.activity && s.journal == t.journal
    ensures RecordChild(s, i).journal == RecordChild(t, i).journal
  {
    hide RecordChild, ChildJournal;
    RecordIs(s, i);
    RecordIs(t, i);
  }

  lemma ForkedReads(b: System, i: Identity)
    ensures b.activity.Spawning? && !b.activity.forked ==>
      RecordChild(Step(b, Fork), i).journal == RecordChild(b.(activity := b.activity.(forked := true)), i).journal
    ensures !b.activity.Spawning? ==> Step(b, Fork) == b && RecordChild(b, i).journal == b.journal
  {
    if b.activity.Spawning? && !b.activity.forked {
      RecordReads(Step(b, Fork), b.(activity := b.activity.(forked := true)), i);
      hide RecordChild;
    }
  }
}
