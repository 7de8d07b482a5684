/** The broker's guarantees over every run, with crashes and lost replies at any point. */
module BrokerTheorems {
  import opened Wrappers
  import opened Names
  import opened BrokerJournal
  import opened BrokerRuntime
  import opened BrokerSafety

  // ---------------------------------------------------------------- agreement with the control plane

  /** Local epochs are the control plane's own, and every hold it made is journaled with the same subject and lease. */
  lemma {:induction false} EpochsAgree(labels: seq<Label>)
    ensures var s := Run(labels);
      && (forall a | a in s.journal.claims && s.journal.claims[a].epoch.Some? ::
            a in s.grants && s.grants[a].epoch == s.journal.claims[a].epoch.value)
      && (forall a | a in s.grants ::
            a in s.journal.claims && a in s.requests &&
            (s.grants[a].kind, s.grants[a].subject, s.grants[a].lease) ==
            (s.journal.claims[a].kind, s.journal.claims[a].subject, s.journal.claims[a].lease))
  {
    RunIsSound(labels);
    hide Run;
    hide IsId;
  }

  /** Nothing in the journal is ever cleared or rewritten; claims only advance, and their epoch is written once. */
  lemma {:induction false} JournalIsMonotone(before: seq<Label>, after: seq<Label>)
    ensures JournalGrows(Run(before).journal, Run(before + after).journal)
  {
    hide JournalGrows;
    RunExtends(before, after);
  }

  /**
   * At most one reservation request is ever sent for an attempt, whatever crashes in
   * between, and only for a journaled one: a further request for it changes nothing.
   */
  lemma {:induction false} RequestsAreSingleUse(labels: seq<Label>, r: Request)
    ensures var s := Run(labels); forall i, j | 0 <= i < j < |s.requests| :: s.requests[i] != s.requests[j]
    ensures var s := Run(labels); r.attempt in s.requests ==> r.attempt in s.journal.claims
    ensures var s := Run(labels); r.attempt in s.journal.claims ==> Step(s, Reserve(true, r)) == s
  {
    RunIsSound(labels);
    hide Run;
  }

  // ---------------------------------------------------------------- spawning

  /** The events of an attempt are a prefix of intent, observed; a process exists only behind an intent, and at most one per attempt. */
  lemma {:induction false} SpawnsAtMostOnce(labels: seq<Label>)
    ensures var s := Run(labels);
      && (forall i, j | 0 <= i < j < |s.forks| :: s.forks[i] != s.forks[j])
      && (forall a | a in s.forks :: (a, 1) in s.journal.events)
      && (forall k | k in s.journal.events :: k.1 in {1, 2} && (k.0, 1) in s.journal.events)
      && (forall a | (a, 2) in s.journal.events :: a in s.forks && SameOrigin(s.journal.events[(a, 1)], s.journal.events[(a, 2)]))
  {
    RunIsSound(labels);
    hide Run;
    hide IsId;
    hide IsReading;
  }

  /** A new intent belongs to an attempt without a host binding, without events, and with a live reservation. */
  lemma {:induction false} IntentsAvoidBindings(labels: seq<Label>, l: Label, a: Id)
    requires var s := Run(labels); (a, 1) !in s.journal.events && (a, 1) in Step(s, l).journal.events
    ensures var s := Run(labels);
      && l.Spawn? && l.attempt == a && a !in s.journal.bindings && (a, 2) !in s.journal.events
      && a in s.journal.claims && s.journal.claims[a].status.Reserved? && a in s.grants
  {
    RunIsSound(labels);
    var s := Run(labels);
    hide Run;
    hide IsId;
    hide IsReading;
    NewIntent(s, l, a);
  }

  lemma NewIntent(s: System, l: Label, a: Id)
    requires s.activity.Spawning? ==> (s.activity.attempt, 1) in s.journal.events
    requires (a, 1) !in s.journal.events && (a, 1) in Step(s, l).journal.events
    ensures l.Spawn? && l.attempt == a && a !in s.journal.bindings && (a, 2) !in s.journal.events
    ensures a in s.journal.claims && s.journal.claims[a].status.Reserved? && a in s.grants
  {
    hide IsId;
    hide IsReading;
    hide KeyFreeInEvents;
    hide KeyFreeInBindings;
    hide Validates;
    hide WitnessOk;
  }

  /** Exactly when an intent becomes durable. */
  lemma {:induction false} IntentsExactly(s: System, authorized: bool, a: Id, answer: Disposition)
    requires s.activity.Idle? && Sound(s)
    ensures (a, 1) !in s.journal.events && (a, 1) in Step(s, Spawn(authorized, a, answer)).journal.events <==>
      && s.probe && authorized && Known(s, a) && s.journal.claims[a].status.Reserved? && a !in s.journal.bindings
      && (a, 1) !in s.journal.events && answer.Held?
  {
    hide Sound, Positive, Known;
    RowsBehind(s, a);
    IntentStep(s, a, answer);
    hide BeginSpawn;
  }

  /** Row 2 has a row 1, and a reserved claim an acknowledged epoch. */
  lemma RowsBehind(s: System, a: Id)
    requires Sound(s)
    ensures (a, 2) in s.journal.events ==> (a, 1) in s.journal.events
    ensures a in s.journal.claims && s.journal.claims[a].status.Reserved? ==>
      var e := s.journal.claims[a].epoch; e.Some? && Positive(e.value) && a in s.grants && s.grants[a].epoch == e.value
  {
    hide IsId, IsReading, AuthorityOk, ActivityOk, SpawnsOk, BindingsAccepted, KeysUnique;
  }

  lemma IntentStep(s: System, a: Id, answer: Disposition)
    requires (a, 2) in s.journal.events ==> (a, 1) in s.journal.events
    requires a in s.journal.claims && s.journal.claims[a].status.Reserved? ==>
      var e := s.journal.claims[a].epoch; e.Some? && Positive(e.value) && a in s.grants && s.grants[a].epoch == e.value
    ensures (a, 1) !in s.journal.events && (a, 1) in BeginSpawn(s, a, answer).journal.events <==>
      && Known(s, a) && s.journal.claims[a].status.Reserved? && a !in s.journal.bindings && (a, 1) !in s.journal.events
      && answer.Held?
  {
    hide IsId;
  }

  /** A new binding is the witness of its attempt, confirmed by the control plane and seen alive, and nothing else makes one. */
  lemma {:induction false} BindingsFollowWitnesses(s: System, l: Label, a: Id)
    requires a !in s.journal.bindings && Sound(s)
    ensures a in Step(s, l).journal.bindings <==>
      && l == Capture(true, a, Held, true) && s.activity.Idle? && Known(s, a) && !s.journal.claims[a].status.Pending?
      && s.journal.claims[a].epoch.Some? && a in s.witnesses
      && (s.witnesses[a].lease, s.witnesses[a].worker, Some(s.witnesses[a].epoch)) ==
         (s.journal.claims[a].lease, s.journal.claims[a].worker, s.journal.claims[a].epoch)
      && KeyFreeInBindings(s.journal.bindings, s.witnesses[a].identity)
    ensures a in Step(s, l).journal.bindings ==>
      var w := s.witnesses[a]; Step(s, l).journal.bindings[a] == Binding(w.lease, w.worker, w.epoch, w.identity)
  {
    hide IsId, IsReading, KeyFreeInEvents, KeyFreeInBindings, Validates, WitnessOk, Tables, AuthorityOk, ActivityOk, SpawnsOk;
  }

  // ---------------------------------------------------------------- restart ends launches

  /** An attempt that no step can carry any further. */
  ghost predicate Retired(s: System, a: Id) {
    a in s.journal.claims && s.journal.claims[a].status.Quarantined? && !(s.activity.Spawning? && s.activity.attempt == a)
  }

  ghost predicate SameLaunch(s: System, t: System, a: Id) {
    && ((a, 1) in t.journal.events <==> (a, 1) in s.journal.events)
    && ((a, 2) in t.journal.events <==> (a, 2) in s.journal.events)
    && (a in t.forks <==> a in s.forks)
  }

  lemma RestartRetires(s: System, probe: bool, worker: Id, witnesses: map<Id, Witness>, a: Id)
    requires s.activity.Down? && IsId(worker) && a in s.journal.claims
    ensures Retired(Step(s, Restart(probe, worker, witnesses)), a) && SameLaunch(s, Step(s, Restart(probe, worker, witnesses)), a)
  {
    hide Validates, IsId, WitnessOk;
  }

  lemma JournalStepRetired(s: System, l: Label, a: Id)
    requires Retired(s, a) && (l.Reserve? || l.SendReserve? || l.ReserveReply? || l.Capture? || l.AuthorityGrants?)
    ensures Retired(Step(s, l), a) && SameLaunch(s, Step(s, l), a)
  {
    hide IsId, Positive, KeyFreeInBindings, RequestOk, Confirmed;
  }

  lemma SpawnStepRetired(s: System, l: Label, a: Id)
    requires Retired(s, a) && (l.Spawn? || l.Fork? || l.ObserveChild? || l.SpawnFails? || l.ReserveFails? || l.Crash?)
    ensures Retired(Step(s, l), a) && SameLaunch(s, Step(s, l), a)
  {
    hide IsId, Positive, IsReading, KeyFreeInEvents, Confirmed;
  }

  lemma RestartKeepsRetired(s: System, l: Label, a: Id)
    requires Retired(s, a) && l.Restart?
    ensures Retired(Step(s, l), a) && SameLaunch(s, Step(s, l), a)
  {
    hide IsId, Validates, WitnessOk;
  }

  lemma RetiredStays(s: System, l: Label, a: Id)
    requires Retired(s, a)
    ensures Retired(Step(s, l), a) && SameLaunch(s, Step(s, l), a)
  {
    hide Retired, SameLaunch, Step;
    if l.Restart? {
      RestartKeepsRetired(s, l, a);
    } else if l.Reserve? || l.SendReserve? || l.ReserveReply? || l.Capture? || l.AuthorityGrants? {
      JournalStepRetired(s, l, a);
    } else {
      SpawnStepRetired(s, l, a);
    }
  }

  lemma {:induction false} RetiredForever(s: System, labels: seq<Label>, a: Id)
    requires Retired(s, a)
    ensures Retired(After(s, labels), a) && SameLaunch(s, After(s, labels), a)
  {
    hide Retired, Step;
    if labels != [] {
      var n := |labels| - 1;
      RetiredForever(s, labels[..n], a);
      RetiredStays(After(s, labels[..n]), labels[n], a);
    }
  }

  lemma {:induction false} AfterConcat(s: System, before: seq<Label>, after: seq<Label>)
    ensures After(s, before + after) == After(After(s, before), after)
    decreases |after|
  {
    hide Step;
    var all := before + after;
    if after == [] {
      assert all == before;
    } else {
      var n := |after| - 1;
      assert all[..|all| - 1] == before + after[..n];
      AfterConcat(s, before, after[..n]);
    }
  }

  /** A restart ends every launch: an attempt journaled before it gets no further intent, process or record, in any continuation. */
  lemma {:induction false} RestartEndsLaunches(before: seq<Label>, probe: bool, worker: Id, witnesses: map<Id, Witness>, after: seq<Label>, a: Id)
    requires Run(before).activity.Down? && IsId(worker) && a in Run(before).journal.claims
    ensures var s, t := Run(before), Run(before + [Restart(probe, worker, witnesses)] + after);
      && a in t.journal.claims && t.journal.claims[a].status.Quarantined?
      && ((a, 1) in t.journal.events <==> (a, 1) in s.journal.events)
      && ((a, 2) in t.journal.events <==> (a, 2) in s.journal.events)
      && (a in t.forks <==> a in s.forks)
  {
    var l := Restart(probe, worker, witnesses);
    RestartRetires(Run(before), probe, worker, witnesses, a);
    AfterConcat(START, before + [l], after);
    AfterConcat(START, before, [l]);
    assert [l][..0] == [];
    assert After(Run(before), [l]) == Step(After(Run(before), []), l);
    hide Step, IsId;
    RetiredForever(Step(Run(before), l), after, a);
  }

  // ---------------------------------------------------------------- start-up validation

  /** Identities of observed children, the one part of the journal that nobody checks on the way in. */
  ghost predicate ReadingsInBounds(j: Journal) {
    forall k | k in j.events && k.1 == 2 && j.events[k].identity.Some? :: InBounds(j.events[k].identity.value)
  }

  /** Every reachable journal passes start-up validation without the probe, and with it exactly when the recorded child readings are in bounds. */
  lemma {:induction false} JournalsValidateIffReadingsFit(labels: seq<Label>, probe: bool)
    ensures var j := Run(labels).journal;
      Validates(j.(claims := QuarantineAll(j.claims)), probe) <==> !probe || ReadingsInBounds(j)
  {
    RunIsSound(labels);
    var s := Run(labels);
    hide Run;
    QuarantineGrows(s);
    TablesStay(s.journal, QuarantinedSystem(s).journal);
    QuarantineQuotes(s);
    hide Tables, QuotableClaims, IsId;
    ValidIffFit(QuarantinedSystem(s).journal, probe);
  }

  lemma QuarantineQuotes(s: System)
    requires ClaimsOk(s)
    ensures QuotableClaims(QuarantinedSystem(s).journal)
  {
    hide IsId;
  }

  ghost predicate QuotableClaims(j: Journal) {
    forall a | a in j.claims ::
      IsId(j.claims[a].lease) && IsId(j.claims[a].worker) && (j.claims[a].epoch.Some? ==> Positive(j.claims[a].epoch.value))
  }

  lemma ValidIffFit(j: Journal, probe: bool)
    requires Tables(j) && QuotableClaims(j)
    ensures Validates(j, probe) <==> !probe || ReadingsInBounds(j)
  {
    hide IsId;
    hide IsReading;
    hide InBounds;
    hide BindingsAccepted;
    hide KeysUnique;
    forall k | k in j.events ensures k.1 in {1, 2} {
    }
    if ReadingsInBounds(j) {
      forall k | k in j.events ensures EventRowOk(k.0, k.1, j.events[k]) {
      }
    }
    if EventsAccepted(j) {
      forall k | k in j.events && k.1 == 2 && j.events[k].identity.Some? ensures InBounds(j.events[k].identity.value) {
        assert EventRowOk(k.0, k.1, j.events[k]);
      }
    }
  }

  /** So a broker that is down restarts, on a valid configuration, without the probe always and with it exactly when those readings fit. */
  lemma {:induction false} RestartSucceedsIffReadingsFit(labels: seq<Label>, probe: bool, worker: Id, witnesses: map<Id, Witness>)
    requires Run(labels).activity.Down? && IsId(worker) && forall a | a in witnesses :: WitnessOk(a, witnesses[a])
    ensures var t := Step(Run(labels), Restart(probe, worker, witnesses));
      && (t.activity.Idle? <==> !probe || ReadingsInBounds(Run(labels).journal))
      && (t.activity.Idle? ==> t.probe == probe && t.worker == worker && t.witnesses == witnesses)
  {
    JournalsValidateIffReadingsFit(labels, probe);
    hide Run, Validates, ReadingsInBounds, IsId, WitnessOk;
  }

  /** Whatever the journal holds, a broker restarted without the probe takes new reservations. */
  lemma {:induction false} WithoutProbeItServes(labels: seq<Label>, worker: Id, witnesses: map<Id, Witness>, r: Request)
    requires Run(labels).activity.Down? && IsId(worker) && forall a | a in witnesses :: WitnessOk(a, witnesses[a])
    requires RequestOk(r) && r.attempt !in Run(labels).journal.claims
    ensures Run(labels + [Restart(false, worker, witnesses), Reserve(true, r)]).activity == Reserving(r.attempt, false)
  {
    RestartSucceedsIffReadingsFit(labels, false, worker, witnesses);
    var s := Run(labels);
    RestartForms(s, false, worker, witnesses);
    LastTwo(labels + [Restart(false, worker, witnesses), Reserve(true, r)], labels, Restart(false, worker, witnesses), Reserve(true, r));
    var t := Step(s, Restart(false, worker, witnesses));
    assert t.journal.claims.Keys == s.journal.claims.Keys;
    hide Run, ReadingsInBounds, IsId, WitnessOk, Validates, RequestOk, StartBroker;
  }

  /** Not serving with the probe. */
  predicate ProbeOff(s: System) { s.activity.Down? || !s.probe }

  /**
   * One oversized reading locks the probe out: down once, the broker never serves with it
   * again, and no further process or event comes about in any continuation.
   */
  lemma {:induction false} OversizedReadingLocksOut(before: seq<Label>, after: seq<Label>)
    requires !ReadingsInBounds(Run(before).journal) && Run(before).activity.Down?
    ensures var s, t := Run(before), Run(before + after);
      ProbeOff(t) && t.forks == s.forks && t.journal.events == s.journal.events
    decreases |after|
  {
    if after == [] {
      assert before + after == before;
    } else {
      var n := |after| - 1;
      var middle := before + after[..n];
      assert before + after == middle + [after[n]];
      OversizedReadingLocksOut(before, after[..n]);
      JournalsValidateIffReadingsFit(middle, true);
      RunIsSound(middle);
      RunAppends(middle, after[n]);
      hide Run, Step, IsId;
      SameEventsSameReadings(Run(before).journal, Run(middle).journal);
      assert ActivityOk(Run(middle));
      hide Sound, ActivityOk, ReadingsInBounds;
      StaysOff(Run(middle), after[n]);
    }
  }

  lemma SameEventsSameReadings(i: Journal, j: Journal)
    requires i.events == j.events
    ensures ReadingsInBounds(i) == ReadingsInBounds(j)
  {
    hide InBounds;
  }

  lemma StaysOff(s: System, l: Label)
    requires ProbeOff(s) && ActivityOk(s) && !Validates(s.journal.(claims := QuarantineAll(s.journal.claims)), true)
    ensures ProbeOff(Step(s, l)) && Step(s, l).forks == s.forks && Step(s, l).journal.events == s.journal.events
  {
    hide Validates, WitnessOk, IsId, KeyFreeInBindings, Confirmed, RequestOk;
  }

  /** The undisturbed life of an attempt up to its fork. */
  function LaunchOf(worker: Id, r: Request): seq<Label> {
    [Restart(true, worker, map[]), Reserve(true, r), SendReserve, AuthorityGrants(r.attempt, 1), ReserveReply,
     Spawn(true, r.attempt, Held), Fork]
  }

  /** What the launch leaves behind. */
  function Launched(worker: Id, r: Request): System {
    var a, c := r.attempt, Claim(r.kind, r.subject, r.lease, worker, Reserved, Some(1));
    System(Spawning(a, c, true), worker, map[], true,
           Journal(map[a := c], map[], map[(a, 1) := Event(r.lease, worker, 1, None)]),
           map[a := r], map[a := Grant(r.kind, r.subject, r.lease, 1)], [a], [a])
  }

  /** The broker has started and journaled the request. */
  function Journaled(worker: Id, r: Request): System {
    START.(activity := Reserving(r.attempt, false), worker := worker, probe := true,
           journal := Journal(map[r.attempt := Claim(r.kind, r.subject, r.lease, worker, Pending, None)], map[], map[]))
  }

  lemma LaunchStarts(worker: Id, r: Request)
    requires IsId(worker) && RequestOk(r)
    ensures Step(Step(START, Restart(true, worker, map[])), Reserve(true, r)) == Journaled(worker, r)
  {
    hide IsId;
    assert QuarantineAll(map[]) == map[] && Validates(START.journal, true);
    assert Step(START, Restart(true, worker, map[])) == START.(activity := Idle, worker := worker, probe := true);
  }

  lemma LaunchSends(worker: Id, r: Request)
    ensures Step(Step(Journaled(worker, r), SendReserve), AuthorityGrants(r.attempt, 1)) ==
      Launched(worker, r).(activity := Reserving(r.attempt, true), forks := [],
        journal := Journal(map[r.attempt := Claim(r.kind, r.subject, r.lease, worker, Pending, None)], map[], map[]))
  {
    var a := r.attempt;
    assert Step(Journaled(worker, r), SendReserve) ==
      Journaled(worker, r).(activity := Reserving(a, true), requests := [a], network := map[a := r]);
  }

  lemma {:induction false} LaunchReserves(worker: Id, r: Request)
    requires IsId(worker) && RequestOk(r)
    ensures Run(LaunchOf(worker, r)[..5]) ==
      Launched(worker, r).(activity := Idle, journal := Launched(worker, r).journal.(events := map[]), forks := [])
  {
    var l := LaunchOf(worker, r);
    assert Run([]) == START;
    LaunchStarts(worker, r);
    LaunchSends(worker, r);
    hide Run, Step, Journaled, RequestOk, IsId;
    LastTwo(l[..2], [], l[0], l[1]);
    LastTwo(l[..4], l[..2], l[2], l[3]);
    LastReply(Run(l[..4]), r, worker);
    assert l[..5] == l[..4] + [l[4]];
    RunAppends(l[..4], l[4]);
  }

  lemma LastReply(s: System, r: Request, worker: Id)
    requires s == Launched(worker, r).(activity := Reserving(r.attempt, true), forks := [],
               journal := Journal(map[r.attempt := Claim(r.kind, r.subject, r.lease, worker, Pending, None)], map[], map[]))
    ensures Step(s, ReserveReply) ==
      Launched(worker, r).(activity := Idle, journal := Launched(worker, r).journal.(events := map[]), forks := [])
  {
  }

  lemma {:induction false} EveryAttemptCanBeLaunched(worker: Id, r: Request)
    requires IsId(worker) && RequestOk(r)
    ensures Run(LaunchOf(worker, r)) == Launched(worker, r)
  {
    var l := LaunchOf(worker, r);
    LaunchReserves(worker, r);
    var s := Run(l[..5]);
    hide Run;
    var spawned := Launched(worker, r).(activity := Launched(worker, r).activity.(forked := false), forks := []);
    assert Step(s, l[5]) == spawned;
    assert Step(spawned, l[6]) == Launched(worker, r);
    hide Step;
    TwoSteps(START, l);
  }

  lemma {:induction false} TwoSteps(s: System, l: seq<Label>)
    requires |l| == 7
    ensures After(s, l) == Step(Step(After(s, l[..5]), l[5]), l[6])
  {
    assert l[..6][..5] == l[..5];
    hide Step;
  }

  /** The lock-out is reachable: the fixed child only has to live in a cgroup path of more than 1024 characters. */
  lemma {:induction false} LockOutIsReachable(worker: Id, r: Request, i: Identity)
    requires IsId(worker) && RequestOk(r)
    requires IsReading(i) && |i.cgroup| == MAX_CGROUP + 1
    ensures var s := Run(LaunchOf(worker, r) + [ObserveChild(i), Crash]); s.activity.Down? && !ReadingsInBounds(s.journal)
  {
    var l, a := LaunchOf(worker, r), r.attempt;
    var labels := l + [ObserveChild(i), Crash];
    EveryAttemptCanBeLaunched(worker, r);
    assert labels[..8] == l + [ObserveChild(i)] && labels[..8][..7] == l;
    var s := Launched(worker, r);
    hide IsId;
    hide IsReading;
    assert KeyFreeInEvents(s.journal.events, i);
    var t := RecordChild(s, i);
    assert (a, 2) in t.journal.events && t.journal.events[(a, 2)].identity == Some(i);
    assert !ReadingsInBounds(t.journal);
    assert Step(s, ObserveChild(i)) == t;
    hide RecordChild;
    hide Launched;
    hide ReadingsInBounds;
    LastTwo(labels, l, ObserveChild(i), Crash);
  }

  lemma {:induction false} LastTwo(labels: seq<Label>, l: seq<Label>, a: Label, b: Label)
    requires labels == l + [a, b]
    ensures Run(labels) == Step(Step(Run(l), a), b)
  {
    hide Step;
    var middle := l + [a];
    assert middle[..|middle| - 1] == l && labels[..|labels| - 1] == middle;
    assert Run(middle) == Step(Run(l), a);
    assert Run(labels) == Step(Run(middle), b);
  }

  // ---------------------------------------------------------------- agreement of the tables

  /** Binding and event rows quote their claim forever, and identities are unique within each table. */
  lemma {:induction false} RowsQuoteTheirClaims(labels: seq<Label>)
    ensures var j := Run(labels).journal;
      && (forall a | a in j.bindings :: Matches(j.claims, a, j.bindings[a].lease, j.bindings[a].worker, j.bindings[a].epoch))
      && (forall k | k in j.events :: Matches(j.claims, k.0, j.events[k].lease, j.events[k].worker, j.events[k].epoch))
      && KeysUnique(j)
  {
    RunIsSound(labels);
    hide Run;
    hide IsId;
    hide IsReading;
    hide InBounds;
  }
}
