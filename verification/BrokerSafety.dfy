/** What the broker's journals mean, over every run with crashes and lost replies. */
module BrokerSafety {
  import opened Wrappers
  import opened Names
  import opened Sequences
  import opened BrokerJournal
  import opened BrokerRuntime

  // ---------------------------------------------------------------- invariants

  ghost predicate ClaimsOk(s: System) {
    forall a | a in s.journal.claims ::
      var c := s.journal.claims[a];
      && IsId(a) && IsId(c.subject) && IsId(c.lease) && IsId(c.worker)
      && (c.status.Pending? ==> c.epoch.None?) && (c.status.Reserved? ==> c.epoch.Some?)
      && (c.epoch.Some? ==> Positive(c.epoch.value) && a in s.grants && s.grants[a].epoch == c.epoch.value)
  }

  /** Requests and holds never outrun the journal. */
  ghost predicate AuthorityOk(s: System) {
    && (forall a | a in s.network :: a in s.journal.claims && a in s.requests &&
          s.network[a] == Request(a, s.journal.claims[a].kind, s.journal.claims[a].subject, s.journal.claims[a].lease))
    && (forall a | a in s.grants :: a in s.network && s.grants[a].epoch >= 1 &&
          (s.grants[a].kind, s.grants[a].subject, s.grants[a].lease) == (s.network[a].kind, s.network[a].subject, s.network[a].lease))
    && (forall a | a in s.requests :: a in s.network)
    && Distinct(s.requests)
  }

  ghost predicate ActivityOk(s: System) {
    && (!s.activity.Down? ==> IsId(s.worker) && forall a | a in s.witnesses :: WitnessOk(a, s.witnesses[a]))
    && (s.activity.Reserving? ==>
          var a := s.activity.attempt;
          a in s.journal.claims && s.journal.claims[a].status.Pending? && (s.activity.sent <==> a in s.requests))
    && (s.activity.Spawning? ==>
          var a := s.activity.attempt;
          && a in s.journal.claims && s.journal.claims[a] == s.activity.claim && s.activity.claim.epoch.Some?
          && s.probe && (a, 1) in s.journal.events && (a, 2) !in s.journal.events && (s.activity.forked <==> a in s.forks))
  }

  ghost predicate SpawnsOk(s: System) {
    && Distinct(s.forks)
    && (forall a | a in s.forks :: (a, 1) in s.journal.events)
    && (forall a | (a, 2) in s.journal.events :: a in s.forks)
  }

  /** Everything the event validator checks except the bounds of observed identities. */
  ghost predicate EventsCoherent(j: Journal) {
    && (forall k | k in j.events ::
          && IsId(k.0) && k.1 in {1, 2} && (k.0, 1) in j.events
          && Matches(j.claims, k.0, j.events[k].lease, j.events[k].worker, j.events[k].epoch)
          && (k.1 == 1 <==> j.events[k].identity.None?)
          && (k.1 == 2 ==> IsReading(j.events[k].identity.value)))
  }

  ghost predicate KeysUnique(j: Journal) {
    && (forall a, b | a in j.bindings && b in j.bindings && Key(j.bindings[a].identity) == Key(j.bindings[b].identity) :: a == b)
    && (forall k, m | k in j.events && m in j.events && j.events[k].identity.Some? && j.events[m].identity.Some?
                      && Key(j.events[k].identity.value) == Key(j.events[m].identity.value) :: k == m)
  }

  ghost predicate Control(s: System) {
    ClaimsOk(s) && AuthorityOk(s) && ActivityOk(s) && SpawnsOk(s)
  }

  ghost predicate Tables(j: Journal) {
    BindingsAccepted(j) && EventsCoherent(j) && KeysUnique(j)
  }

  ghost predicate Sound(s: System) {
    Control(s) && Tables(s.journal)
  }

  // ---------------------------------------------------------------- how rows may change

  function Rank(s: Status): nat {
    match s case Pending => 0 case Reserved => 1 case Quarantined => 2
  }

  /** A claim keeps its identity, its status only advances, and its epoch is written at most once, with the reservation. */
  ghost predicate Advances(c: Claim, d: Claim) {
    && (d.kind, d.subject, d.lease, d.worker) == (c.kind, c.subject, c.lease, c.worker)
    && Rank(c.status) <= Rank(d.status)
    && (d.epoch == c.epoch || (c.status.Pending? && c.epoch.None?))
  }

  /** No row disappears; bindings and events never change at all. */
  ghost predicate JournalGrows(i: Journal, j: Journal) {
    && (forall a | a in i.claims :: a in j.claims && Advances(i.claims[a], j.claims[a]))
    && (forall a | a in i.bindings :: a in j.bindings && j.bindings[a] == i.bindings[a])
    && (forall k | k in i.events :: k in j.events && j.events[k] == i.events[k])
  }

  /** New claims cannot disturb rows that quote old ones. */
  lemma TablesStay(i: Journal, j: Journal)
    requires Tables(i) && JournalGrows(i, j) && j.bindings == i.bindings && j.events == i.events
    ensures Tables(j)
  {
    forall k | k in j.events
      ensures Matches(j.claims, k.0, j.events[k].lease, j.events[k].worker, j.events[k].epoch)
    {
      assert k in i.events;
      assert Matches(i.claims, k.0, i.events[k].lease, i.events[k].worker, i.events[k].epoch);
    }
    forall a | a in j.bindings
      ensures Matches(j.claims, a, j.bindings[a].lease, j.bindings[a].worker, j.bindings[a].epoch)
    {
      assert a in i.bindings;
    }
  }

  // ---------------------------------------------------------------- every step, table by table

  lemma AuthorityStays(s: System, t: System)
    requires AuthorityOk(s) && JournalGrows(s.journal, t.journal)
    requires t.network == s.network && t.grants == s.grants && t.requests == s.requests
    ensures AuthorityOk(t)
  {
  }

  lemma SpawnsStay(s: System, t: System)
    requires SpawnsOk(s) && t.journal.events == s.journal.events && t.forks == s.forks
    ensures SpawnsOk(t)
  {
  }

  function QuarantinedSystem(s: System): System {
    s.(journal := s.journal.(claims := QuarantineAll(s.journal.claims)))
  }

  /** What start-up can lead to. */
  lemma RestartForms(s: System, probe: bool, worker: Id, witnesses: map<Id, Witness>)
    ensures var t, q := StartBroker(s, probe, worker, witnesses), QuarantinedSystem(s);
      || t == s || (s.activity.Down? && t == q)
      || (t == q.(activity := Idle, probe := probe, worker := worker, witnesses := witnesses) && s.activity.Down? && IsId(worker)
          && forall a | a in witnesses :: WitnessOk(a, witnesses[a]))
  {
    hide Validates, IsId, WitnessOk, QuarantineAll;
  }

  lemma QuarantineGrows(s: System)
    ensures JournalGrows(s.journal, QuarantinedSystem(s).journal)
  {
  }

  lemma {:induction false} RestartGrows(s: System, probe: bool, worker: Id, witnesses: map<Id, Witness>)
    ensures var j := StartBroker(s, probe, worker, witnesses).journal;
      JournalGrows(s.journal, j) && j.bindings == s.journal.bindings && j.events == s.journal.events
  {
    RestartForms(s, probe, worker, witnesses);
    QuarantineGrows(s);
    assert JournalGrows(s.journal, s.journal);
    hide StartBroker, JournalGrows, QuarantineAll;
  }

  lemma QuarantinedClaims(s: System)
    requires ClaimsOk(s)
    ensures ClaimsOk(QuarantinedSystem(s))
  {
    hide IsId;
  }

  lemma QuarantinedActivity(s: System)
    requires ActivityOk(s) && s.activity.Down?
    ensures ActivityOk(QuarantinedSystem(s))
  {
    hide IsId, WitnessOk;
  }

  lemma StartedControl(q: System, probe: bool, worker: Id, witnesses: map<Id, Witness>)
    requires Control(q) && IsId(worker) && forall a | a in witnesses :: WitnessOk(a, witnesses[a])
    ensures Control(q.(activity := Idle, probe := probe, worker := worker, witnesses := witnesses))
  {
    hide IsId, WitnessOk;
  }

  lemma {:induction false} RestartControl(s: System, probe: bool, worker: Id, witnesses: map<Id, Witness>)
    requires Control(s)
    ensures Control(StartBroker(s, probe, worker, witnesses))
  {
    RestartForms(s, probe, worker, witnesses);
    var q := QuarantinedSystem(s);
    if s.activity.Down? {
      QuarantineGrows(s);
      QuarantinedClaims(s);
      QuarantinedActivity(s);
      AuthorityStays(s, q);
      SpawnsStay(s, q);
      assert Control(q);
    }
    hide Control, StartBroker, QuarantinedSystem, IsId, WitnessOk;
    if StartBroker(s, probe, worker, witnesses) != s && StartBroker(s, probe, worker, witnesses) != q {
      StartedControl(q, probe, worker, witnesses);
    }
  }

  lemma ReserveGrows(s: System, r: Request)
    ensures var j := BeginReserve(s, r).journal;
      JournalGrows(s.journal, j) && j.bindings == s.journal.bindings && j.events == s.journal.events
  {
    hide IsId;
  }

  lemma ReserveClaims(s: System, r: Request)
    requires ClaimsOk(s) && IsId(s.worker)
    ensures ClaimsOk(BeginReserve(s, r))
  {
    hide IsId;
  }

  lemma ReserveActivity(s: System, r: Request)
    requires ActivityOk(s) && AuthorityOk(s) && s.activity.Idle?
    ensures ActivityOk(BeginReserve(s, r))
  {
    assert r.attempt !in s.journal.claims ==> r.attempt !in s.requests by { hide ActivityOk; }
    hide AuthorityOk, IsId, WitnessOk;
  }

  lemma ReserveLocal(s: System, r: Request)
    ensures var t := BeginReserve(s, r); SameRemote(s, t) && t.journal.events == s.journal.events
  {
    hide RequestOk;
  }

  lemma ReserveControl(s: System, r: Request)
    requires Control(s) && s.activity.Idle?
    ensures Control(BeginReserve(s, r))
  {
    hide ClaimsOk, SpawnsOk, AuthorityOk, JournalGrows, IsId, BeginReserve;
    ReserveGrows(s, r);
    ReserveLocal(s, r);
    ReserveActivity(s, r);
    hide ActivityOk;
    AuthorityStays(s, BeginReserve(s, r));
    SpawnsStay(s, BeginReserve(s, r));
    ReserveClaims(s, r);
  }

  lemma SendControl(s: System)
    requires Control(s)
    ensures Control(Send(s))
  {
    hide IsId;
    assert ClaimsOk(Send(s));
  }

  lemma CommitClaims(s: System, a: Id, e: int)
    requires ClaimsOk(s)
    ensures ClaimsOk(Commit(s, a, e))
  {
    hide IsId;
  }

  lemma CommitControl(s: System, a: Id, e: int)
    requires Control(s)
    ensures Control(Commit(s, a, e))
  {
    hide ClaimsOk;
    hide IsId;
    CommitClaims(s, a, e);
  }

  lemma ClaimAdvances(j: Journal, a: Id, c: Claim)
    requires a in j.claims && Advances(j.claims[a], c)
    ensures JournalGrows(j, j.(claims := j.claims[a := c]))
  {
  }

  lemma ReplyJournal(s: System)
    ensures var t := AcceptReply(s);
      t.journal == s.journal ||
      (s.activity.Reserving? && s.activity.attempt in s.journal.claims && s.activity.attempt in s.grants &&
        var a := s.activity.attempt;
        s.journal.claims[a].status.Pending? && t.journal == s.journal.(claims := s.journal.claims[a := s.journal.claims[a].(status := Reserved, epoch := Some(s.grants[a].epoch))]))
  {
  }

  lemma ReplyGrows(s: System)
    requires Control(s)
    ensures var j := AcceptReply(s).journal;
      JournalGrows(s.journal, j) && j.bindings == s.journal.bindings && j.events == s.journal.events
  {
    ReplyJournal(s);
    SameJournalGrows(s.journal);
    assert ClaimsOk(s);
    hide Control, AcceptReply, JournalGrows, Positive, IsId;
    if AcceptReply(s).journal != s.journal {
      var a := s.activity.attempt;
      var c := s.journal.claims[a];
      ClaimAdvances(s.journal, a, c.(status := Reserved, epoch := Some(s.grants[a].epoch)));
    }
  }

  lemma ReplyClaims(s: System)
    requires ClaimsOk(s)
    ensures ClaimsOk(AcceptReply(s))
  {
    hide IsId;
    hide Positive;
  }

  lemma {:induction false} ReplyControl(s: System)
    requires Control(s)
    ensures Control(AcceptReply(s))
  {
    hide ClaimsOk;
    hide AuthorityOk;
    hide SpawnsOk;
    hide JournalGrows;
    hide IsId;
    var t := AcceptReply(s);
    ReplyGrows(s);
    AuthorityStays(s, t);
    SpawnsStay(s, t);
    ReplyClaims(s);
  }

  lemma SpawnControl(s: System, a: Id, answer: Disposition)
    requires Control(s) && s.activity.Idle? && s.probe
    ensures Control(BeginSpawn(s, a, answer))
  {
    hide IsId;
    hide ClaimsOk;
    hide AuthorityOk;
    var t := BeginSpawn(s, a, answer);
    ControlOfClaims(s, t);
    assert SpawnsOk(t);
  }

  lemma ChildSpawns(s: System, i: Identity)
    requires SpawnsOk(s) && ActivityOk(s)
    ensures SpawnsOk(RecordChild(s, i))
  {
    hide IsReading, KeyFreeInEvents, WitnessOk, IsId;
  }

  lemma ChildLocal(s: System, i: Identity)
    ensures var t := RecordChild(s, i); SameRemote(s, t) && t.journal.claims == s.journal.claims
  {
    hide IsReading, KeyFreeInEvents;
  }

  lemma ChildActivity(s: System, i: Identity)
    requires ActivityOk(s)
    ensures ActivityOk(RecordChild(s, i))
  {
    hide IsReading, KeyFreeInEvents, WitnessOk, IsId;
  }

  lemma ChildControl(s: System, i: Identity)
    requires Control(s)
    ensures Control(RecordChild(s, i))
  {
    hide IsId, IsReading, ClaimsOk, AuthorityOk, SpawnsOk, ActivityOk, RecordChild;
    ChildSpawns(s, i);
    ChildActivity(s, i);
    ChildLocal(s, i);
    ControlOfClaims(s, RecordChild(s, i));
  }

  lemma ControlOfClaims(s: System, t: System)
    requires ClaimsOk(s) && AuthorityOk(s) && t.journal.claims == s.journal.claims
    requires t.network == s.network && t.grants == s.grants && t.requests == s.requests
    ensures ClaimsOk(t) && AuthorityOk(t)
  {
    hide IsId;
  }

  lemma ForkControl(s: System)
    requires Control(s)
    ensures Control(Step(s, Fork))
  {
    hide IsId;
    hide ClaimsOk;
    hide AuthorityOk;
    ControlOfClaims(s, Step(s, Fork));
  }

  // ---------------------------------------------------------------- bindings and events

  lemma CaptureLocal(s: System, a: Id, answer: Disposition, present: bool)
    ensures var t := CaptureBinding(s, a, answer, present);
      && t.journal.claims == s.journal.claims && t.journal.events == s.journal.events
      && (t == s || (Known(s, a) && s.journal.claims[a].epoch.Some? && a in s.witnesses && a !in s.journal.bindings
          && KeyFreeInBindings(s.journal.bindings, s.witnesses[a].identity)
          && t.journal.bindings == s.journal.bindings[a :=
               Binding(s.journal.claims[a].lease, s.journal.claims[a].worker, s.journal.claims[a].epoch.value, s.witnesses[a].identity)]))
  {
    hide KeyFreeInBindings, Confirmed;
  }

  lemma BindingTables(j: Journal, a: Id, b: Binding)
    requires Tables(j) && a !in j.bindings && KeyFreeInBindings(j.bindings, b.identity)
    requires BindingRowOk(a, b) && Matches(j.claims, a, b.lease, b.worker, b.epoch)
    ensures Tables(j.(bindings := j.bindings[a := b]))
  {
    hide IsId, IsReading, InBounds, BindingRowOk;
  }

  lemma CaptureTables(s: System, a: Id, answer: Disposition, present: bool)
    requires Sound(s) && s.activity.Idle?
    ensures Tables(CaptureBinding(s, a, answer, present).journal)
  {
    hide IsId, IsReading, InBounds, AuthorityOk, SpawnsOk, Tables, CaptureBinding, Positive;
    CaptureLocal(s, a, answer, present);
    var t := CaptureBinding(s, a, answer, present);
    if t != s {
      BindingTables(s.journal, a, t.journal.bindings[a]);
      assert t.journal == s.journal.(bindings := t.journal.bindings);
    }
  }

  lemma SpawnTables(s: System, a: Id, answer: Disposition)
    requires ClaimsOk(s) && Tables(s.journal)
    ensures Tables(BeginSpawn(s, a, answer).journal)
  {
    hide IsId;
    hide BindingsAccepted;
    var i, j := s.journal, BeginSpawn(s, a, answer).journal;
    if j != i {
      var c := i.claims[a];
      IntentTables(i, a, Event(c.lease, c.worker, c.epoch.value, None));
    }
    BindingsUntouched(i, j);
  }

  lemma BindingsUntouched(i: Journal, j: Journal)
    requires BindingsAccepted(i) && j.claims == i.claims && j.bindings == i.bindings
    ensures BindingsAccepted(j)
  {
  }

  lemma IntentTables(j: Journal, a: Id, e: Event)
    requires EventsCoherent(j) && KeysUnique(j) && !HasEvents(j, a)
    requires IsId(a) && Matches(j.claims, a, e.lease, e.worker, e.epoch) && e.identity.None?
    ensures var k := j.(events := j.events[(a, 1) := e]); EventsCoherent(k) && KeysUnique(k)
  {
    hide IsId;
  }

  lemma ChildRow(j: Journal, a: Id, e: Event)
    requires EventsCoherent(j) && (a, 1) in j.events && (a, 2) !in j.events
    requires IsId(a) && Matches(j.claims, a, e.lease, e.worker, e.epoch) && e.identity.Some? && IsReading(e.identity.value)
    ensures EventsCoherent(j.(events := j.events[(a, 2) := e]))
  {
    hide IsId;
    hide IsReading;
  }

  lemma ChildKey(j: Journal, a: Id, e: Event)
    requires KeysUnique(j) && e.identity.Some? && KeyFreeInEvents(j.events, e.identity.value)
    ensures KeysUnique(j.(events := j.events[(a, 2) := e]))
  {
  }

  lemma ChildTables(s: System, i: Identity)
    requires ClaimsOk(s) && ActivityOk(s) && Tables(s.journal)
    ensures Tables(RecordChild(s, i).journal)
  {
    hide IsId;
    hide IsReading;
    hide KeyFreeInEvents;
    hide BindingsAccepted;
    hide KeysUnique;
    var j, k := s.journal, RecordChild(s, i).journal;
    BindingsUntouched(j, k);
    if k != j {
      var a, c := s.activity.attempt, s.activity.claim;
      var e := Event(c.lease, c.worker, c.epoch.value, Some(i));
      ChildRow(j, a, e);
      ChildKey(j, a, e);
      assert k == j.(events := j.events[(a, 2) := e]);
    }
  }

  lemma CaptureControl(s: System, a: Id, answer: Disposition, present: bool)
    requires Control(s) && s.activity.Idle?
    ensures Control(CaptureBinding(s, a, answer, present))
  {
    hide IsId;
    hide KeyFreeInBindings;
    hide ClaimsOk;
    hide AuthorityOk;
    hide SpawnsOk;
    var t := CaptureBinding(s, a, answer, present);
    ControlOfClaims(s, t);
    SpawnsStay(s, t);
  }

  /** Giving up, crashing, or waiting leaves nothing behind but the journal. */
  lemma AbandonControl(s: System, activity: Activity)
    requires Control(s) && (activity == Down || (activity == Idle && !s.activity.Down?))
    ensures Control(s.(activity := activity))
  {
    hide IsId;
    hide ClaimsOk;
    hide AuthorityOk;
    ControlOfClaims(s, s.(activity := activity));
  }

  // ---------------------------------------------------------------- every run

  lemma ControlParts(s: System)
    requires Control(s)
    ensures ClaimsOk(s) && AuthorityOk(s) && ActivityOk(s) && SpawnsOk(s)
  {
    hide ClaimsOk, AuthorityOk, ActivityOk, SpawnsOk;
  }

  lemma RemoteJournal(s: System, a: Id, e: int)
    ensures Send(s).journal == s.journal && Commit(s, a, e).journal == s.journal
  {
  }

  lemma StepSound(s: System, l: Label)
    requires Sound(s)
    ensures Sound(Step(s, l))
  {
    hide ClaimsOk, ActivityOk, Control, Tables, JournalGrows, StartBroker, BeginReserve, AcceptReply, Send, Commit;
    ControlParts(s);
    match l
    case Restart(probe, worker, witnesses) =>
      RestartControl(s, probe, worker, witnesses);
      RestartGrows(s, probe, worker, witnesses);
      TablesStay(s.journal, StartBroker(s, probe, worker, witnesses).journal);
    case Crash => AbandonControl(s, Down);
    case Reserve(authorized, r) =>
      if s.activity.Idle? && authorized {
        ReserveControl(s, r);
        ReserveGrows(s, r);
        TablesStay(s.journal, BeginReserve(s, r).journal);
      }
    case SendReserve => SendControl(s); RemoteJournal(s, Name(""), 1);
    case AuthorityGrants(a, e) => CommitControl(s, a, e); RemoteJournal(s, a, e);
    case ReserveReply => ReplyControl(s); ReplyGrows(s); TablesStay(s.journal, AcceptReply(s).journal);
    case ReserveFails => if s.activity.Reserving? { AbandonControl(s, Idle); }
    case Capture(authorized, a, answer, present) =>
      if s.activity.Idle? && authorized { CaptureControl(s, a, answer, present); CaptureTables(s, a, answer, present); }
    case Spawn(authorized, a, answer) =>
      if s.activity.Idle? && s.probe && authorized { SpawnControl(s, a, answer); SpawnTables(s, a, answer); }
    case Fork => ForkControl(s);
    case ObserveChild(i) => ChildControl(s, i); ChildTables(s, i);
    case SpawnFails => if s.activity.Spawning? { AbandonControl(s, Idle); }
  }

  lemma StartSound()
    ensures Sound(START)
  {
  }

  lemma {:induction false} RunIsSound(labels: seq<Label>)
    ensures Sound(Run(labels))
  {
    hide Sound;
    hide Step;
    if labels == [] {
      StartSound();
    } else {
      RunIsSound(labels[..|labels| - 1]);
      StepSound(Run(labels[..|labels| - 1]), labels[|labels| - 1]);
    }
  }

  // ---------------------------------------------------------------- what later steps may do

  /** No row, grant, request or process of the past is lost, changed or repeated. */
  ghost predicate Extends(s: System, t: System) {
    JournalGrows(s.journal, t.journal) && RemoteGrows(s, t)
  }

  ghost predicate RemoteGrows(s: System, t: System) {
    && (forall a | a in s.grants :: a in t.grants && t.grants[a] == s.grants[a])
    && (forall a | a in s.network :: a in t.network && t.network[a] == s.network[a])
    && s.requests <= t.requests && s.forks <= t.forks
  }

  lemma SameRemoteGrows(s: System, t: System)
    requires SameRemote(s, t)
    ensures RemoteGrows(s, t)
  {
  }

  lemma CaptureGrows(s: System, a: Id, answer: Disposition, present: bool)
    ensures JournalGrows(s.journal, CaptureBinding(s, a, answer, present).journal)
  {
    hide IsId;
    hide KeyFreeInBindings;
  }

  lemma SpawnGrows(s: System, a: Id, answer: Disposition)
    ensures JournalGrows(s.journal, BeginSpawn(s, a, answer).journal)
  {
    hide IsId;
  }

  lemma ChildGrows(s: System, i: Identity)
    ensures JournalGrows(s.journal, RecordChild(s, i).journal)
  {
    hide IsReading;
    hide KeyFreeInEvents;
  }

  lemma SameJournalGrows(j: Journal)
    ensures JournalGrows(j, j)
  {
  }

  lemma StepGrows(s: System, l: Label)
    requires Control(s)
    ensures JournalGrows(s.journal, Step(s, l).journal)
  {
    hide JournalGrows;
    hide Control;
    SameJournalGrows(s.journal);
    match l
    case Restart(probe, worker, witnesses) => RestartGrows(s, probe, worker, witnesses);
    case Reserve(_, r) => ReserveGrows(s, r);
    case ReserveReply => ReplyGrows(s);
    case Capture(_, a, answer, present) => CaptureGrows(s, a, answer, present);
    case Spawn(_, a, answer) => SpawnGrows(s, a, answer);
    case ObserveChild(i) => ChildGrows(s, i);
    case SendReserve => assert Send(s).journal == s.journal;
    case AuthorityGrants(a, e) => assert Commit(s, a, e).journal == s.journal;
    case _ =>
  }

  ghost predicate SameRemote(s: System, t: System) {
    t.network == s.network && t.grants == s.grants && t.requests == s.requests && t.forks == s.forks
  }

  lemma LocalSteps(s: System, l: Label)
    requires !l.SendReserve? && !l.AuthorityGrants? && !l.Fork?
    ensures SameRemote(s, Step(s, l))
  {
    hide IsId;
    hide IsReading;
    hide KeyFreeInEvents;
    hide KeyFreeInBindings;
    hide Validates;
    hide QuarantineAll;
    hide WitnessOk;
  }

  lemma SendGrows(s: System)
    requires AuthorityOk(s) && ActivityOk(s)
    ensures RemoteGrows(s, Send(s))
  {
    assert s.activity.Reserving? && !s.activity.sent ==> s.activity.attempt !in s.network;
    hide AuthorityOk, ActivityOk;
  }

  lemma CommitGrows(s: System, a: Id, e: int)
    ensures RemoteGrows(s, Commit(s, a, e))
  {
  }

  lemma ForkGrows(s: System)
    ensures RemoteGrows(s, Step(s, Fork))
  {
  }

  lemma RemoteSteps(s: System, l: Label)
    requires AuthorityOk(s) && ActivityOk(s) && (l.SendReserve? || l.AuthorityGrants? || l.Fork?)
    ensures RemoteGrows(s, Step(s, l))
  {
    hide AuthorityOk, ActivityOk, RemoteGrows;
    match l
    case SendReserve => SendGrows(s);
    case AuthorityGrants(a, e) => CommitGrows(s, a, e);
    case Fork => ForkGrows(s);
    case _ =>
  }

  lemma StepExtends(s: System, l: Label)
    requires Control(s)
    ensures Extends(s, Step(s, l))
  {
    StepGrows(s, l);
    assert AuthorityOk(s) && ActivityOk(s);
    hide JournalGrows, RemoteGrows, SameRemote, Step, Control, AuthorityOk, ActivityOk;
    if l.SendReserve? || l.AuthorityGrants? || l.Fork? {
      RemoteSteps(s, l);
    } else {
      LocalSteps(s, l);
      SameRemoteGrows(s, Step(s, l));
    }
  }

  lemma ExtendsIsTransitive(s: System, t: System, u: System)
    requires Extends(s, t) && Extends(t, u)
    ensures Extends(s, u)
  {
    assert JournalGrows(s.journal, u.journal);
  }

  lemma ExtendsIsReflexive(s: System)
    ensures Extends(s, s)
  {
  }

  lemma RunAppends(labels: seq<Label>, l: Label)
    ensures Run(labels + [l]) == Step(Run(labels), l)
  {
    hide Step;
    assert (labels + [l])[..|labels|] == labels;
  }

  lemma {:induction false} RunExtends(before: seq<Label>, after: seq<Label>)
    ensures Extends(Run(before), Run(before + after))
  {
    hide *;
    if after == [] {
      assert before + after == before;
      ExtendsIsReflexive(Run(before));
    } else {
      var n := |after| - 1;
      var middle := before + after[..n];
      assert before + after == middle + [after[n]];
      RunExtends(before, after[..n]);
      RunIsSound(middle);
      SoundIsControlled(Run(middle));
      RunAppends(middle, after[n]);
      StepExtends(Run(middle), after[n]);
      ExtendsIsTransitive(Run(before), Run(middle), Run(before + after));
    }
  }

  lemma SoundIsControlled(s: System)
    requires Sound(s)
    ensures Control(s)
  {
    hide Tables, Control;
  }
}
