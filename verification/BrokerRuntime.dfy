/**
 * The broker, the control plane it reserves with, and crashes, as a transition system.
 *
 * The server handles one request at a time, but may stop between any two commits. A
 * reservation request, once sent, can be committed by the control plane at any later
 * moment, whether or not the broker is still waiting for, or able to read, the reply.
 */
module BrokerRuntime {
  import opened Wrappers
  import opened Names
  import opened BrokerJournal

  datatype Witness = Witness(worker: Id, lease: Id, epoch: int, identity: Identity)

  datatype Request = Request(attempt: Id, kind: SubjectKind, subject: Id, lease: Id)

  /** What the control plane holds for an attempt. */
  datatype Grant = Grant(kind: SubjectKind, subject: Id, lease: Id, epoch: int)

  /** An answer to an observation query: held, or held by somebody else, or unknown. */
  datatype Disposition = Held | Unconfirmed | NotFound

  datatype Activity =
    | Down
    | Idle
    | Reserving(attempt: Id, sent: bool)
    | Spawning(attempt: Id, claim: Claim, forked: bool)

  datatype System = System(
    activity: Activity,
    worker: Id,
    witnesses: map<Id, Witness>,
    probe: bool, // started with the synthetic provenance probe
    journal: Journal,
    // the control plane, and requests on the wire
    network: map<Id, Request>,
    grants: map<Id, Grant>,
    // what happened so far
    requests: seq<Id>,
    forks: seq<Id>)

  const START := System(Down, Name(""), map[], false, Journal(map[], map[], map[]), map[], map[], [], [])

  datatype Label =
    | Restart(probe: bool, worker: Id, witnesses: map<Id, Witness>)
    | Crash
    | Reserve(authorized: bool, request: Request)
    | SendReserve
    | AuthorityGrants(attempt: Id, epoch: int)
    | ReserveReply
    | ReserveFails
    | Capture(authorized: bool, attempt: Id, answer: Disposition, present: bool)
    | Spawn(authorized: bool, attempt: Id, answer: Disposition)
    | Fork
    | ObserveChild(reading: Identity)
    | SpawnFails

  predicate RequestOk(r: Request) {
    IsId(r.attempt) && IsId(r.subject) && IsId(r.lease)
  }

  predicate WitnessOk(attempt: Id, w: Witness) {
    IsId(attempt) && IsId(w.worker) && IsId(w.lease) && Positive(w.epoch) && IsReading(w.identity) && InBounds(w.identity)
  }

  /** The validators that run at start-up: the event table is looked at only with the probe. */
  ghost predicate Validates(j: Journal, probe: bool) {
    BindingsAccepted(j) && (probe ==> EventsAccepted(j))
  }

  /**
   * Start-up with an authority configuration: quarantine first, then refuse to serve a journal
   * that does not validate. A start without one runs nothing here and counts as Down.
   */
  ghost function StartBroker(s: System, probe: bool, worker: Id, witnesses: map<Id, Witness>): System {
    if !s.activity.Down? || !IsId(worker) then s
    else
      var t := s.(journal := s.journal.(claims := QuarantineAll(s.journal.claims)));
      if (forall a | a in witnesses :: WitnessOk(a, witnesses[a])) && Validates(t.journal, probe)
      then t.(activity := Idle, probe := probe, worker := worker, witnesses := witnesses)
      else t
  }

  function BeginReserve(s: System, r: Request): System {
    if !RequestOk(r) || r.attempt in s.journal.claims then s
    else s.(activity := Reserving(r.attempt, false),
            journal := s.journal.(claims := s.journal.claims[r.attempt := Claim(r.kind, r.subject, r.lease, s.worker, Pending, None)]))
  }

  function Send(s: System): System {
    if !s.activity.Reserving? || s.activity.sent || s.activity.attempt !in s.journal.claims then s
    else
      var a := s.activity.attempt;
      var c := s.journal.claims[a];
      s.(activity := Reserving(a, true), requests := s.requests + [a],
         network := s.network[a := Request(a, c.kind, c.subject, c.lease)])
  }

  /** The control plane commits at most one hold per attempt, with an epoch of its own choice. */
  function Commit(s: System, attempt: Id, epoch: int): System {
    if attempt !in s.network || attempt in s.grants || epoch < 1 then s
    else
      var r := s.network[attempt];
      s.(grants := s.grants[attempt := Grant(r.kind, r.subject, r.lease, epoch)])
  }

  /** An intact reply: the row becomes reserved if its epoch is acceptable and it is still pending. */
  function AcceptReply(s: System): System {
    if !s.activity.Reserving? || !s.activity.sent || s.activity.attempt !in s.grants || s.activity.attempt !in s.journal.claims then s
    else
      var a := s.activity.attempt;
      var c, e := s.journal.claims[a], s.grants[a].epoch;
      var t := s.(activity := Idle);
      if !Positive(e) || !c.status.Pending? then t
      else t.(journal := t.journal.(claims := t.journal.claims[a := c.(status := Reserved, epoch := Some(e))]))
  }

  /** Rows visible to the caller: journaled by the worker the broker runs for. */
  predicate Known(s: System, attempt: Id) {
    IsId(attempt) && attempt in s.journal.claims && s.journal.claims[attempt].worker == s.worker
  }

  /** bridge.observe with an honest answer, required to confirm the local epoch. */
  predicate Confirmed(s: System, attempt: Id, answer: Disposition) {
    && attempt in s.journal.claims && s.journal.claims[attempt].epoch.Some?
    && answer.Held? && attempt in s.grants && s.grants[attempt].epoch == s.journal.claims[attempt].epoch.value
  }

  function CaptureBinding(s: System, attempt: Id, answer: Disposition, present: bool): System {
    if !Known(s, attempt) then s
    else
      var c := s.journal.claims[attempt];
      if c.epoch.None? || !Positive(c.epoch.value) || c.status.Pending? then s
      else if attempt !in s.witnesses then s
      else
        var w := s.witnesses[attempt];
        if (w.lease, w.worker, w.epoch) != (c.lease, c.worker, c.epoch.value) then s
        else if attempt in s.journal.bindings then s
        else if !Confirmed(s, attempt, answer) || !present || !KeyFreeInBindings(s.journal.bindings, w.identity) then s
        else s.(journal := s.journal.(bindings :=
                  s.journal.bindings[attempt := Binding(c.lease, c.worker, c.epoch.value, w.identity)]))
  }

  predicate HasEvents(j: Journal, attempt: Id) {
    (attempt, 1) in j.events || (attempt, 2) in j.events
  }

  function BeginSpawn(s: System, attempt: Id, answer: Disposition): System {
    if !Known(s, attempt) then s
    else
      var c := s.journal.claims[attempt];
      if c.epoch.None? || !Positive(c.epoch.value) || !c.status.Reserved? then s
      else if attempt in s.journal.bindings || HasEvents(s.journal, attempt) || !Confirmed(s, attempt, answer) then s
      else s.(activity := Spawning(attempt, c, false),
              journal := s.journal.(events := s.journal.events[(attempt, 1) := Event(c.lease, c.worker, c.epoch.value, None)]))
  }

  /** After the fork: record the child if its reading is usable and the tables still allow it. */
  function RecordChild(s: System, i: Identity): System {
    if !s.activity.Spawning? || !s.activity.forked || !IsReading(i) then s
    else
      var a, c := s.activity.attempt, s.activity.claim;
      var t := s.(activity := Idle);
      if a !in s.journal.claims || s.journal.claims[a] != c || c.epoch.None? || (a, 2) in s.journal.events ||
         !KeyFreeInEvents(s.journal.events, i) then t
      else t.(journal := t.journal.(events := t.journal.events[(a, 2) := Event(c.lease, c.worker, c.epoch.value, Some(i))]))
  }

  ghost function Step(s: System, l: Label): System {
    match l
    case Restart(probe, worker, witnesses) => StartBroker(s, probe, worker, witnesses)
    case Crash => s.(activity := Down)
    case Reserve(authorized, r) => if s.activity.Idle? && authorized then BeginReserve(s, r) else s
    case SendReserve => Send(s)
    case AuthorityGrants(a, e) => Commit(s, a, e)
    case ReserveReply => AcceptReply(s)
    case ReserveFails => if s.activity.Reserving? then s.(activity := Idle) else s
    case Capture(authorized, a, answer, present) =>
      if s.activity.Idle? && authorized then CaptureBinding(s, a, answer, present) else s
    case Spawn(authorized, a, answer) => if s.activity.Idle? && s.probe && authorized then BeginSpawn(s, a, answer) else s
    case Fork =>
      if s.activity.Spawning? && !s.activity.forked
      then s.(activity := s.activity.(forked := true), forks := s.forks + [s.activity.attempt]) else s
    case ObserveChild(i) => RecordChild(s, i)
    case SpawnFails => if s.activity.Spawning? then s.(activity := Idle) else s
  }

  /** The state after a sequence of labels, from any state. */
  ghost function After(s: System, labels: seq<Label>): System {
    if labels == [] then s else Step(After(s, labels[..|labels| - 1]), labels[|labels| - 1])
  }

  ghost function Run(labels: seq<Label>): System {
    After(START, labels)
  }
}
