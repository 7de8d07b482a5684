/** The broker's fixture-backed attempt ledger (src/broker/broker_state.py). */
module BrokerLedger {
  import opened Wrappers
  import opened Names
  import opened BrokerJournal

  // ---------------------------------------------------------------- intents and the fixture

  /** `versioned` says whether the version has the semantic form. */
  datatype Artifact = Artifact(adapter: Id, version: string, versioned: bool, sha256: string)

  datatype Intent = Intent(
    attempt: Id, session: Id, lease: Id, generation: int, runtime: Id, reservation: Id, artifact: Artifact, ipcVersion: int)

  datatype Principal = Principal(uid: int, worker: Id, runtimes: seq<Id>)
  datatype Lease = Lease(session: Id, lease: Id, generation: int, worker: Id, active: bool, expires: int)
  datatype Reservation = Reservation(reservation: Id, attempt: Id, lease: Id, held: bool, expires: int, devices: seq<Id>)
  datatype Approval = Approval(artifact: Artifact, runtime: Id, trusted: bool, digest: string, profile: Id, controls: seq<string>)
  datatype Runtime = Runtime(runtime: Id, available: bool, versions: seq<int>, controls: seq<string>)

  const CONTROLS := {"process", "filesystem", "network", "identity", "resource-limits", "gpu-device"}

  /** Operator-supplied authority. */
  datatype Fixture = Fixture(
    principals: seq<Principal>, leases: seq<Lease>, reservations: seq<Reservation>, approvals: seq<Approval>,
    runtimes: seq<Runtime>)

  predicate IsHex64(s: string) {
    |s| == 64 && forall c | c in s :: IsLowerHex(c)
  }

  predicate IsDigest(s: string) {
    |s| == 71 && s[..7] == "sha256:" && IsHex64(s[7..])
  }

  predicate ArtifactOk(a: Artifact) {
    IsId(a.adapter) && a.versioned && IsHex64(a.sha256)
  }

  /** parse_intent, on a document of the right shape and types. */
  predicate IntentOk(i: Intent) {
    && IsId(i.attempt) && IsId(i.session) && IsId(i.lease) && IsId(i.runtime) && IsId(i.reservation)
    && Positive(i.generation) && 0 < i.ipcVersion <= 255 && ArtifactOk(i.artifact)
  }

  function Filter<T>(xs: seq<T>, p: T -> bool): seq<T> {
    if xs == [] then [] else (if p(xs[0]) then [xs[0]] else []) + Filter(xs[1..], p)
  }

  /** The one record that satisfies p, if it is the only one. */
  function Only<T>(xs: seq<T>, p: T -> bool): Option<T> {
    var found := Filter(xs, p);
    if |found| == 1 then Some(found[0]) else None
  }

  lemma {:induction false} Filtered<T>(xs: seq<T>, p: T -> bool)
    ensures forall x | x in Filter(xs, p) :: p(x) && x in xs
    ensures forall i | 0 <= i < |xs| && p(xs[i]) :: xs[i] in Filter(xs, p)
  {
    if xs != [] {
      Filtered(xs[1..], p);
      forall i | 0 <= i < |xs| && p(xs[i]) ensures xs[i] in Filter(xs, p) {
        if i > 0 { assert xs[1..][i - 1] == xs[i]; }
      }
    }
  }

  lemma OnlyIsUnique<T>(xs: seq<T>, p: T -> bool)
    requires Only(xs, p).Some?
    ensures p(Only(xs, p).value) && Only(xs, p).value in xs
    ensures forall x | x in xs && p(x) :: x == Only(xs, p).value
  {
    Filtered(xs, p);
    forall x | x in xs && p(x) ensures x == Only(xs, p).value {
      var i :| 0 <= i < |xs| && xs[i] == x;
      assert x in Filter(xs, p);
    }
  }

  datatype Denial =
    | InvalidIntent | UnauthorizedPeer | MissingAuthority | StaleLease | ReservationMismatch
    | ArtifactNotApproved | RuntimeNotVerified | AttemptReplay

  function PrincipalOf(f: Fixture, uid: int): Option<Principal> {
    Only(f.principals, (p: Principal) => p.uid == uid)
  }

  function LeaseOf(f: Fixture, session: Id): Option<Lease> {
    Only(f.leases, (l: Lease) => l.session == session)
  }

  function ReservationOf(f: Fixture, reservation: Id): Option<Reservation> {
    Only(f.reservations, (r: Reservation) => r.reservation == reservation)
  }

  function ApprovalOf(f: Fixture, adapter: Id): Option<Approval> {
    Only(f.approvals, (a: Approval) => a.artifact.adapter == adapter)
  }

  function RuntimeOf(f: Fixture, runtime: Id): Option<Runtime> {
    Only(f.runtimes, (r: Runtime) => r.runtime == runtime)
  }

  predicate LeaseCovers(l: Lease, i: Intent, p: Principal, now: int) {
    l.lease == i.lease && l.generation == i.generation && l.worker == p.worker && l.active && l.expires > now
  }

  predicate ReservationCovers(r: Reservation, i: Intent, now: int) {
    && r.attempt == i.attempt && r.lease == i.lease && r.held && r.expires > now
    && 0 < |r.devices| <= 8 && (forall d | d in r.devices :: IsId(d)) && (forall i, j | 0 <= i < j < |r.devices| :: r.devices[i] != r.devices[j])
  }

  predicate ApprovalCovers(a: Approval, i: Intent) {
    && a.artifact == i.artifact && a.runtime == i.runtime && a.trusted && IsDigest(a.digest) && IsId(a.profile)
    && (set c | c in a.controls) == CONTROLS && |a.controls| == |CONTROLS|
  }

  predicate RuntimeCovers(r: Runtime, i: Intent) {
    r.available && i.ipcVersion in r.versions && CONTROLS <= set c | c in r.controls
  }

  /** _check_authority: the first check that fails. */
  function CheckAuthority(f: Fixture, i: Intent, p: Principal, now: int): Option<Denial> {
    if i.runtime !in p.runtimes then Some(UnauthorizedPeer)
    else if LeaseOf(f, i.session).None? then Some(MissingAuthority)
    else if !LeaseCovers(LeaseOf(f, i.session).value, i, p, now) then Some(StaleLease)
    else if ReservationOf(f, i.reservation).None? then Some(MissingAuthority)
    else if !ReservationCovers(ReservationOf(f, i.reservation).value, i, now) then Some(ReservationMismatch)
    else if ApprovalOf(f, i.artifact.adapter).None? then Some(MissingAuthority)
    else if !ApprovalCovers(ApprovalOf(f, i.artifact.adapter).value, i) then Some(ArtifactNotApproved)
    else if RuntimeOf(f, i.runtime).None? then Some(MissingAuthority)
    else if !RuntimeCovers(RuntimeOf(f, i.runtime).value, i) then Some(RuntimeNotVerified)
    else None
  }

  /** The caller is the only principal with its uid, and the fixture vouches for the intent. */
  predicate Vouched(f: Fixture, uid: int, i: Intent, now: int) {
    IntentOk(i) && PrincipalOf(f, uid).Some? && CheckAuthority(f, i, PrincipalOf(f, uid).value, now).None?
  }

  // ---------------------------------------------------------------- the table

  datatype AttemptState = Held | Cancelled | Stale

  /** A row of `attempts`; Stale stands for the state 'quarantined'. */
  datatype Attempt = Attempt(session: Id, lease: Id, generation: int, reservation: Id, worker: Id, state: AttemptState)

  type Table = map<Id, Attempt>

  predicate ReservationFree(t: Table, reservation: Id) {
    forall a | a in t :: t[a].reservation != reservation
  }

  /** INSERT under PRIMARY KEY(attempt_id) and UNIQUE(reservation_id); None is an IntegrityError. */
  function Insert(t: Table, attempt: Id, row: Attempt): Option<Table> {
    if attempt in t || !ReservationFree(t, row.reservation) then None else Some(t[attempt := row])
  }

  function RowFor(i: Intent, worker: Id): Attempt {
    Attempt(i.session, i.lease, i.generation, i.reservation, worker, Held)
  }

  /** Rows that the caller's worker owns. */
  predicate Owns(t: Table, attempt: Id, worker: Id) {
    attempt in t && t[attempt].worker == worker
  }

  function CancelRow(t: Table, attempt: Id, worker: Id): Table {
    if Owns(t, attempt, worker) && t[attempt].state.Held? then t[attempt := t[attempt].(state := Cancelled)] else t
  }

  function Restarted(t: Table): Table {
    map a | a in t :: if t[a].state.Held? then t[a].(state := Stale) else t[a]
  }

  class Ledger {
    const fixture: Fixture
    var attempts: Table

    /** Opening the ledger quarantines whatever an earlier process had reserved. */
    constructor (stored: Table, f: Fixture)
      ensures attempts == Restarted(stored) && fixture == f
    {
      fixture := f;
      attempts := map a | a in stored :: if stored[a].state.Held? then stored[a].(state := Stale) else stored[a];
    }

    /** claim: one row per attempt and per reservation, ever, and only for what the fixture vouches for. */
    method Claim(uid: int, i: Intent, now: int) returns (denial: Option<Denial>)
      modifies this
      ensures denial.None? <==> Vouched(fixture, uid, i, now) && i.attempt !in old(attempts) && ReservationFree(old(attempts), i.reservation)
      ensures denial == Some(AttemptReplay) <==>
        Vouched(fixture, uid, i, now) && (i.attempt in old(attempts) || !ReservationFree(old(attempts), i.reservation))
      ensures attempts ==
        if denial.None? then old(attempts)[i.attempt := RowFor(i, PrincipalOf(fixture, uid).value.worker)] else old(attempts)
    {
      if !IntentOk(i) { return Some(InvalidIntent); }
      var principal := PrincipalOf(fixture, uid);
      if principal.None? { return Some(UnauthorizedPeer); }
      denial := CheckAuthority(fixture, i, principal.value, now);
      if denial.Some? { return; }
      match Insert(attempts, i.attempt, RowFor(i, principal.value.worker))
      case None => denial := Some(AttemptReplay);
      case Some(t) => attempts := t;
    }

    /** cancel: idempotent, reports the row's final state, and denies other workers' attempts. */
    method Cancel(attempt: Id, worker: Id) returns (state: Option<AttemptState>)
      modifies this
      ensures attempts == CancelRow(old(attempts), attempt, worker)
      ensures state == if Owns(attempts, attempt, worker) then Some(attempts[attempt].state) else None
      ensures state.Some? ==> !state.value.Held?
    {
      if !Owns(attempts, attempt, worker) { return None; }
      if attempts[attempt].state.Held? {
        attempts := attempts[attempt := attempts[attempt].(state := Cancelled)];
      }
      state := Some(attempts[attempt].state);
    }

    method Inspect(attempt: Id, worker: Id) returns (state: Option<AttemptState>)
      ensures state == if Owns(attempts, attempt, worker) then Some(attempts[attempt].state) else None
    {
      state := if Owns(attempts, attempt, worker) then Some(attempts[attempt].state) else None;
    }
  }

  // ---------------------------------------------------------------- every run

  /** A restart may come with another fixture. */
  datatype Event =
    | ClaimEvent(uid: int, intent: Intent, now: int)
    | CancelEvent(attempt: Id, worker: Id)
    | RestartEvent(fixture: Fixture)

  /** The ledger together with the claims it ever accepted, in order. */
  datatype Run = Run(fixture: Fixture, table: Table, accepted: seq<(Id, Id)>)

  function Next(r: Run, e: Event): Run {
    match e
    case ClaimEvent(uid, i, now) =>
      if !Vouched(r.fixture, uid, i, now) then r
      else
        (match Insert(r.table, i.attempt, RowFor(i, PrincipalOf(r.fixture, uid).value.worker))
         case None => r
         case Some(t) => r.(table := t, accepted := r.accepted + [(i.attempt, i.reservation)]))
    case CancelEvent(a, w) => r.(table := CancelRow(r.table, a, w))
    case RestartEvent(f) => r.(fixture := f, table := Restarted(r.table))
  }

  function History(f: Fixture, events: seq<Event>): Run {
    if events == [] then Run(f, map[], []) else Next(History(f, events[..|events| - 1]), events[|events| - 1])
  }

  ghost predicate Consistent(r: Run) {
    && (forall i | 0 <= i < |r.accepted| :: r.accepted[i].0 in r.table && r.table[r.accepted[i].0].reservation == r.accepted[i].1)
    && (forall i, j | 0 <= i < j < |r.accepted| :: r.accepted[i].0 != r.accepted[j].0 && r.accepted[i].1 != r.accepted[j].1)
    && (forall a, b | a in r.table && b in r.table && r.table[a].reservation == r.table[b].reservation :: a == b)
  }

  /** Rows stay, keep everything but their state, and leave a final state never again. */
  ghost predicate Settles(t: Table, u: Table) {
    forall a | a in t :: a in u && u[a].(state := t[a].state) == t[a] && (!t[a].state.Held? ==> u[a].state == t[a].state)
  }

  lemma CancelConsistent(r: Run, a: Id, w: Id)
    requires Consistent(r)
    ensures Consistent(r.(table := CancelRow(r.table, a, w))) && Settles(r.table, CancelRow(r.table, a, w))
  {
  }

  lemma RestartConsistent(r: Run, f: Fixture)
    requires Consistent(r)
    ensures Consistent(r.(fixture := f, table := Restarted(r.table))) && Settles(r.table, Restarted(r.table))
  {
  }

  lemma InsertConsistent(r: Run, a: Id, row: Attempt)
    requires Consistent(r) && a !in r.table && ReservationFree(r.table, row.reservation)
    ensures Consistent(r.(table := r.table[a := row], accepted := r.accepted + [(a, row.reservation)])) && Settles(r.table, r.table[a := row])
  {
    var n := r.(table := r.table[a := row], accepted := r.accepted + [(a, row.reservation)]);
    forall i | 0 <= i < |r.accepted| ensures n.accepted[i] == r.accepted[i] && n.accepted[i].0 != a && n.accepted[i].1 != row.reservation {
      assert r.accepted[i].0 in r.table;
    }
  }

  lemma NextConsistent(r: Run, e: Event)
    requires Consistent(r)
    ensures Consistent(Next(r, e)) && Settles(r.table, Next(r, e).table)
  {
    SettlesIsReflexive(r.table);
    assert e.ClaimEvent? && Vouched(r.fixture, e.uid, e.intent, e.now) ==> PrincipalOf(r.fixture, e.uid).Some?;
    hide Consistent, Settles, Vouched, PrincipalOf, CancelRow, Restarted, ReservationFree;
    match e
    case CancelEvent(a, w) => CancelConsistent(r, a, w);
    case RestartEvent(f) => RestartConsistent(r, f);
    case ClaimEvent(uid, i, now) =>
      if Vouched(r.fixture, uid, i, now) && i.attempt !in r.table && ReservationFree(r.table, i.reservation) {
        InsertConsistent(r, i.attempt, RowFor(i, PrincipalOf(r.fixture, uid).value.worker));
      }
  }

  lemma {:induction false} HistoryConsistent(f: Fixture, events: seq<Event>)
    ensures Consistent(History(f, events))
  {
    if events != [] {
      HistoryConsistent(f, events[..|events| - 1]);
      NextConsistent(History(f, events[..|events| - 1]), events[|events| - 1]);
    }
  }

  /** Over every history, restarts included, no attempt and no reservation is accepted twice. */
  lemma {:induction false} ClaimsAreSingleUse(f: Fixture, events: seq<Event>)
    ensures var accepted := History(f, events).accepted;
      forall i, j | 0 <= i < j < |accepted| :: accepted[i].0 != accepted[j].0 && accepted[i].1 != accepted[j].1
  {
    HistoryConsistent(f, events);
  }

  lemma SettlesIsTransitive(t: Table, u: Table, v: Table)
    requires Settles(t, u) && Settles(u, v)
    ensures Settles(t, v)
  {
  }

  lemma SettlesIsReflexive(t: Table)
    ensures Settles(t, t)
  {
  }

  lemma HistoryAppends(f: Fixture, events: seq<Event>, e: Event)
    ensures History(f, events + [e]) == Next(History(f, events), e)
  {
    hide Next;
    assert (events + [e])[..|events|] == events;
  }

  /** Cancelled and quarantined attempts stay so. */
  lemma {:induction false} FinalStatesAreFinal(f: Fixture, before: seq<Event>, after: seq<Event>)
    ensures Settles(History(f, before).table, History(f, before + after).table)
  {
    hide *;
    if after == [] {
      assert before + after == before;
      SettlesIsReflexive(History(f, before).table);
    } else {
      var n := |after| - 1;
      var middle := before + after[..n];
      assert before + after == middle + [after[n]];
      FinalStatesAreFinal(f, before, after[..n]);
      HistoryConsistent(f, middle);
      HistoryAppends(f, middle, after[n]);
      NextConsistent(History(f, middle), after[n]);
      SettlesIsTransitive(History(f, before).table, History(f, middle).table, History(f, before + after).table);
    }
  }

  // ---------------------------------------------------------------- one fixture

  predicate KeepsFixture(events: seq<Event>, f: Fixture) {
    forall e | e in events && e.RestartEvent? :: e.fixture.leases == f.leases && e.fixture.reservations == f.reservations
  }

  /** A row is what the fixture says about its session and its reservation. */
  ghost predicate Follows(t: Table, f: Fixture) {
    forall a | a in t ::
      && LeaseOf(f, t[a].session).Some? && ReservationOf(f, t[a].reservation).Some?
      && var l, r := LeaseOf(f, t[a].session).value, ReservationOf(f, t[a].reservation).value;
         (l.lease, l.generation, l.worker) == (t[a].lease, t[a].generation, t[a].worker) && (r.attempt, r.lease) == (a, t[a].lease)
  }

  lemma ClaimFollows(r: Run, uid: int, i: Intent, now: int)
    requires Follows(r.table, r.fixture)
    ensures Follows(Next(r, ClaimEvent(uid, i, now)).table, r.fixture)
  {
    hide LeaseOf, ReservationOf, ApprovalOf, RuntimeOf, PrincipalOf, IntentOk, ReservationFree, ApprovalCovers, RuntimeCovers;
  }

  lemma SameRecords(f: Fixture, g: Fixture, session: Id, reservation: Id)
    requires f.leases == g.leases && f.reservations == g.reservations
    ensures LeaseOf(f, session) == LeaseOf(g, session) && ReservationOf(f, reservation) == ReservationOf(g, reservation)
  {
  }

  lemma FollowsAlike(t: Table, f: Fixture, g: Fixture)
    requires f.leases == g.leases && f.reservations == g.reservations && Follows(t, f)
    ensures Follows(t, g)
  {
    forall a | a in t
      ensures LeaseOf(f, t[a].session) == LeaseOf(g, t[a].session) && ReservationOf(f, t[a].reservation) == ReservationOf(g, t[a].reservation)
    {
      SameRecords(f, g, t[a].session, t[a].reservation);
    }
    hide LeaseOf, ReservationOf;
  }

  lemma StateFollows(t: Table, u: Table, f: Fixture)
    requires Follows(t, f) && Settles(t, u) && u.Keys == t.Keys
    ensures Follows(u, f)
  {
    hide LeaseOf, ReservationOf;
  }

  lemma NextFollows(r: Run, e: Event, f: Fixture)
    requires Consistent(r) && Follows(r.table, f) && r.fixture.leases == f.leases && r.fixture.reservations == f.reservations
    requires e.RestartEvent? ==> e.fixture.leases == f.leases && e.fixture.reservations == f.reservations
    ensures var n := Next(r, e); Follows(n.table, f) && n.fixture.leases == f.leases && n.fixture.reservations == f.reservations
  {
    NextConsistent(r, e);
    FollowsAlike(r.table, f, r.fixture);
    if e.ClaimEvent? {
      ClaimFollows(r, e.uid, e.intent, e.now);
      FollowsAlike(Next(r, e).table, r.fixture, f);
      hide Follows, Vouched;
    } else {
      StateFollows(r.table, Next(r, e).table, f);
      hide Follows;
    }
  }

  lemma {:induction false} HistoryFollows(f: Fixture, events: seq<Event>)
    requires KeepsFixture(events, f)
    ensures var r := History(f, events); Follows(r.table, f) && r.fixture.leases == f.leases && r.fixture.reservations == f.reservations
  {
    if events != [] {
      var n := |events| - 1;
      HistoryFollows(f, events[..n]);
      HistoryConsistent(f, events[..n]);
      assert events[n] in events;
      hide Follows, Consistent;
      NextFollows(History(f, events[..n]), events[n], f);
    }
  }

  /**
   * While the operator's leases and reservations stay the same, attempts of one session
   * agree on lease, generation and worker over every history, and every row sits on the
   * reservation that names it.
   */
  lemma {:induction false} SessionsHaveOneLease(f: Fixture, events: seq<Event>, a: Id, b: Id)
    requires KeepsFixture(events, f)
    requires var t := History(f, events).table; a in t && b in t && t[a].session == t[b].session
    ensures var t := History(f, events).table;
      && (t[a].lease, t[a].generation, t[a].worker) == (t[b].lease, t[b].generation, t[b].worker)
      && exists r :: r in f.reservations && r.attempt == a && r.reservation == t[a].reservation && r.lease == t[a].lease
  {
    HistoryFollows(f, events);
    var t := History(f, events).table;
    hide History;
    OnlyIsUnique(f.reservations, (r: Reservation) => r.reservation == t[a].reservation);
    var r := ReservationOf(f, t[a].reservation).value;
    assert r in f.reservations && r.reservation == t[a].reservation;
    hide LeaseOf, ReservationOf;
  }
}
