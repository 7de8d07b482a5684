/**
 * The broker's durable tables and the checks on their rows: remote_claims,
 * host_identity_bindings and synthetic_probe_events, with their keys, CHECKs and UNIQUEs.
 */
module BrokerJournal {
  import opened Wrappers
  import opened Names

  type Id = Name

  const MAX_SAFE_INTEGER := 9_007_199_254_740_991
  const MAX_PID := 4_194_304
  const MAX_CGROUP: nat := 1024

  predicate IsAlphanumeric(c: char) {
    'a' <= c <= 'z' || 'A' <= c <= 'Z' || '0' <= c <= '9'
  }

  predicate IsId(n: Name) {
    var s := n.text;
    1 <= |s| <= 128 && IsAlphanumeric(s[0]) &&
    forall i | 1 <= i < |s| :: IsAlphanumeric(s[i]) || s[i] in {'.', '_', ':', '-'}
  }

  predicate Positive(n: int) {
    0 < n <= MAX_SAFE_INTEGER
  }

  predicate IsLowerHex(c: char) {
    '0' <= c <= '9' || 'a' <= c <= 'f'
  }

  predicate IsBootId(n: Name) {
    var s := n.text;
    |s| == 36 && forall i | 0 <= i < 36 :: if i in {8, 13, 18, 23} then s[i] == '-' else IsLowerHex(s[i])
  }

  /** A process as procfs identifies it. */
  datatype Identity = Identity(boot: Name, pid: int, birth: int, cgroup: string)

  function Key(i: Identity): (Name, int, int) {
    (i.boot, i.pid, i.birth)
  }

  /** What a successful procfs reading of a live process guarantees by itself. */
  predicate IsReading(i: Identity) {
    IsBootId(i.boot) && i.cgroup != [] && i.cgroup[0] == '/' && '\n' !in i.cgroup
  }

  /** The bounds that the row validators add to it. */
  predicate InBounds(i: Identity) {
    1 <= i.pid <= MAX_PID && Positive(i.birth) && |i.cgroup| <= MAX_CGROUP && '\0' !in i.cgroup
  }

  datatype SubjectKind = JobSubject | SessionSubject
  datatype Status = Pending | Reserved | Quarantined

  datatype Claim = Claim(kind: SubjectKind, subject: Id, lease: Id, worker: Id, status: Status, epoch: Option<int>)
  datatype Binding = Binding(lease: Id, worker: Id, epoch: int, identity: Identity)

  /** Row 1 of an attempt is its durable intent, without identity; row 2 the observed child. */
  datatype Event = Event(lease: Id, worker: Id, epoch: int, identity: Option<Identity>)

  datatype Journal = Journal(
    claims: map<Id, Claim>,
    bindings: map<Id, Binding>,
    events: map<(Id, int), Event>)

  /** UNIQUE(boot_id, pid, start_ticks) of the binding table. */
  predicate KeyFreeInBindings(bindings: map<Id, Binding>, i: Identity) {
    forall a | a in bindings :: Key(bindings[a].identity) != Key(i)
  }

  /** UNIQUE(boot_id, pid, start_ticks) of the event table: rows with NULLs never collide. */
  predicate KeyFreeInEvents(events: map<(Id, int), Event>, i: Identity) {
    forall k | k in events && events[k].identity.Some? :: Key(events[k].identity.value) != Key(i)
  }

  // ---------------------------------------------------------------- start-up validation

  predicate BindingRowOk(attempt: Id, row: Binding) {
    IsId(attempt) && IsId(row.lease) && IsId(row.worker) && Positive(row.epoch) && IsReading(row.identity) && InBounds(row.identity)
  }

  predicate EventRowOk(attempt: Id, sequence: int, row: Event) {
    && IsId(attempt) && IsId(row.lease) && IsId(row.worker) && Positive(row.epoch) && sequence in {1, 2}
    && if sequence == 1 then row.identity.None?
       else row.identity.Some? && IsReading(row.identity.value) && InBounds(row.identity.value)
  }

  predicate Matches(claims: map<Id, Claim>, attempt: Id, lease: Id, worker: Id, epoch: int) {
    attempt in claims && claims[attempt].lease == lease && claims[attempt].worker == worker && claims[attempt].epoch == Some(epoch)
  }

  ghost predicate BindingsAccepted(j: Journal) {
    forall a | a in j.bindings :: BindingRowOk(a, j.bindings[a]) &&
      Matches(j.claims, a, j.bindings[a].lease, j.bindings[a].worker, j.bindings[a].epoch)
  }

  ghost predicate EventsAccepted(j: Journal) {
    && (forall k | k in j.events :: EventRowOk(k.0, k.1, j.events[k]))
    && (forall k | k in j.events :: (k.0, 1) in j.events)
    && (forall k | k in j.events && k.1 == 1 :: Matches(j.claims, k.0, j.events[k].lease, j.events[k].worker, j.events[k].epoch))
    && (forall k | k in j.events && k.1 == 2 && (k.0, 1) in j.events :: SameOrigin(j.events[(k.0, 1)], j.events[k]))
  }

  predicate SameOrigin(a: Event, b: Event) {
    a.lease == b.lease && a.worker == b.worker && a.epoch == b.epoch
  }

  function QuarantineRow(c: Claim): Claim {
    if c.status.Quarantined? then c else c.(status := Quarantined)
  }

  /** The restart update of remote_claims. */
  function QuarantineAll(claims: map<Id, Claim>): map<Id, Claim> {
    map a | a in claims :: QuarantineRow(claims[a])
  }
}
