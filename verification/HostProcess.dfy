/**
 * inspect_procfs (src/broker/host_process_observer.py) against a process table that
 * keeps changing between its reads. Assumption: within a boot, every process started
 * in a PID slot has a later birth tick than all earlier ones in that slot.
 */
module HostProcess {
  import opened Wrappers
  import opened Names
  import opened BrokerJournal

  datatype Process = Process(birth: int, cgroup: string, dead: bool)

  /** `latest` remembers the last birth in each slot of this boot, `boots` every boot id so far. */
  datatype Kernel = Kernel(boot: Name, slots: map<int, Process>, latest: map<int, int>, boots: set<Name>)

  datatype Change =
    | Start(pid: int, birth: int, cgroup: string)
    | Move(pid: int, cgroup: string)
    | Exit(pid: int)   // the slot now shows a zombie
    | Reap(pid: int)
    | Reboot(boot: Name)

  function Apply(k: Kernel, c: Change): Kernel {
    match c
    case Start(pid, birth, cgroup) =>
      if pid in k.slots || (pid in k.latest && birth <= k.latest[pid]) then k
      else k.(slots := k.slots[pid := Process(birth, cgroup, false)], latest := k.latest[pid := birth])
    case Move(pid, cgroup) => if pid in k.slots then k.(slots := k.slots[pid := k.slots[pid].(cgroup := cgroup)]) else k
    case Exit(pid) => if pid in k.slots then k.(slots := k.slots[pid := k.slots[pid].(dead := true)]) else k
    case Reap(pid) => k.(slots := k.slots - {pid})
    case Reboot(boot) => if boot in k.boots then k else Kernel(boot, map[], map[], k.boots + {boot})
  }

  function At(first: Name, changes: seq<Change>, t: nat): Kernel
    requires t <= |changes|
  {
    if t == 0 then Kernel(first, map[], map[], {first}) else Apply(At(first, changes, t - 1), changes[t - 1])
  }

  // ---------------------------------------------------------------- how a process table can change

  ghost predicate Orderly(k: Kernel) {
    k.boot in k.boots && forall p | p in k.slots :: p in k.latest && k.latest[p] == k.slots[p].birth
  }

  /** The relation between an earlier and a later state. */
  ghost predicate Since(k: Kernel, m: Kernel) {
    && k.boots <= m.boots
    && (m.boot == k.boot || m.boot !in k.boots)
    && (m.boot == k.boot ==>
          && (forall p | p in k.latest :: p in m.latest && k.latest[p] <= m.latest[p])
          && (forall p | p in k.latest && p !in k.slots && p in m.slots :: k.latest[p] < m.slots[p].birth)
          && (forall p | p in k.slots && p in m.slots && k.slots[p].birth == m.slots[p].birth :: k.slots[p].dead ==> m.slots[p].dead))
  }

  lemma ApplySince(k: Kernel, c: Change)
    requires Orderly(k)
    ensures Orderly(Apply(k, c)) && Since(k, Apply(k, c))
  {
  }

  lemma SinceIsTransitive(k: Kernel, m: Kernel, n: Kernel)
    requires Orderly(k) && Orderly(m) && Orderly(n) && Since(k, m) && Since(m, n)
    ensures Since(k, n)
  {
    if n.boot == k.boot {
      assert m.boot == k.boot;
      forall p | p in k.slots && p in n.slots && k.slots[p].birth == n.slots[p].birth && k.slots[p].dead ensures n.slots[p].dead {
        assert m.latest[p] == k.latest[p] && p in m.slots;
      }
    }
  }

  lemma {:induction false} TimePasses(first: Name, changes: seq<Change>, t: nat, u: nat)
    requires t <= u <= |changes|
    ensures Orderly(At(first, changes, t)) && Orderly(At(first, changes, u)) && Since(At(first, changes, t), At(first, changes, u))
    decreases u
  {
    if u > 0 {
      if t == u {
        TimePasses(first, changes, u - 1, u - 1);
        ApplySince(At(first, changes, u - 1), changes[u - 1]);
      } else {
        TimePasses(first, changes, t, u - 1);
        ApplySince(At(first, changes, u - 1), changes[u - 1]);
        SinceIsTransitive(At(first, changes, t), At(first, changes, u - 1), At(first, changes, u));
      }
    }
  }

  /** A process seen at two instants of a boot was there, alive if it still is, at every instant between. */
  lemma Throughout(k: Kernel, m: Kernel, n: Kernel, p: int)
    requires Orderly(k) && Orderly(m) && Orderly(n) && Since(k, m) && Since(m, n) && k.boot == n.boot
    requires p in k.slots && p in n.slots && k.slots[p].birth == n.slots[p].birth && !n.slots[p].dead
    ensures m.boot == k.boot && p in m.slots && m.slots[p].birth == k.slots[p].birth && !m.slots[p].dead
  {
  }

  // ---------------------------------------------------------------- the observation

  datatype Verdict = Present | Absent | Unknown(reason: Reason)
  datatype Reason = BootMismatch | ChangedOrMoved | HostUnobservable

  /** The instants of the six reads, and which of them fail for reasons of their own. */
  datatype Reads = Reads(first: Name, changes: seq<Change>, times: seq<nat>, broken: set<nat>)

  ghost predicate Ordered(r: Reads) {
    |r.times| == 6 && (forall i | 0 <= i < 6 :: r.times[i] <= |r.changes|) && forall i, j | 0 <= i <= j < 6 :: r.times[i] <= r.times[j]
  }

  function Seen(r: Reads, i: nat): Kernel
    requires Ordered(r) && i < 6
  {
    At(r.first, r.changes, r.times[i])
  }

  /** A read of /proc/PID/stat: nothing there, the birth tick of a live process, or an error. */
  datatype Stat = Missing | Birth(ticks: int) | StatError

  function ReadStat(r: Reads, i: nat, pid: int): Stat
    requires Ordered(r) && i < 6
  {
    if i in r.broken then StatError
    else if pid !in Seen(r, i).slots then Missing
    else if Seen(r, i).slots[pid].dead then StatError
    else Birth(Seen(r, i).slots[pid].birth)
  }

  /** A read of /proc/PID/cgroup; None is any error. */
  function ReadCgroup(r: Reads, i: nat, pid: int): Option<string>
    requires Ordered(r) && i < 6
  {
    if i in r.broken || pid !in Seen(r, i).slots then None else Some(Seen(r, i).slots[pid].cgroup)
  }

  function Gone(r: Reads): Verdict
    requires Ordered(r)
  {
    if 2 in r.broken then Unknown(HostUnobservable)
    else if Seen(r, 2).boot == Seen(r, 0).boot then Absent
    else Unknown(BootMismatch)
  }

  function Inspect(r: Reads, w: Identity): Verdict
    requires Ordered(r)
  {
    if 0 in r.broken then Unknown(HostUnobservable)
    else
      var before := Seen(r, 0).boot;
      if !IsBootId(before) || before != w.boot then Unknown(BootMismatch)
      else
        var initial := ReadStat(r, 1, w.pid);
        if initial.StatError? then Unknown(HostUnobservable)
        else if initial != Birth(w.birth) then Gone(r)
        else
          var cgroup, final, finalCgroup := ReadCgroup(r, 2, w.pid), ReadStat(r, 3, w.pid), ReadCgroup(r, 4, w.pid);
          if cgroup.None? || !final.Birth? || finalCgroup.None? || 5 in r.broken then Unknown(HostUnobservable)
          else if before != Seen(r, 5).boot || final != initial || cgroup != finalCgroup || cgroup.value != w.cgroup
          then Unknown(ChangedOrMoved)
          else Present
  }

  // ---------------------------------------------------------------- linearisation

  lemma SeenSince(r: Reads, i: nat, j: nat)
    requires Ordered(r) && i <= j < 6
    ensures Orderly(Seen(r, i)) && Orderly(Seen(r, j)) && Since(Seen(r, i), Seen(r, j))
  {
    TimePasses(r.first, r.changes, r.times[i], r.times[j]);
  }

  /** `present` names one instant of the call when the witnessed process was alive, in that boot and cgroup. */
  lemma {:induction false} PresentHappened(r: Reads, w: Identity)
    requires Ordered(r) && Inspect(r, w) == Present
    ensures var k := Seen(r, 2); k.boot == w.boot && w.pid in k.slots && k.slots[w.pid] == Process(w.birth, w.cgroup, false)
    ensures var m := Seen(r, 4); m.boot == w.boot && w.pid in m.slots && m.slots[w.pid].cgroup == w.cgroup
  {
    SeenSince(r, 0, 1);
    SeenSince(r, 1, 2);
    SeenSince(r, 2, 3);
    SeenSince(r, 3, 4);
    SeenSince(r, 4, 5);
    hide IsBootId;
    SameBoots(r, w);
    Throughout(Seen(r, 1), Seen(r, 2), Seen(r, 3), w.pid);
  }

  /** A boot that holds at both ends held throughout. */
  lemma {:induction false} SameBoots(r: Reads, w: Identity)
    requires Ordered(r) && Seen(r, 0).boot == w.boot && Seen(r, 5).boot == w.boot
    ensures forall i: nat | i < 6 :: Seen(r, i).boot == w.boot
  {
    forall i: nat | i < 6 ensures Seen(r, i).boot == w.boot {
      SeenSince(r, 0, i);
      SeenSince(r, i, 5);
    }
  }

  /** `absent` names one instant of the call, in the witness's boot, at which that process was not running. */
  lemma {:induction false} AbsentHappened(r: Reads, w: Identity)
    requires Ordered(r) && Inspect(r, w) == Absent
    ensures var k := Seen(r, 1); k.boot == w.boot && (w.pid !in k.slots || k.slots[w.pid].birth != w.birth)
  {
    SeenSince(r, 0, 1);
    SeenSince(r, 1, 2);
  }

  /** While nothing changes and every read works, the verdict is the truth about the witness. */
  lemma {:induction false} QuietObservationDecides(r: Reads, w: Identity)
    requires Ordered(r) && r.broken == {} && IsBootId(w.boot) && r.times[0] == r.times[5]
    ensures var k := Seen(r, 0);
      && (Inspect(r, w) == Present <==> k.boot == w.boot && w.pid in k.slots && k.slots[w.pid] == Process(w.birth, w.cgroup, false))
      && (Inspect(r, w) == Absent <==>
            k.boot == w.boot && (w.pid !in k.slots || (!k.slots[w.pid].dead && k.slots[w.pid].birth != w.birth)))
  {
    hide IsBootId;
    assert forall i: nat | i < 6 :: r.times[0] <= r.times[i] <= r.times[5];
    assert forall i: nat | i < 6 :: Seen(r, i) == Seen(r, 0);
  }

  /** One timeline observed by two calls, the second after the first. */
  ghost predicate Then(a: Reads, b: Reads) {
    Ordered(a) && Ordered(b) && a.first == b.first && a.changes == b.changes && a.times[5] <= b.times[0]
  }

  /** `absent` before `present` means exactly that the process was born after the first look at its slot. */
  lemma {:induction false} AbsentThenPresentMeansBornBetween(a: Reads, b: Reads, w: Identity)
    requires Then(a, b) && Inspect(a, w) == Absent && Inspect(b, w) == Present
    ensures var k := Seen(a, 1); k.boot == w.boot && (w.pid in k.latest ==> k.latest[w.pid] < w.birth)
  {
    AbsentHappened(a, w);
    PresentHappened(b, w);
    TimePasses(a.first, a.changes, a.times[1], b.times[2]);
  }

  /** Hence after a confirmed binding, once absent is absent for good. */
  lemma {:induction false} CapturedProcessNeverReturns(capture: Reads, absent: Reads, later: Reads, w: Identity)
    requires Then(capture, absent) && Then(absent, later)
    requires Inspect(capture, w) == Present && Inspect(absent, w) == Absent
    ensures Inspect(later, w) != Present
  {
    if Inspect(later, w) == Present {
      PresentHappened(capture, w);
      AbsentHappened(absent, w);
      PresentHappened(later, w);
      TimePasses(capture.first, capture.changes, capture.times[2], absent.times[1]);
      TimePasses(capture.first, capture.changes, absent.times[1], later.times[2]);
    }
  }

  /** Without the capture it may come back: an absent slot and then the process itself. */
  lemma {:induction false} UncapturedProcessMayAppear(w: Identity)
    requires IsBootId(w.boot)
    ensures var changes := [Start(w.pid, w.birth, w.cgroup)];
      var a, b := Reads(w.boot, changes, [0, 0, 0, 0, 0, 0], {}), Reads(w.boot, changes, [1, 1, 1, 1, 1, 1], {});
      Then(a, b) && Inspect(a, w) == Absent && Inspect(b, w) == Present
  {
    hide IsBootId;
    var changes := [Start(w.pid, w.birth, w.cgroup)];
    var a, b := Reads(w.boot, changes, [0, 0, 0, 0, 0, 0], {}), Reads(w.boot, changes, [1, 1, 1, 1, 1, 1], {});
    assert Ordered(a) && Ordered(b);
    assert At(w.boot, changes, 0) == Kernel(w.boot, map[], map[], {w.boot});
    assert At(w.boot, changes, 1).slots == map[w.pid := Process(w.birth, w.cgroup, false)];
  }
}
