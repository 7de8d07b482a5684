/** Wire payloads as the relay delivers them (packages/gpulink-sdk/src/data-plane.ts). */
module Payloads {

  const RELAY_READY := "gpulink.relay.ready.v2"
  const MAX_FRAME_BYTES: nat := 1_048_576
  const MAX_BUFFERED_BYTES: nat := 4_194_304

  type Octet = x: int | 0 <= x < 256

  /** A message event's data. Foreign stands for anything but a string or an ArrayBuffer. */
  datatype Payload = Text(chars: string) | Binary(octets: seq<Octet>) | Foreign

  predicate IsReady(p: Payload) {
    p.Text? && p.chars == RELAY_READY
  }

  /** Frames an application may see: text or binary, and never the relay control frame. */
  predicate IsFrame(p: Payload) {
    !p.Foreign? && !IsReady(p)
  }

  function EncodedLength(chars: string): nat {
    if chars == [] then 0 else
      var c := chars[0] as int;
      (if c < 0x80 then 1 else if c < 0x800 then 2 else if c < 0x1_0000 then 3 else 4) + EncodedLength(chars[1..])
  }

  /** UTF-8 length of a text frame, byte length of a binary one. */
  function ByteLength(p: Payload): nat {
    match p
    case Text(chars) => EncodedLength(chars)
    case Binary(octets) => |octets|
    case Foreign => 0
  }

  function TotalLength(ps: seq<Payload>): nat {
    if ps == [] then 0 else TotalLength(ps[..|ps| - 1]) + ByteLength(ps[|ps| - 1])
  }
}

/** JavaScript sets kept as duplicate-free sequences in insertion order. */
module OrderedSets {
  import opened Sequences

  function Insert<T(==)>(s: seq<T>, x: T): seq<T> {
    if x in s then s else s + [x]
  }

  function Delete<T(==)>(s: seq<T>, x: T): seq<T> {
    if s == [] then []
    else if s[0] == x then Delete(s[1..], x)
    else [s[0]] + Delete(s[1..], x)
  }

  lemma InsertAdds<T(!new)>(s: seq<T>, x: T)
    ensures forall y :: y in Insert(s, x) <==> y in s || y == x
    ensures Distinct(s) ==> Distinct(Insert(s, x))
  {
  }

  lemma {:induction false} DeleteRemoves<T(!new)>(s: seq<T>, x: T)
    ensures forall y :: y in Delete(s, x) <==> y in s && y != x
    ensures Distinct(s) ==> Distinct(Delete(s, x))
  {
    if s != [] {
      DeleteRemoves(s[1..], x);
      assert forall y :: y in s <==> y == s[0] || y in s[1..];
      assert Distinct(s) ==> s[0] !in s[1..];
    }
  }
}

/**
 * The session object of packages/gpulink-sdk/src/session.ts, on values: what each
 * stretch of code that runs without calling back into the application does to the
 * private fields, and which microtasks it queues.
 */
module SessionCore {
  import opened Payloads
  import opened OrderedSets

  type Listener = nat

  const MAX_PENDING_FRAMES: nat := 256
  const MAX_ERRORS: nat := 16

  datatype ErrorCode = EarlyBufferOverflow | MessageListenerError | CloseListenerError | RemoteReleaseFailed

  /** Callbacks handed to the microtask queue by the client's own code or by the application. */
  datatype Microtask =
    | ConstructPlane
    | ConstructSession
    | ReplayEarly
    | FlushPending
    | CallRelease
    | ReleaseDone(ok: bool)
    | AppJob

  datatype Session = Session(
    listeners: seq<Listener>,
    errorListeners: seq<Listener>,
    errors: seq<ErrorCode>,
    pending: seq<Payload>,
    pendingBytes: nat,
    flushQueued: bool,
    draining: bool,
    closing: bool,
    closePromise: bool)

  const FRESH := Session([], [], [], [], 0, false, false, false, false)

  /** What the session's own message listener decides to do with a frame. */
  datatype Verdict = Ignore | DeliverNow | Overflow | Buffer

  function Triage(s: Session, m: Payload): Verdict {
    if s.closing then Ignore
    else if s.listeners != [] && !s.flushQueued && !s.draining && s.pending == [] then DeliverNow
    else if |s.pending| >= MAX_PENDING_FRAMES || s.pendingBytes + ByteLength(m) > MAX_BUFFERED_BYTES then Overflow
    else Buffer
  }

  predicate MustFlush(s: Session) {
    s.listeners != [] && s.pending != [] && !s.flushQueued
  }

  function ScheduleFlush(s: Session): (Session, seq<Microtask>) {
    if MustFlush(s) then (s.(flushQueued := true), [FlushPending]) else (s, [])
  }

  function Enqueue(s: Session, m: Payload): (Session, seq<Microtask>) {
    ScheduleFlush(s.(pending := s.pending + [m], pendingBytes := s.pendingBytes + ByteLength(m)))
  }

  function Subscribe(s: Session, l: Listener): (Session, seq<Microtask>) {
    if s.closing then (s, []) else ScheduleFlush(s.(listeners := Insert(s.listeners, l)))
  }

  function Unsubscribe(s: Session, l: Listener): Session {
    s.(listeners := Delete(s.listeners, l))
  }

  /** The queued flush callback up to its loop; None when it has nothing to do. */
  function BeginFlush(s: Session): (Session, seq<Payload>) {
    var woken := s.(flushQueued := false);
    if woken.listeners == [] || woken.closing then (woken, [])
    else (woken.(pending := [], pendingBytes := 0, draining := true), woken.pending)
  }

  function EndFlush(s: Session): (Session, seq<Microtask>) {
    ScheduleFlush(s.(draining := false))
  }

  /** The last sixteen entries of a list of reports. */
  function LastErrors(es: seq<ErrorCode>): seq<ErrorCode> {
    if |es| > MAX_ERRORS then es[|es| - MAX_ERRORS..] else es
  }

  function Record(s: Session, e: ErrorCode): Session {
    var longer := s.errors + [e];
    s.(errors := if |longer| > MAX_ERRORS then longer[1..] else longer)
  }

  function Close(s: Session): (Session, seq<Microtask>) {
    (s.(closing := true, pending := [], pendingBytes := 0, closePromise := true),
     if s.closePromise then [] else [CallRelease])
  }

  function ReleaseFailed(s: Session): Session {
    s.(closePromise := false)
  }
}
