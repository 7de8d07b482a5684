/**
 * Getting a session without leaking it: openSession and connectSession of
 * packages/gpulink-sdk/src/index.ts, and OpenSessionAsync of the .NET client.
 * What the network, the clock and the caller's abort signal do comes as a script.
 */
module Acquisition {
  import opened Wrappers
  import Frames = DotnetFrames
  import Objects = DotnetObjects

  /** Ended stands for every status not named. */
  datatype Status = Requested | Allocated | Interrupted | Connecting | Active | Ended

  /** One turn of a polling loop; a poll without a reply raised, and the socket may drop while it waits. */
  datatype Poll = Poll(aborted: bool, reply: Option<Status>, abortedInReply: bool, dropped: bool, abortedWaiting: bool, droppedWaiting: bool)

  predicate IsWaiting(s: Status) { s.Requested? || s.Allocated? || s.Interrupted? }

  predicate IsActivated(s: Status) { s.Connecting? || s.Active? }

  predicate Answers(p: Poll) { !p.aborted && p.reply.Some? && !p.abortedInReply }

  /** The worker is activated at the k-th poll; a script that ends first has met the deadline. */
  ghost predicate ActivatedAt(polls: seq<Poll>, k: nat) {
    && k < |polls| && Answers(polls[k]) && IsActivated(polls[k].reply.value)
    && forall i | 0 <= i < k :: Answers(polls[i]) && IsWaiting(polls[i].reply.value) && !polls[i].abortedWaiting
  }

  ghost predicate Activates(polls: seq<Poll>) { exists k: nat :: ActivatedAt(polls, k) }

  datatype Attempt = Attempt(
    version: int, aborted: bool, granted: bool, abortedInGrant: bool, handshake: bool, abortedInOpen: bool, droppedInOpen: bool, polls: seq<Poll>)

  /** Version 1 waits for the status active with the socket still there. */
  ghost predicate PairedAt(polls: seq<Poll>, k: nat) {
    && k < |polls| && Answers(polls[k]) && polls[k].reply.value.Active? && !polls[k].abortedWaiting
    && (forall i | 0 <= i < k :: Answers(polls[i]) && !polls[i].abortedWaiting && (polls[i].reply.value.Allocated? || polls[i].reply.value.Connecting?))
    && (forall i | 0 <= i < k :: !polls[i].dropped && !polls[i].droppedWaiting)
    && !polls[k].dropped && !polls[k].droppedWaiting
  }

  ghost predicate Connects(c: Attempt) {
    && (c.version == 1 || c.version == 2) && !c.aborted && c.granted && !c.abortedInGrant && c.handshake && !c.droppedInOpen
    && !c.abortedInOpen && (c.version == 2 || exists k: nat :: PairedAt(c.polls, k))
  }

  /** A run of openSession. */
  datatype Opening = Opening(abortedBefore: bool, id: Option<bool>, polls: seq<Poll>, attempt: Attempt, aborted: bool, dropped: bool, closeOk: bool)

  datatype Opened = Session | Rejected | SetupFailed | SetupAndCleanupFailed

  /** What one client has to answer for. */
  class Client {
    var sockets: int  // open data-plane sockets
    var closes: int   // calls of closeSession

    constructor ()
      ensures sockets == 0 && closes == 0
    {
      sockets, closes := 0, 0;
    }

    method CloseSession(ok: bool) returns (done: bool)
      modifies this`closes
      ensures closes == old(closes) + 1 && done == ok
    {
      closes := closes + 1;
      done := ok;
    }

    method ConnectSession(c: Attempt) returns (stream: DataPlane?)
      modifies this`sockets
      ensures stream != null <==> Connects(c)
      ensures stream != null ==> fresh(stream) && stream.client == this && stream.open && sockets == old(sockets) + 1
      ensures stream == null ==> sockets == old(sockets)
    {
      if c.version != 1 && c.version != 2 { return null; }
      if c.aborted || !c.granted || c.abortedInGrant || !c.handshake { return null; }
      var made := new DataPlane(this);
      if c.droppedInOpen { made.Drop(); }
      var usable := !c.abortedInOpen && made.open;
      if usable && c.version == 1 { usable := AwaitPairing(made, c.polls); }
      if !usable { made.Drop(); }
      stream := if usable then made else null;
    }

    /** The loop of version 1. */
    method AwaitPairing(made: DataPlane, polls: seq<Poll>) returns (paired: bool)
      requires made.open && made.client == this
      modifies this`sockets, made`open
      ensures paired <==> exists k: nat :: PairedAt(polls, k)
      ensures paired ==> made.open
      ensures sockets - (if made.open then 1 else 0) == old(sockets) - 1
    {
      for i := 0 to |polls|
        invariant made.open && sockets == old(sockets)
        invariant forall j | 0 <= j < i :: Answers(polls[j]) && !polls[j].abortedWaiting && (polls[j].reply.value.Allocated? || polls[j].reply.value.Connecting?)
        invariant forall j | 0 <= j < i :: !polls[j].dropped && !polls[j].droppedWaiting
      {
        var p := polls[i];
        if p.dropped { made.Drop(); }
        if !Answers(p) { return false; }
        if p.droppedWaiting { made.Drop(); }
        if p.reply.value.Active? {
          if p.abortedWaiting || !made.open { return false; }
          assert PairedAt(polls, i);
          return true;
        }
        if !p.reply.value.Allocated? && !p.reply.value.Connecting? { return false; }
        if p.abortedWaiting || !made.open { return false; }
      }
      paired := false;
    }

    /** The allocation loop of openSession. */
    method AwaitActivation(polls: seq<Poll>) returns (activated: bool)
      ensures activated <==> Activates(polls)
    {
      for i := 0 to |polls|
        invariant forall j | 0 <= j < i :: Answers(polls[j]) && IsWaiting(polls[j].reply.value) && !polls[j].abortedWaiting
      {
        var p := polls[i];
        if !Answers(p) { return false; }
        if IsActivated(p.reply.value) {
          assert ActivatedAt(polls, i);
          return true;
        }
        if !IsWaiting(p.reply.value) || p.abortedWaiting { return false; }
      }
      activated := false;
    }

    /**
     * A session comes back exactly when every step went well, and then this call has
     * released nothing. Once an ID is known every other end has sent one closeSession
     * and left no socket open.
     */
    method OpenSession(o: Opening) returns (r: Opened, stream: DataPlane?)
      modifies this
      ensures r == Rejected <==> o.abortedBefore || o.id != Some(true)
      ensures r == Session <==> !o.abortedBefore && o.id == Some(true) && Activates(o.polls) && Connects(o.attempt.(version := 2)) && !o.aborted && !o.dropped
      ensures r == SetupAndCleanupFailed ==> !o.closeOk
      ensures r == SetupFailed ==> o.closeOk
      ensures r == Session || r == Rejected ==> closes == old(closes)
      ensures r == SetupFailed || r == SetupAndCleanupFailed ==> closes == old(closes) + 1
      ensures r == Session <==> stream != null
      ensures stream != null ==> fresh(stream) && stream.open
      ensures sockets == old(sockets) + if r == Session then 1 else 0
    {
      stream := null;
      if o.abortedBefore || o.id.None? || !o.id.value { return Rejected, null; }
      var activated := AwaitActivation(o.polls);
      if activated {
        stream := ConnectSession(o.attempt.(version := 2));
        if stream != null {
          if o.dropped { stream.Drop(); }
          if !o.aborted && stream.open { return Session, stream; }
        }
      }
      if stream != null { stream.Drop(); }
      stream := null;
      var done := CloseSession(o.closeOk);
      r := if done then SetupFailed else SetupAndCleanupFailed;
    }

    /** OpenSessionAsync: the .NET client hands over what AwaitReady queued, or closes the session once. */
    method OpenSessionAsync(created: bool, polls: seq<Poll>, granted: bool, handshake: bool, wire: seq<Frames.Fragment>, utf8: Frames.Utf8, closeOk: bool)
      returns (r: Opened, session: Objects.GPULinkSession?)
      modifies this
      ensures r == Rejected <==> !created
      ensures r == Session <==> created && Activates(polls) && granted && handshake && Frames.Connect(wire, [], utf8).Connected?
      ensures r == SetupAndCleanupFailed ==> !closeOk
      ensures r == SetupFailed ==> closeOk
      ensures closes == old(closes) + if r == Session || r == Rejected then 0 else 1
      ensures sockets == old(sockets) + if r == Session then 1 else 0
      ensures r == Session <==> session != null
      ensures session != null ==> fresh(session) && !session.socket.aborted
      ensures session != null ==> session.View() == Frames.Session(Frames.Connect(wire, [], utf8).early, Frames.Connect(wire, [], utf8).rest, false)
    {
      session := null;
      if !created { return Rejected, null; }
      var activated := AwaitActivation(polls);
      if activated && granted {
        var socket := new Objects.Socket(wire);
        sockets := sockets + 1;
        var early := None;
        if handshake {
          early := socket.AwaitReady(utf8);
        }
        if early.Some? {
          session := new Objects.GPULinkSession(socket, utf8, early.value);
          return Session, session;
        }
        socket.Abort(false);
        sockets := sockets - 1;
      }
      var done := CloseSession(closeOk);
      r := if done then SetupFailed else SetupAndCleanupFailed;
    }
  }

  class DataPlane {
    const client: Client
    var open: bool

    constructor (c: Client)
      modifies c`sockets
      ensures client == c && open && c.sockets == old(c.sockets) + 1
    {
      client, open := c, true;
      new;
      c.sockets := c.sockets + 1;
    }

    /** close(), or the network doing it. */
    method Drop()
      modifies this`open, client`sockets
      ensures !open && client.sockets == old(client.sockets) - if old(open) then 1 else 0
    {
      if open { client.sockets := client.sockets - 1; }
      open := false;
    }
  }
}
