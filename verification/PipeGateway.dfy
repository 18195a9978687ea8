/** The gateway process itself: socket loops, the ring entry that is filled field by field, and the
    queues shared with the client threads.  Its methods are proved to perform the steps of `PipeLink`. */
module PipeGateway {
  import opened Options
  import opened PipeFrame
  import opened PipeLink

  // ----- Sockets

  /** A connected stream socket: `pending` is what the peer has sent before it closes. */
  class Socket {
    var pending: seq<Byte>

    constructor (data: seq<Byte>)
      ensures pending == data
    {
      pending := data;
    }

    /** A receive returns as much as it likes, but nothing only at the end of the stream. */
    method Receive(limit: nat) returns (got: seq<Byte>)
      requires limit > 0
      modifies this
      ensures |got| <= limit && got + pending == old(pending)
      ensures got == [] ==> old(pending) == []
    {
      if pending == [] {
        return [];
      }
      var n: nat :| 1 <= n <= limit && n <= |pending|;
      got, pending := pending[..n], pending[n..];
    }
  }

  /** Reads exactly `bytes` bytes, however they arrive, or fails when the stream ends first. */
  method ReadAll(socket: Socket, bytes: nat) returns (ok: bool, data: seq<Byte>)
    modifies socket
    ensures ok <==> |old(socket.pending)| >= bytes
    ensures ok ==> data == old(socket.pending)[..bytes] && socket.pending == old(socket.pending)[bytes..]
  {
    data := [];
    while |data| < bytes
      invariant |data| <= bytes && data + socket.pending == old(socket.pending)
      decreases bytes - |data|
    {
      var got := socket.Receive(bytes - |data|);
      if got == [] {
        return false, data;
      }
      assert (data + got) + socket.pending == data + (got + socket.pending);
      data := data + got;
    }
    ok := true;
  }

  const LINE_LIMIT := 512

  /** Reads a header line of at most 511 characters; a longer one, or one without an end, is refused. */
  method ReadLine(socket: Socket) returns (ok: bool, line: seq<Byte>)
    modifies socket
    ensures ok ==> NEWLINE !in line && old(socket.pending) == line + [NEWLINE] + socket.pending
    ensures ok <==> NEWLINE in old(socket.pending)[..if |old(socket.pending)| < LINE_LIMIT then |old(socket.pending)| else LINE_LIMIT]
  {
    line := [];
    while |line| < LINE_LIMIT
      invariant |line| <= LINE_LIMIT && NEWLINE !in line && line + socket.pending == old(socket.pending)
      decreases LINE_LIMIT - |line|
    {
      var got, data := ReadAll(socket, 1);
      if !got {
        assert line == old(socket.pending);
        return false, line;
      }
      assert old(socket.pending)[|line|] == data[0];
      if data[0] == NEWLINE {
        assert data == [NEWLINE];
        return true, line;
      }
      line := line + data;
    }
    assert line == old(socket.pending)[..LINE_LIMIT];
    ok := false;
  }

  // ----- The receive loop

  datatype Message = Data(entry: seq<Byte>) | Terminate | Unexpected

  /** The receive loop on the messages in the ring: foreign messages and invalid frames are dropped, a
      termination message ends it. */
  function ReceiveLoop(base: nat, incoming: map<Name, seq<Payload>>, ring: seq<Message>): (map<Name, seq<Payload>>, bool)
    requires forall m | m in ring :: m.Data? ==> IsEntry(base, m.entry)
    decreases |ring|
  {
    if ring == [] then (incoming, false)
    else
      assert ring[0] in ring;
      match ring[0]
      case Terminate => (incoming, true)
      case Unexpected => ReceiveLoop(base, incoming, ring[1..])
      case Data(entry) => ReceiveLoop(base, Poll(base, Link([], Idle, [entry], incoming)).incoming, ring[1..])
  }

  /** On nothing but frames of a sending gateway, the loop is a sequence of polls: every pipe gets its
      payloads in the order of the ring. */
  lemma {:induction false} LoopDeliversInOrder(base: nat, incoming: map<Name, seq<Payload>>, ring: seq<seq<Byte>>, name: Name)
    requires AllFrames(base, ring)
    ensures var messages := seq(|ring|, i requires 0 <= i < |ring| => Data(ring[i]));
      && (forall m | m in messages :: m.Data? ==> IsEntry(base, m.entry))
      && var (after, stopped) := ReceiveLoop(base, incoming, messages);
         !stopped && Waiting(after, name) == Waiting(incoming, name) + PayloadsOf(Decoded(base, ring), name)
    decreases |ring|
  {
    var messages := seq(|ring|, i requires 0 <= i < |ring| => Data(ring[i]));
    forall m | m in messages ensures m.Data? && IsEntry(base, m.entry) {
      var i :| 0 <= i < |messages| && messages[i] == m;
      assert IsFrame(base, ring[i]);
    }
    if ring != [] {
      var l := Link([], Idle, [ring[0]], incoming);
      var next := Poll(base, l).incoming;
      assert messages[1..] == seq(|ring[1..]|, i requires 0 <= i < |ring[1..]| => Data(ring[1..][i]));
      LoopDeliversInOrder(base, next, ring[1..], name);
      DecodedFirst(base, ring);
      PollIsReceive(base, l);
      Handover(l, Received(base, l), Decoded(base, ring), Decoded(base, ring[1..]), name);
    }
  }

  function EnqueueAll(l: Link, more: seq<Pending>): Link {
    l.(outgoing := l.outgoing + more)
  }

  class Gateway {
    const base: nat
    var outgoing: seq<Pending>
    var incoming: map<Name, seq<Payload>>
    var succeeded: set<nat>   // the writes whose clients get a positive answer

    constructor (base: nat)
      ensures this.base == base && outgoing == [] && incoming == map[] && succeeded == {}
    {
      this.base := base;
      outgoing, incoming, succeeded := [], map[], {};
    }

    /** A write request of a client: refused, or queued at the end. */
    method QueueWrite(p: Pending) returns (valid: bool)
      modifies this`outgoing
      ensures valid <==> Acceptable(base, p.write.name, |p.write.payload|)
      ensures outgoing == if valid then old(outgoing) + [p] else old(outgoing)
    {
      valid := 0 < |p.write.name| <= MAX_NAME && |p.write.payload| <= MaxPayload(base);
      if valid {
        outgoing := outgoing + [p];
      }
    }

    /** The front of the outgoing queue goes into the ring entry, if there is one.  The lock is free
        while the entry is filled: `meanwhile` is what client threads queue in that time. */
    method ForwardOneWrite(entry: array?<Byte>, meanwhile: seq<Pending>) returns (sent: bool)
      requires forall p | p in outgoing + meanwhile :: Acceptable(base, p.write.name, |p.write.payload|)
      requires entry != null ==> base + entry.Length == ENTRY_BYTES
      modifies this`outgoing, this`succeeded, entry
      ensures sent <==> old(outgoing) != [] && entry != null
      ensures !sent ==> outgoing == (if old(outgoing) == [] then [] else old(outgoing) + meanwhile)
                        && succeeded == old(succeeded)
                        && (entry != null ==> entry[..] == old(entry[..]))
      ensures sent ==>
        var before := Link(old(outgoing), Idle, [], incoming);
        && Fits(old(outgoing)[0].write, old(entry[..]))
        && Link(outgoing, Idle, [entry[..]], incoming)
           == Complete(EnqueueAll(Transmit(Pick(before), old(entry[..])), meanwhile))
        && outgoing == old(outgoing)[1..] + meanwhile
        && succeeded == old(succeeded) + {old(outgoing)[0].id}
    {
      if outgoing == [] {
        return false;
      }
      var pending := outgoing[0];
      assert pending in outgoing + meanwhile;
      outgoing := outgoing + meanwhile;
      if entry == null {
        return false;
      }
      FillEntry(entry, base, pending.write);
      if outgoing != [] && outgoing[0] == pending {
        outgoing := outgoing[1..];
      }
      succeeded := succeeded + {pending.id};
      sent := true;
    }

    /** All that is in the ring goes to the queues of its pipes. */
    method ReceiveAll(ring: seq<Message>) returns (stopped: bool)
      requires forall m | m in ring :: m.Data? ==> IsEntry(base, m.entry)
      modifies this`incoming
      ensures (incoming, stopped) == ReceiveLoop(base, old(incoming), ring)
    {
      var n := 0;
      while n < |ring|
        invariant n <= |ring|
        invariant ReceiveLoop(base, old(incoming), ring) == ReceiveLoop(base, incoming, ring[n..])
      {
        assert ring[n..][0] == ring[n] && ring[n..][1..] == ring[n + 1..];
        match ring[n] {
          case Terminate =>
            return true;
          case Unexpected =>
          case Data(entry) =>
            var write := Decode(base, entry);
            if write.Some? {
              var name := write.value.name;
              incoming := incoming[name := Waiting(incoming, name) + [write.value.payload]];
            }
        }
        n := n + 1;
      }
      stopped := false;
    }

    /** A read request that finds its payload takes it; any other one has to wait. */
    method TryRead(name: Name, bytes: nat) returns (payload: Option<Payload>)
      modifies this`incoming
      ensures payload.Some? <==> CanRead(Link(outgoing, Idle, [], old(incoming)), name, bytes)
      ensures payload.Some? ==>
        && |payload.value| == bytes && Waiting(old(incoming), name) == [payload.value] + Waiting(incoming, name)
        && incoming == PipeLink.Read(Link(outgoing, Idle, [], old(incoming)), name).incoming
      ensures payload.None? ==> incoming == old(incoming)
    {
      var queue := Waiting(incoming, name);
      if queue != [] && |queue[0]| == bytes {
        payload := Some(queue[0]);
        incoming := incoming[name := queue[1..]];
      } else {
        payload := None;
      }
    }
  }

  /** Copies `data` behind what has been written so far; `stale` is what the entry held before. */
  method Copy(entry: array<Byte>, ghost stale: seq<Byte>, ghost written: seq<Byte>, at: nat, data: seq<Byte>)
    requires |stale| == entry.Length && at + |data| <= entry.Length
    requires entry[..at] == written && entry[at..] == stale[at..]
    modifies entry
    ensures entry[..at + |data|] == written + data
    ensures entry[at + |data|..] == stale[at + |data|..]
  {
    for i := 0 to |data|
      invariant entry[..at + i] == written + data[..i]
      invariant entry[at + i..] == stale[at + i..]
    {
      entry[at + i] := data[i];
      assert entry[..at + i + 1] == entry[..at + i] + [data[i]];
      assert entry[at + i + 1..] == stale[at + i..][1..];
    }
  }

  /** The fields of the frame header, the name and the payload, written one after the other. */
  method FillEntry(entry: array<Byte>, base: nat, write: PipeFrame.Write)
    requires base + entry.Length == ENTRY_BYTES && Acceptable(base, write.name, |write.payload|)
    modifies entry
    ensures Fits(write, old(entry[..]))
    ensures entry[..] == Place(old(entry[..]), Encode(write.name, write.payload))
  {
    ghost var stale := entry[..];
    var name, payload := write.name, write.payload;
    var fixed: seq<Byte> := [DATA, 0, 0, 0] + [0, 0, 0, 0, 0, 0, 0, 0];
    Copy(entry, stale, [], 0, fixed);
    Copy(entry, stale, fixed, 12, ToNetwork(|name|));
    Copy(entry, stale, fixed + ToNetwork(|name|), 16, ToNetwork(|payload|));
    ghost var header := fixed + ToNetwork(|name|) + ToNetwork(|payload|);
    Copy(entry, stale, header, 20, name);
    Copy(entry, stale, header + name, 20 + |name|, payload);
    var n := 20 + |name| + |payload|;
    assert entry[..] == entry[..n] + entry[n..];
  }
}
