/** One direction of a BaseIf channel: the outgoing queue of the sending gateway, the ring, and the
    per-pipe incoming queues of the receiving gateway.  Every operation is one critical section of the
    gateway, or one access to the ring. */
module PipeLink {
  import opened Options
  import opened PipeFrame

  type Name = seq<Byte>
  type Payload = seq<Byte>

  /** A queued write; `id` stands for the identity of the shared `PendingWrite` object. */
  datatype Pending = Pending(id: nat, write: Write)

  /** Where the sending thread is in `ForwardOneWrite`. */
  datatype Phase = Idle | Picked(pending: Pending) | Sent(pending: Pending)

  datatype Link = Link(
    outgoing: seq<Pending>,
    phase: Phase,
    ring: seq<seq<Byte>>,
    incoming: map<Name, seq<Payload>>)

  const EmptyLink := Link([], Idle, [], map[])

  function Waiting(incoming: map<Name, seq<Payload>>, name: Name): seq<Payload> {
    if name in incoming then incoming[name] else []
  }

  // ----- The operations

  function Enqueue(l: Link, p: Pending): Link {
    l.(outgoing := l.outgoing + [p])
  }

  /** The first critical section of `ForwardOneWrite`. */
  function Pick(l: Link): Link
    requires l.phase.Idle? && l.outgoing != []
  {
    l.(phase := Picked(l.outgoing[0]))
  }

  /** The ring has no free entry: try again later. */
  function GiveUp(l: Link): Link
    requires l.phase.Picked?
  {
    l.(phase := Idle)
  }

  /** The frame goes into a ring entry that holds `stale` bytes. */
  function Transmit(l: Link, stale: seq<Byte>): Link
    requires l.phase.Picked? && Fits(l.phase.pending.write, stale)
  {
    var w := l.phase.pending.write;
    l.(phase := Sent(l.phase.pending), ring := l.ring + [Place(stale, Encode(w.name, w.payload))])
  }

  predicate Fits(w: Write, stale: seq<Byte>) {
    FRAME_BYTES + |w.name| + |w.payload| <= |stale| <= ENTRY_BYTES
  }

  /** The second critical section: the front goes if it still is the write that was sent. */
  function Complete(l: Link): Link
    requires l.phase.Sent?
  {
    if l.outgoing != [] && l.outgoing[0] == l.phase.pending then l.(phase := Idle, outgoing := l.outgoing[1..])
    else l.(phase := Idle)
  }

  /** One round of the receive loop on a data message. */
  function Poll(base: nat, l: Link): Link
    requires l.ring != [] && IsEntry(base, l.ring[0])
  {
    var rest := l.(ring := l.ring[1..]);
    match Decode(base, l.ring[0])
    case None => rest
    case Some(w) => rest.(incoming := l.incoming[w.name := Waiting(l.incoming, w.name) + [w.payload]])
  }

  predicate IsEntry(base: nat, entry: seq<Byte>) {
    FRAME_BYTES <= |entry| && base + |entry| == ENTRY_BYTES
  }

  /** A read for `bytes` bytes is served only by a head of exactly this size. */
  predicate CanRead(l: Link, name: Name, bytes: nat) {
    Waiting(l.incoming, name) != [] && |Waiting(l.incoming, name)[0]| == bytes
  }

  function Read(l: Link, name: Name): Link
    requires Waiting(l.incoming, name) != []
  {
    l.(incoming := l.incoming[name := Waiting(l.incoming, name)[1..]])
  }

  // ----- What is under way

  /** The payloads for one pipe, in order. */
  function PayloadsOf(writes: seq<Write>, name: Name): seq<Payload> {
    if writes == [] then []
    else PayloadsOf(writes[..|writes| - 1], name)
         + (if writes[|writes| - 1].name == name then [writes[|writes| - 1].payload] else [])
  }

  function Writes(pending: seq<Pending>): (w: seq<Write>)
    ensures |w| == |pending|
  {
    seq(|pending|, i requires 0 <= i < |pending| => pending[i].write)
  }

  predicate IsFrame(base: nat, entry: seq<Byte>) {
    IsEntry(base, entry) && Decode(base, entry).Some?
  }

  function WriteIn(base: nat, entry: seq<Byte>): Write
    requires IsFrame(base, entry)
  {
    Decode(base, entry).value
  }

  predicate AllFrames(base: nat, ring: seq<seq<Byte>>) {
    forall i | 0 <= i < |ring| :: IsFrame(base, ring[i])
  }

  /** The frames in the ring, as the receiver will read them. */
  function Decoded(base: nat, ring: seq<seq<Byte>>): (w: seq<Write>)
    requires AllFrames(base, ring)
    ensures |w| == |ring|
    ensures forall i | 0 <= i < |ring| :: w[i] == WriteIn(base, ring[i])
  {
    seq(|ring|, i requires 0 <= i < |ring| && IsFrame(base, ring[i]) => WriteIn(base, ring[i]))
  }

  /** The accepted writes whose frame is not in the ring yet. */
  function Unsent(l: Link): seq<Pending>
    requires l.phase.Sent? ==> l.outgoing != []
  {
    if l.phase.Sent? then l.outgoing[1..] else l.outgoing
  }

  /** While the lock is released in `ForwardOneWrite`, the front of the queue stays the write that was
      picked; and the ring holds nothing but frames that decode. */
  ghost predicate Valid(base: nat, l: Link) {
    && (l.phase.Idle? || (l.outgoing != [] && l.outgoing[0] == l.phase.pending))
    && (forall p | p in l.outgoing :: Acceptable(base, p.write.name, |p.write.payload|))
    && AllFrames(base, l.ring)
  }

  /** Everything accepted for `name` and not yet read, oldest first. */
  ghost function UnderWay(base: nat, l: Link, name: Name): seq<Payload>
    requires Valid(base, l)
  {
    Waiting(l.incoming, name) + PayloadsOf(Decoded(base, l.ring), name) + PayloadsOf(Writes(Unsent(l)), name)
  }

  lemma {:induction false} PayloadsOfConcatenation(a: seq<Write>, b: seq<Write>, name: Name)
    ensures PayloadsOf(a + b, name) == PayloadsOf(a, name) + PayloadsOf(b, name)
    decreases |b|
  {
    if b == [] {
      assert a + b == a;
    } else {
      PayloadsOfConcatenation(a, b[..|b| - 1], name);
      assert (a + b)[..|a + b| - 1] == a + b[..|b| - 1];
    }
  }

  lemma PayloadsOfFirst(a: seq<Write>, name: Name)
    requires a != []
    ensures PayloadsOf(a, name) == (if a[0].name == name then [a[0].payload] else []) + PayloadsOf(a[1..], name)
  {
    PayloadsOfConcatenation([a[0]], a[1..], name);
    assert [a[0]] + a[1..] == a;
    assert [a[0]][..0] == [];
  }

  // ----- What every operation does to it

  lemma EnqueueAppends(base: nat, l: Link, p: Pending, name: Name)
    requires Valid(base, l) && Acceptable(base, p.write.name, |p.write.payload|)
    ensures Valid(base, Enqueue(l, p))
    ensures UnderWay(base, Enqueue(l, p), name)
         == UnderWay(base, l, name) + (if p.write.name == name then [p.write.payload] else [])
  {
    var l' := Enqueue(l, p);
    assert Writes(Unsent(l')) == Writes(Unsent(l)) + [p.write];
    PayloadsOfConcatenation(Writes(Unsent(l)), [p.write], name);
    assert [p.write][..0] == [];
  }

  lemma PickKeeps(base: nat, l: Link, name: Name)
    requires Valid(base, l) && l.phase.Idle? && l.outgoing != []
    ensures Valid(base, Pick(l)) && UnderWay(base, Pick(l), name) == UnderWay(base, l, name)
  {
  }

  lemma DecodedAppend(base: nat, ring: seq<seq<Byte>>, entry: seq<Byte>)
    requires AllFrames(base, ring) && IsFrame(base, entry)
    ensures AllFrames(base, ring + [entry])
    ensures Decoded(base, ring + [entry]) == Decoded(base, ring) + [WriteIn(base, entry)]
  {
  }

  lemma TransmitKeeps(base: nat, l: Link, stale: seq<Byte>, name: Name)
    requires Valid(base, l) && l.phase.Picked? && base + |stale| == ENTRY_BYTES
    ensures Fits(l.phase.pending.write, stale)
    ensures Valid(base, Transmit(l, stale)) && UnderWay(base, Transmit(l, stale), name) == UnderWay(base, l, name)
  {
    var w := l.phase.pending.write;
    assert l.outgoing[0] in l.outgoing;
    FrameRoundTrip(base, stale, w.name, w.payload);
    var entry := Place(stale, Encode(w.name, w.payload));
    assert IsFrame(base, entry) && WriteIn(base, entry) == w;
    SentMoves(base, l, entry, name);
  }

  lemma SentMoves(base: nat, l: Link, entry: seq<Byte>, name: Name)
    requires Valid(base, l) && l.phase.Picked? && IsFrame(base, entry) && WriteIn(base, entry) == l.phase.pending.write
    ensures var l' := l.(phase := Sent(l.phase.pending), ring := l.ring + [entry]);
            Valid(base, l') && UnderWay(base, l', name) == UnderWay(base, l, name)
  {
    DecodedAppend(base, l.ring, entry);
    assert l.phase.pending == l.outgoing[0];
    FirstMovesOver(Waiting(l.incoming, name), Decoded(base, l.ring), l.outgoing, name);
  }

  /** The first queued write counts as much behind the ring as in front of the queue. */
  lemma FirstMovesOver(before: seq<Payload>, ring: seq<Write>, outgoing: seq<Pending>, name: Name)
    requires outgoing != []
    ensures before + PayloadsOf(ring + [outgoing[0].write], name) + PayloadsOf(Writes(outgoing[1..]), name)
         == before + PayloadsOf(ring, name) + PayloadsOf(Writes(outgoing), name)
  {
    var w := outgoing[0].write;
    PayloadsOfConcatenation(ring, [w], name);
    assert [w][..0] == [];
    PayloadsOfFirst(Writes(outgoing), name);
    assert Writes(outgoing)[1..] == Writes(outgoing[1..]);
  }

  lemma CompleteKeeps(base: nat, l: Link, name: Name)
    requires Valid(base, l) && l.phase.Sent?
    ensures Complete(l).outgoing == l.outgoing[1..] && l.outgoing == [l.phase.pending] + Complete(l).outgoing
    ensures Valid(base, Complete(l)) && UnderWay(base, Complete(l), name) == UnderWay(base, l, name)
  {
  }

  lemma PollKeeps(base: nat, l: Link, name: Name)
    requires Valid(base, l) && l.ring != []
    ensures IsFrame(base, l.ring[0])
    ensures Valid(base, Poll(base, l)) && UnderWay(base, Poll(base, l), name) == UnderWay(base, l, name)
  {
    assert IsFrame(base, l.ring[0]);
    PollIsReceive(base, l);
    ReceiveMoves(base, l, name);
  }

  function Received(base: nat, l: Link): Link
    requires l.ring != [] && IsFrame(base, l.ring[0])
  {
    var w := WriteIn(base, l.ring[0]);
    l.(ring := l.ring[1..], incoming := l.incoming[w.name := Waiting(l.incoming, w.name) + [w.payload]])
  }

  lemma PollIsReceive(base: nat, l: Link)
    requires l.ring != [] && IsFrame(base, l.ring[0])
    ensures Poll(base, l) == Received(base, l)
  {
  }

  lemma ReceiveMoves(base: nat, l: Link, name: Name)
    requires Valid(base, l) && l.ring != [] && IsFrame(base, l.ring[0])
    ensures Valid(base, Received(base, l)) && UnderWay(base, Received(base, l), name) == UnderWay(base, l, name)
  {
    var l' := Received(base, l);
    DecodedFirst(base, l.ring);
    Handover(l, l', Decoded(base, l.ring), Decoded(base, l'.ring), name);
    assert Unsent(l') == Unsent(l);
  }

  /** Handing the first decoded write `d[0]` to its pipe moves it from the ring to the queue. */
  lemma Handover(l: Link, l': Link, d: seq<Write>, d': seq<Write>, name: Name)
    requires d != [] && d' == d[1..]
    requires l'.incoming == l.incoming[d[0].name := Waiting(l.incoming, d[0].name) + [d[0].payload]]
    ensures Waiting(l'.incoming, name) + PayloadsOf(d', name) == Waiting(l.incoming, name) + PayloadsOf(d, name)
  {
    PayloadsOfFirst(d, name);
  }

  lemma DecodedFirst(base: nat, ring: seq<seq<Byte>>)
    requires AllFrames(base, ring) && ring != []
    ensures AllFrames(base, ring[1..])
    ensures Decoded(base, ring)[0] == WriteIn(base, ring[0]) && Decoded(base, ring)[1..] == Decoded(base, ring[1..])
  {
    assert Decoded(base, ring)[1..] == Decoded(base, ring[1..]);
  }

  lemma ReadTakesTheOldest(base: nat, l: Link, read: Name, name: Name)
    requires Valid(base, l) && Waiting(l.incoming, read) != []
    ensures Valid(base, Read(l, read))
    ensures UnderWay(base, l, name)
         == (if read == name then [Waiting(l.incoming, read)[0]] else []) + UnderWay(base, Read(l, read), name)
  {
    var l' := Read(l, read);
    assert Decoded(base, l'.ring) == Decoded(base, l.ring) && Writes(Unsent(l')) == Writes(Unsent(l));
    if read == name {
      TakeFirst(Waiting(l.incoming, name), PayloadsOf(Decoded(base, l.ring), name), PayloadsOf(Writes(Unsent(l)), name));
    } else {
      assert UnderWay(base, l', name) == UnderWay(base, l, name);
    }
  }

  lemma TakeFirst(a: seq<Payload>, b: seq<Payload>, c: seq<Payload>)
    requires a != []
    ensures a + b + c == [a[0]] + (a[1..] + b + c)
  {
  }
}
