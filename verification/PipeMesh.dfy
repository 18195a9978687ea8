/** All workers together: routers, gateways and rings, over every run.  A pipe is a FIFO from the
    worker of its source to the worker of its destination, whatever carries it. */
module PipeMesh {
  import opened Options
  import opened PipeFrame
  import opened PipeLink
  import opened PipeRouting

  const MAX_REQUEST := 65000

  /** The size of the BaseIf header, and the worker slot of every placed coordinate. */
  datatype Deployment = Deployment(base: nat, slots: map<Coordinate, int>)
  {
    /** The workers of the writer and of the reader of a pipe. */
    function Route(name: Name): Option<(int, int)> {
      match ParsePipe(name)
      case None => None
      case Some(pipe) =>
        if pipe.source in slots && pipe.destination in slots
        then Some((slots[pipe.source], slots[pipe.destination])) else None
    }
  }

  /** `accepted` and `delivered` record, per pipe, the payloads of all writes that were taken in and of
      all reads that were served. */
  datatype Mesh = Mesh(
    links: map<(int, int), Link>,
    local: map<int, map<Name, seq<Payload>>>,
    accepted: map<Name, seq<Payload>>,
    delivered: map<Name, seq<Payload>>,
    nextId: nat)

  const Start := Mesh(map[], map[], map[], map[], 0)

  function LinkOf(m: Mesh, i: int, j: int): Link {
    if (i, j) in m.links then m.links[(i, j)] else EmptyLink
  }

  function LocalOf(m: Mesh, slot: int): map<Name, seq<Payload>> {
    if slot in m.local then m.local[slot] else map[]
  }

  function Append(queues: map<Name, seq<Payload>>, name: Name, payload: Payload): map<Name, seq<Payload>> {
    queues[name := Waiting(queues, name) + [payload]]
  }

  /** Requests arrive at the router of a worker with the name as the client wrote it; the other events
      are the steps of the gateway threads on the link from worker `i` to worker `j`. */
  datatype Event =
    | Write(slot: int, raw: Name, payload: Payload)
    | Read(slot: int, raw: Name, bytes: nat)
    | Pick(i: int, j: int)
    | GiveUp(i: int, j: int)
    | Transmit(i: int, j: int, stale: seq<Byte>)
    | Complete(i: int, j: int)
    | Poll(i: int, j: int)

  /** Processes use the router of the worker they were placed on. */
  predicate CanDo(d: Deployment, m: Mesh, e: Event) {
    match e
    case Write(slot, raw, payload) =>
      var route := d.Route(Basename(raw));
      route.Some? && slot == route.value.0 && |payload| <= MAX_REQUEST
    case Read(slot, raw, bytes) =>
      var name := Basename(raw);
      var route := d.Route(name);
      && route.Some? && slot == route.value.1 && bytes <= MAX_REQUEST
      && var queue := QueueAt(m, slot, PeerFor(d.slots, ReadFrom, name).value, name);
         queue != [] && |queue[0]| == bytes
    case Pick(i, j) => LinkOf(m, i, j).phase.Idle? && LinkOf(m, i, j).outgoing != []
    case GiveUp(i, j) => LinkOf(m, i, j).phase.Picked?
    case Transmit(i, j, stale) =>
      LinkOf(m, i, j).phase.Picked? && d.base + |stale| == ENTRY_BYTES && Fits(LinkOf(m, i, j).phase.pending.write, stale)
    case Complete(i, j) => LinkOf(m, i, j).phase.Sent?
    case Poll(i, j) => LinkOf(m, i, j).ring != [] && IsEntry(d.base, LinkOf(m, i, j).ring[0])
  }

  /** A write at the router of `slot`: into the local queue, to the gateway for `peer`, or refused by
      the gateway, which answers with an error. */
  function TakeIn(d: Deployment, m: Mesh, slot: int, peer: int, name: Name, payload: Payload): Mesh {
    if peer == slot then
      m.(local := m.local[slot := Append(LocalOf(m, slot), name, payload)], accepted := Append(m.accepted, name, payload))
    else if Acceptable(d.base, name, |payload|) then
      var p := Pending(m.nextId, PipeFrame.Write.Write(name, payload));
      m.(links := m.links[(slot, peer) := Enqueue(LinkOf(m, slot, peer), p)],
         accepted := Append(m.accepted, name, payload), nextId := m.nextId + 1)
    else m
  }

  function QueueAt(m: Mesh, slot: int, peer: int, name: Name): seq<Payload> {
    Waiting(if peer == slot then LocalOf(m, slot) else LinkOf(m, peer, slot).incoming, name)
  }

  /** A read at the router of `slot` takes the head of the queue. */
  function Serve(m: Mesh, slot: int, peer: int, name: Name): Mesh
    requires QueueAt(m, slot, peer, name) != []
  {
    var queue := QueueAt(m, slot, peer, name);
    var served := m.(delivered := Append(m.delivered, name, queue[0]));
    if peer == slot then served.(local := m.local[slot := LocalOf(m, slot)[name := queue[1..]]])
    else served.(links := m.links[(peer, slot) := PipeLink.Read(LinkOf(m, peer, slot), name)])
  }

  function Do(d: Deployment, m: Mesh, e: Event): Mesh
    requires CanDo(d, m, e)
  {
    match e
    case Write(slot, raw, payload) =>
      TakeIn(d, m, slot, PeerFor(d.slots, WriteTo, Basename(raw)).value, Basename(raw), payload)
    case Read(slot, raw, bytes) =>
      Serve(m, slot, PeerFor(d.slots, ReadFrom, Basename(raw)).value, Basename(raw))
    case Pick(i, j) => m.(links := m.links[(i, j) := PipeLink.Pick(LinkOf(m, i, j))])
    case GiveUp(i, j) => m.(links := m.links[(i, j) := PipeLink.GiveUp(LinkOf(m, i, j))])
    case Transmit(i, j, stale) => m.(links := m.links[(i, j) := PipeLink.Transmit(LinkOf(m, i, j), stale)])
    case Complete(i, j) => m.(links := m.links[(i, j) := PipeLink.Complete(LinkOf(m, i, j))])
    case Poll(i, j) => m.(links := m.links[(i, j) := PipeLink.Poll(d.base, LinkOf(m, i, j))])
  }

  // ----- The invariant

  ghost predicate AllValid(d: Deployment, m: Mesh) {
    forall i, j :: Valid(d.base, LinkOf(m, i, j))
  }

  /** What was accepted for a pipe of this route and not yet read, oldest first, wherever it is. */
  ghost function InTransit(d: Deployment, m: Mesh, route: (int, int), name: Name): seq<Payload>
    requires AllValid(d, m)
  {
    if route.0 == route.1 then Waiting(LocalOf(m, route.0), name)
    else UnderWay(d.base, LinkOf(m, route.0, route.1), name)
  }

  ghost predicate Conserved(d: Deployment, m: Mesh, route: (int, int), name: Name)
    requires AllValid(d, m)
  {
    Waiting(m.accepted, name) == Waiting(m.delivered, name) + InTransit(d, m, route, name)
  }

  ghost predicate Inv(d: Deployment, m: Mesh) {
    AllValid(d, m) && forall name | d.Route(name).Some? :: Conserved(d, m, d.Route(name).value, name)
  }

  lemma StartInv(d: Deployment)
    ensures Inv(d, Start)
  {
  }

  lemma RouteIsPeer(d: Deployment, name: Name)
    requires d.Route(name).Some?
    ensures PeerFor(d.slots, WriteTo, name) == Some(d.Route(name).value.1)
    ensures PeerFor(d.slots, ReadFrom, name) == Some(d.Route(name).value.0)
  {
  }

  // ----- What a step does to one pipe

  /** The payloads that a step takes in for a pipe. */
  function TakenIn(d: Deployment, e: Event, route: (int, int), name: Name): seq<Payload> {
    if e.Write? && Basename(e.raw) == name && (route.0 == route.1 || Acceptable(d.base, name, |e.payload|)) then [e.payload] else []
  }

  /** The payloads that a step hands out from a pipe. */
  function HandedOut(m: Mesh, e: Event, route: (int, int), name: Name): seq<Payload> {
    if e.Read? && Basename(e.raw) == name && QueueAt(m, route.1, route.0, name) != []
    then [QueueAt(m, route.1, route.0, name)[0]] else []
  }

  /** What was under way with what comes in is what goes out with what is under way afterwards. */
  ghost predicate Moves(d: Deployment, m: Mesh, m': Mesh, route: (int, int), name: Name, more: seq<Payload>, less: seq<Payload>)
    requires AllValid(d, m) && AllValid(d, m')
  {
    && InTransit(d, m, route, name) + more == less + InTransit(d, m', route, name)
    && Waiting(m'.accepted, name) == Waiting(m.accepted, name) + more
    && Waiting(m'.delivered, name) == Waiting(m.delivered, name) + less
  }

  lemma ReplacedIsValid(d: Deployment, m: Mesh, m': Mesh, i: int, j: int, l: Link)
    requires AllValid(d, m) && Valid(d.base, l) && m'.links == m.links[(i, j) := l]
    ensures AllValid(d, m')
  {
    forall a, b ensures Valid(d.base, LinkOf(m', a, b)) {
      assert Valid(d.base, LinkOf(m, a, b));
    }
  }

  lemma SameLinks(d: Deployment, m: Mesh, m': Mesh)
    requires AllValid(d, m) && m'.links == m.links
    ensures AllValid(d, m')
  {
    forall a, b ensures Valid(d.base, LinkOf(m', a, b)) {
      assert Valid(d.base, LinkOf(m, a, b));
    }
  }

  lemma MovesIn(d: Deployment, m: Mesh, m': Mesh, route: (int, int), name: Name, more: seq<Payload>)
    requires AllValid(d, m) && AllValid(d, m')
    requires InTransit(d, m', route, name) == InTransit(d, m, route, name) + more
    requires Waiting(m'.accepted, name) == Waiting(m.accepted, name) + more && m'.delivered == m.delivered
    ensures Moves(d, m, m', route, name, more, [])
  {
  }

  /** A step of a gateway thread on link (i, j). */
  lemma LinkMoves(d: Deployment, m: Mesh, i: int, j: int, l: Link, route: (int, int), name: Name)
    requires AllValid(d, m) && Valid(d.base, l)
    requires UnderWay(d.base, l, name) == UnderWay(d.base, LinkOf(m, i, j), name)
    ensures var m' := m.(links := m.links[(i, j) := l]);
      AllValid(d, m') && Moves(d, m, m', route, name, [], [])
  {
    var m' := m.(links := m.links[(i, j) := l]);
    ReplacedIsValid(d, m, m', i, j, l);
    ReplacedTransit(d, m, m', i, j, l, route, name);
    NothingMoves(d, m, m', route, name);
  }

  lemma MovesOut(d: Deployment, m: Mesh, m': Mesh, route: (int, int), name: Name, payload: Payload)
    requires AllValid(d, m) && AllValid(d, m')
    requires InTransit(d, m, route, name) == [payload] + InTransit(d, m', route, name)
    requires m'.accepted == m.accepted && Waiting(m'.delivered, name) == Waiting(m.delivered, name) + [payload]
    ensures Moves(d, m, m', route, name, [], [payload])
  {
    assert InTransit(d, m, route, name) + [] == InTransit(d, m, route, name);
  }

  lemma NothingMoves(d: Deployment, m: Mesh, m': Mesh, route: (int, int), name: Name)
    requires AllValid(d, m) && AllValid(d, m') && InTransit(d, m', route, name) == InTransit(d, m, route, name)
    requires Waiting(m'.accepted, name) == Waiting(m.accepted, name) && Waiting(m'.delivered, name) == Waiting(m.delivered, name)
    ensures Moves(d, m, m', route, name, [], [])
  {
    var transit := InTransit(d, m, route, name);
    assert transit + [] == [] + transit;
  }

  lemma GatewayMoves(d: Deployment, m: Mesh, e: Event, route: (int, int), name: Name)
    requires AllValid(d, m) && CanDo(d, m, e) && !e.Write? && !e.Read?
    ensures AllValid(d, Do(d, m, e)) && Moves(d, m, Do(d, m, e), route, name, [], [])
  {
    var l := LinkOf(m, e.i, e.j);
    assert Valid(d.base, l);
    match e {
      case Pick(i, j) =>
        PickKeeps(d.base, l, name);
        LinkMoves(d, m, i, j, PipeLink.Pick(l), route, name);
      case GiveUp(i, j) =>
        LinkMoves(d, m, i, j, PipeLink.GiveUp(l), route, name);
      case Transmit(i, j, stale) =>
        TransmitKeeps(d.base, l, stale, name);
        LinkMoves(d, m, i, j, PipeLink.Transmit(l, stale), route, name);
      case Complete(i, j) =>
        CompleteKeeps(d.base, l, name);
        LinkMoves(d, m, i, j, PipeLink.Complete(l), route, name);
      case Poll(i, j) =>
        PollKeeps(d.base, l, name);
        LinkMoves(d, m, i, j, PipeLink.Poll(d.base, l), route, name);
    }
  }

  lemma LocalWriteMoves(d: Deployment, m: Mesh, slot: int, written: Name, payload: Payload, route: (int, int), name: Name)
    requires AllValid(d, m) && (written == name ==> route == (slot, slot))
    ensures var m' := TakeIn(d, m, slot, slot, written, payload);
      AllValid(d, m') && Moves(d, m, m', route, name, if written == name then [payload] else [], [])
  {
    var m' := TakeIn(d, m, slot, slot, written, payload);
    SameLinks(d, m, m');
    if written == name {
      MovesIn(d, m, m', route, name, [payload]);
    } else {
      NothingMoves(d, m, m', route, name);
    }
  }

  lemma LocalReadMoves(d: Deployment, m: Mesh, slot: int, asked: Name, route: (int, int), name: Name)
    requires AllValid(d, m) && QueueAt(m, slot, slot, asked) != [] && (asked == name ==> route == (slot, slot))
    ensures var m' := Serve(m, slot, slot, asked);
      AllValid(d, m') && Moves(d, m, m', route, name, [], if asked == name then [QueueAt(m, slot, slot, asked)[0]] else [])
  {
    var m' := Serve(m, slot, slot, asked);
    SameLinks(d, m, m');
    if asked == name {
      MovesOut(d, m, m', route, name, QueueAt(m, slot, slot, asked)[0]);
    } else {
      NothingMoves(d, m, m', route, name);
    }
  }

  lemma RemoteWriteMoves(d: Deployment, m: Mesh, slot: int, peer: int, written: Name, payload: Payload, route: (int, int), name: Name)
    requires AllValid(d, m) && slot != peer && Acceptable(d.base, written, |payload|) && (written == name ==> route == (slot, peer))
    ensures var m' := TakeIn(d, m, slot, peer, written, payload);
      AllValid(d, m') && Moves(d, m, m', route, name, if written == name then [payload] else [], [])
  {
    var l, p := LinkOf(m, slot, peer), Pending(m.nextId, PipeFrame.Write.Write(written, payload));
    assert Valid(d.base, l);
    EnqueueAppends(d.base, l, p, name);
    ReplacedIsValid(d, m, TakeIn(d, m, slot, peer, written, payload), slot, peer, Enqueue(l, p));
    ReplacedTransit(d, m, TakeIn(d, m, slot, peer, written, payload), slot, peer, Enqueue(l, p), route, name);
    if written == name {
      MovesIn(d, m, TakeIn(d, m, slot, peer, written, payload), route, name, [payload]);
    } else {
      assert InTransit(d, TakeIn(d, m, slot, peer, written, payload), route, name) == InTransit(d, m, route, name);
      NothingMoves(d, m, TakeIn(d, m, slot, peer, written, payload), route, name);
    }
  }

  lemma ReplacedTransit(d: Deployment, m: Mesh, m': Mesh, i: int, j: int, l: Link, route: (int, int), name: Name)
    requires AllValid(d, m) && Valid(d.base, l) && m'.links == m.links[(i, j) := l] && m'.local == m.local && AllValid(d, m')
    ensures InTransit(d, m', route, name)
         == if route == (i, j) && i != j then UnderWay(d.base, l, name) else InTransit(d, m, route, name)
  {
  }

  lemma WriteMoves(d: Deployment, m: Mesh, e: Event, route: (int, int), name: Name)
    requires AllValid(d, m) && CanDo(d, m, e) && e.Write? && d.Route(name) == Some(route)
    ensures AllValid(d, Do(d, m, e)) && Moves(d, m, Do(d, m, e), route, name, TakenIn(d, e, route, name), [])
  {
    var written := Basename(e.raw);
    RouteIsPeer(d, written);
    var peer := d.Route(written).value.1;
    if peer == e.slot {
      LocalWriteMoves(d, m, e.slot, written, e.payload, route, name);
    } else if Acceptable(d.base, written, |e.payload|) {
      RemoteWriteMoves(d, m, e.slot, peer, written, e.payload, route, name);
    }
  }

  lemma RemoteReadMoves(d: Deployment, m: Mesh, slot: int, peer: int, asked: Name, route: (int, int), name: Name)
    requires AllValid(d, m) && slot != peer && QueueAt(m, slot, peer, asked) != [] && (asked == name ==> route == (peer, slot))
    ensures var m' := Serve(m, slot, peer, asked);
      AllValid(d, m') && Moves(d, m, m', route, name, [], if asked == name then [QueueAt(m, slot, peer, asked)[0]] else [])
  {
    var l := LinkOf(m, peer, slot);
    assert Valid(d.base, l);
    ReadTakesTheOldest(d.base, l, asked, name);
    ReplacedIsValid(d, m, Serve(m, slot, peer, asked), peer, slot, PipeLink.Read(l, asked));
    ReplacedTransit(d, m, Serve(m, slot, peer, asked), peer, slot, PipeLink.Read(l, asked), route, name);
    if asked == name {
      MovesOut(d, m, Serve(m, slot, peer, asked), route, name, QueueAt(m, slot, peer, asked)[0]);
    } else {
      NothingMoves(d, m, Serve(m, slot, peer, asked), route, name);
    }
  }

  lemma ReadMoves(d: Deployment, m: Mesh, e: Event, route: (int, int), name: Name)
    requires AllValid(d, m) && CanDo(d, m, e) && e.Read? && d.Route(name) == Some(route)
    ensures AllValid(d, Do(d, m, e)) && Moves(d, m, Do(d, m, e), route, name, [], HandedOut(m, e, route, name))
  {
    var asked := Basename(e.raw);
    RouteIsPeer(d, asked);
    var peer := d.Route(asked).value.0;
    if peer == e.slot {
      LocalReadMoves(d, m, e.slot, asked, route, name);
    } else {
      RemoteReadMoves(d, m, e.slot, peer, asked, route, name);
    }
  }

  /** Every step of a router or of a gateway thread, seen from any one pipe. */
  lemma StepMoves(d: Deployment, m: Mesh, e: Event, name: Name)
    requires AllValid(d, m) && CanDo(d, m, e) && d.Route(name).Some?
    ensures var route := d.Route(name).value;
      && AllValid(d, Do(d, m, e))
      && Moves(d, m, Do(d, m, e), route, name, TakenIn(d, e, route, name), HandedOut(m, e, route, name))
  {
    var route := d.Route(name).value;
    if e.Write? {
      WriteMoves(d, m, e, route, name);
    } else if e.Read? {
      ReadMoves(d, m, e, route, name);
    } else {
      GatewayMoves(d, m, e, route, name);
    }
  }

  lemma StepIsValid(d: Deployment, m: Mesh, e: Event)
    requires AllValid(d, m) && CanDo(d, m, e)
    ensures AllValid(d, Do(d, m, e))
  {
    if e.Write? || e.Read? {
      StepMoves(d, m, e, Basename(e.raw));
    } else {
      GatewayMoves(d, m, e, (0, 0), []);
    }
  }

  lemma StepInv(d: Deployment, m: Mesh, e: Event)
    requires Inv(d, m) && CanDo(d, m, e)
    ensures Inv(d, Do(d, m, e))
  {
    StepIsValid(d, m, e);
    forall name | d.Route(name).Some? ensures Conserved(d, Do(d, m, e), d.Route(name).value, name) {
      assert Conserved(d, m, d.Route(name).value, name);
      StepMoves(d, m, e, name);
      ConservedStep(d, m, Do(d, m, e), d.Route(name).value, name,
                    TakenIn(d, e, d.Route(name).value, name), HandedOut(m, e, d.Route(name).value, name));
    }
  }

  lemma ConservedStep(d: Deployment, m: Mesh, m': Mesh, route: (int, int), name: Name, more: seq<Payload>, less: seq<Payload>)
    requires AllValid(d, m) && AllValid(d, m') && Conserved(d, m, route, name) && Moves(d, m, m', route, name, more, less)
    ensures Conserved(d, m', route, name)
  {
    Shift(Waiting(m.delivered, name), InTransit(d, m, route, name), more, less, InTransit(d, m', route, name));
  }

  lemma Shift(delivered: seq<Payload>, under: seq<Payload>, more: seq<Payload>, less: seq<Payload>, left: seq<Payload>)
    requires under + more == less + left
    ensures (delivered + under) + more == (delivered + less) + left
  {
    assert (delivered + under) + more == delivered + (under + more);
    assert delivered + (less + left) == (delivered + less) + left;
  }

  // ----- Runs

  ghost predicate Run(d: Deployment, m: Mesh, events: seq<Event>, end: Mesh)
    decreases |events|
  {
    if events == [] then m == end
    else CanDo(d, m, events[0]) && Run(d, Do(d, m, events[0]), events[1..], end)
  }

  lemma {:induction false} RunInv(d: Deployment, m: Mesh, events: seq<Event>, end: Mesh)
    requires Inv(d, m) && Run(d, m, events, end)
    ensures Inv(d, end)
    decreases |events|
  {
    if events != [] {
      StepInv(d, m, events[0]);
      RunInv(d, Do(d, m, events[0]), events[1..], end);
    }
  }

  /** In every run, what was accepted for a pipe is what was delivered, followed by what is under way,
      in the order of the writes: nothing is lost, doubled, reordered or moved to another pipe.  So
      reads see a prefix of the writes, and all of them once nothing is under way. */
  lemma EveryPipeIsAFifo(d: Deployment, events: seq<Event>, end: Mesh, name: Name)
    requires Run(d, Start, events, end) && d.Route(name).Some?
    ensures AllValid(d, end)
    ensures Waiting(end.accepted, name) == Waiting(end.delivered, name) + InTransit(d, end, d.Route(name).value, name)
    ensures Waiting(end.delivered, name) <= Waiting(end.accepted, name)
    ensures InTransit(d, end, d.Route(name).value, name) == [] ==> Waiting(end.delivered, name) == Waiting(end.accepted, name)
  {
    StartInv(d);
    RunInv(d, Start, events, end);
    assert Conserved(d, end, d.Route(name).value, name);
  }

  /** A write in the hand of a gateway thread always finds room in a ring entry, and after sending it
      is still the front of the queue: exactly the sent write is taken off. */
  lemma SentWriteIsTheFront(d: Deployment, events: seq<Event>, end: Mesh, i: int, j: int)
    requires Run(d, Start, events, end)
    ensures var l := LinkOf(end, i, j);
      && (l.phase.Picked? ==> FRAME_BYTES + |l.phase.pending.write.name| + |l.phase.pending.write.payload| <= ENTRY_BYTES - d.base)
      && (l.phase.Sent? ==> l.outgoing == [l.phase.pending] + PipeLink.Complete(l).outgoing)
      && (forall k | 0 <= k < |l.ring| :: IsFrame(d.base, l.ring[k]))
  {
    StartInv(d);
    RunInv(d, Start, events, end);
    var l := LinkOf(end, i, j);
    assert Valid(d.base, l);
    if l.phase.Picked? {
      assert l.outgoing[0] in l.outgoing;
    } else if l.phase.Sent? {
      CompleteKeeps(d.base, l, []);
    }
  }

  /** The router's limit is safe exactly if the BaseIf header is small enough: then every payload it
      lets through is one the gateway takes, for every name of admissible length. */
  lemma RouterLimitFitsGateway(base: nat)
    ensures base <= 261 <==>
      forall name: Name, bytes: nat | 0 < |name| <= MAX_NAME && bytes <= MAX_REQUEST :: Acceptable(base, name, bytes)
  {
    if base > 261 {
      var name: Name := [0];
      assert !Acceptable(base, name, MAX_REQUEST);
    }
  }
}
