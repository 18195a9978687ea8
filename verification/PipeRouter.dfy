/** The router process of one worker, and the records it logs. */
module PipeRouter {
  import opened Options
  import opened PipeFrame
  import opened PipeLink
  import opened PipeRequest
  import opened PipeRouting
  import opened PipeWire
  import PipeMesh
  import T = TransferMetrics

  datatype Reason = BadHeader | ShortPayload | NoPeer

  /** `Waits` stands for a read whose payload is not at the head of its queue: it stays blocked. */
  datatype Answer =
    | Done
    | Delivered(payload: Payload)
    | Waits
    | Forwarded(port: int, request: seq<Byte>)
    | Refused(reason: Reason)

  class Router {
    const slot: int
    const coordinates: map<Coordinate, int>
    const ports: map<int, int>
    var localPipes: map<Name, seq<Payload>>

    constructor (slot: int, coordinates: map<Coordinate, int>, basePort: int)
      ensures this.slot == slot && this.coordinates == coordinates && localPipes == map[]
      ensures ports == map peer | peer in coordinates.Values && peer != slot :: basePort + peer
    {
      this.slot, this.coordinates := slot, coordinates;
      ports := map peer | peer in coordinates.Values && peer != slot :: basePort + peer;
      localPipes := map[];
    }

    /** A write is appended to its pipe.  A read gets the first payload of its pipe if that has the size
        it asks for, and waits otherwise.  No other pipe is touched. */
    method HandleLocal(operation: Byte, name: Name, payload: Payload, bytes: nat) returns (answer: Answer)
      modifies this`localPipes
      ensures (answer, localPipes) == Local(old(localPipes), operation, name, payload, bytes)
      ensures forall other | other != name :: Waiting(localPipes, other) == Waiting(old(localPipes), other)
      ensures answer.Done? <==> operation == LETTER_W
      ensures answer.Done? ==> Waiting(localPipes, name) == Waiting(old(localPipes), name) + [payload]
      ensures answer.Delivered? ==>
        |answer.payload| == bytes && Waiting(old(localPipes), name) == [answer.payload] + Waiting(localPipes, name)
      ensures !answer.Done? && !answer.Delivered? ==> answer == Waits && localPipes == old(localPipes)
      ensures answer.Waits? ==> Waiting(localPipes, name) == [] || |Waiting(localPipes, name)[0]| != bytes
    {
      var queue := Waiting(localPipes, name);
      if operation == LETTER_W {
        localPipes := localPipes[name := queue + [payload]];
        answer := Done;
      } else if queue != [] && |queue[0]| == bytes {
        localPipes := localPipes[name := queue[1..]];
        answer := Delivered(queue[0]);
      } else {
        answer := Waits;
      }
    }

    /** One request: all that a client sends on its connection. */
    method Handle(sent: seq<Byte>) returns (answer: Answer)
      requires forall peer | peer in coordinates.Values && peer != slot :: peer in ports
      modifies this`localPipes
      ensures (answer, localPipes) == Served(slot, coordinates, ports, old(localPipes), sent)
      ensures answer.Refused? || answer.Forwarded? || answer.Waits? ==> localPipes == old(localPipes)
      ensures answer.Done? ==> exists name, payload ::
        payload <= BehindLine(sent) && localPipes == old(localPipes)[name := Waiting(old(localPipes), name) + [payload]]
      ensures answer.Delivered? ==> exists name ::
        Waiting(old(localPipes), name) == [answer.payload] + Waiting(localPipes, name)
      ensures IsMalformed(LineOf(sent)) ==> answer == Refused(BadHeader)
      ensures forall operation, raw, bytes, body |
        sent == Header(operation, raw, bytes) + [NEWLINE] + body && IsHeader(operation, raw, bytes) ::
        IsAnswered(slot, coordinates, ports, old(localPipes), operation, raw, bytes, body, answer, localPipes)
      ensures answer.Forwarded? ==> exists peer | peer in coordinates.Values && peer != slot :: answer.port == ports[peer]
    {
      ClientsAreAnswered(slot, coordinates, ports, localPipes, sent);
      var body := BehindLine(sent);
      var request := RouterRequest(LineOf(sent), PipeMesh.MAX_REQUEST);
      if request.None? {
        return Refused(BadHeader);
      }
      var Request(operation, name, bytes) := request.value;
      if operation == LETTER_W && |body| < bytes {
        return Refused(ShortPayload);
      }
      var payload := if operation == LETTER_W then body[..bytes] else [];
      var peer := PeerFor(coordinates, if operation == LETTER_W then WriteTo else ReadFrom, name);
      if peer.None? {
        return Refused(NoPeer);
      }
      if peer.value == slot {
        answer := HandleLocal(operation, name, payload, bytes);
      } else {
        answer := Forwarded(ports[peer.value], Header(operation, name, bytes) + [NEWLINE] + payload);
      }
    }
  }

  function Local(pipes: map<Name, seq<Payload>>, operation: Byte, name: Name, payload: Payload, bytes: nat):
    (Answer, map<Name, seq<Payload>>)
  {
    var queue := Waiting(pipes, name);
    if operation == LETTER_W then (Done, pipes[name := queue + [payload]])
    else if queue != [] && |queue[0]| == bytes then (Delivered(queue[0]), pipes[name := queue[1..]])
    else (Waits, pipes)
  }

  function Served(
      slot: int, coordinates: map<Coordinate, int>, ports: map<int, int>, pipes: map<Name, seq<Payload>>, sent: seq<Byte>):
    (Answer, map<Name, seq<Payload>>)
    requires forall peer | peer in coordinates.Values && peer != slot :: peer in ports
  {
    match RouterRequest(LineOf(sent), PipeMesh.MAX_REQUEST)
    case None => (Refused(BadHeader), pipes)
    case Some(r) =>
      var body := BehindLine(sent);
      if r.operation == LETTER_W && |body| < r.bytes then (Refused(ShortPayload), pipes)
      else ServedRequest(slot, coordinates, ports, pipes, r, if r.operation == LETTER_W then body[..r.bytes] else [])
  }

  function ServedRequest(
      slot: int, coordinates: map<Coordinate, int>, ports: map<int, int>, pipes: map<Name, seq<Payload>>,
      r: Request, payload: Payload): (Answer, map<Name, seq<Payload>>)
    requires forall peer | peer in coordinates.Values && peer != slot :: peer in ports
  {
    match PeerFor(coordinates, if r.operation == LETTER_W then WriteTo else ReadFrom, r.name)
    case None => (Refused(NoPeer), pipes)
    case Some(peer) =>
      if peer == slot then Local(pipes, r.operation, r.name, payload, r.bytes)
      else (Forwarded(ports[peer], Header(r.operation, r.name, r.bytes) + [NEWLINE] + payload), pipes)
  }

  /** What a client sends for a request. */
  function Sent(operation: Byte, raw: Name, bytes: nat, payload: Payload): seq<Byte> {
    Header(operation, raw, bytes) + [NEWLINE] + payload
  }

  /** A request that a client can make, of a size that the router takes. */
  predicate IsRequest(operation: Byte, raw: Name, bytes: nat, payload: Payload) {
    && IsOperation(operation) && IsClientName(raw)
    && bytes <= PipeMesh.MAX_REQUEST && |Header(operation, raw, bytes)| <= LINE_BYTES
    && |payload| == if operation == LETTER_W then bytes else 0
  }

  /** A header that a client can write, of any size. */
  predicate IsHeader(operation: Byte, raw: Name, bytes: nat) {
    IsOperation(operation) && IsClientName(raw) && |Header(operation, raw, bytes)| <= LINE_BYTES
  }

  /** A line that is no header. */
  predicate IsMalformed(line: seq<Byte>) {
    var f := Split(line, SPACE);
    || |line| > LINE_BYTES || !IsAscii(line) || |f| != 3
    || (f[0] != [LETTER_W] && f[0] != [LETTER_R]) || !IsDigits(f[2])
  }

  /** The coordinate at the other end of a pipe, as it is written in its name. */
  function PeerIn(operation: Byte, name: Name): Option<Coordinate> {
    match ParsePipe(name)
    case None => None
    case Some(pipe) => Some(if operation == LETTER_W then pipe.destination else pipe.source)
  }

  /** What a client is to be answered whose header is followed by these bytes, case by case: refusals leave the
      pipes alone; a local write grows its pipe by exactly the payload; a local read gets the head of its
      pipe if that has its size, and waits otherwise; everything else goes to the gateway of the peer. */
  predicate IsAnswered(
      slot: int, coordinates: map<Coordinate, int>, ports: map<int, int>, pipes: map<Name, seq<Payload>>,
      operation: Byte, raw: Name, bytes: nat, body: seq<Byte>, answer: Answer, after: map<Name, seq<Payload>>)
  {
    var name, peer := Basename(raw), PeerIn(operation, Basename(raw));
    if bytes > PipeMesh.MAX_REQUEST then answer == Refused(BadHeader) && after == pipes
    else if operation == LETTER_W && |body| < bytes then answer == Refused(ShortPayload) && after == pipes
    else if peer.None? || peer.value !in coordinates then answer == Refused(NoPeer) && after == pipes
    else
      var other := coordinates[peer.value];
      if other != slot then
        && other in ports && after == pipes
        && answer == Forwarded(ports[other], Sent(operation, name, bytes, if operation == LETTER_W then body[..bytes] else []))
      else if operation == LETTER_W then answer == Done && after == pipes[name := Waiting(pipes, name) + [body[..bytes]]]
      else if Waiting(pipes, name) != [] && |Waiting(pipes, name)[0]| == bytes then
        && answer == Delivered(Waiting(pipes, name)[0])
        && after == pipes[name := Waiting(pipes, name)[1..]]
      else answer == Waits && after == pipes
  }

  lemma MalformedIsRefused(
      slot: int, coordinates: map<Coordinate, int>, ports: map<int, int>, pipes: map<Name, seq<Payload>>, sent: seq<Byte>)
    requires forall peer | peer in coordinates.Values && peer != slot :: peer in ports
    requires IsMalformed(LineOf(sent))
    ensures Served(slot, coordinates, ports, pipes, sent) == (Refused(BadHeader), pipes)
  {
  }

  lemma ClientIsAnswered(
      slot: int, coordinates: map<Coordinate, int>, ports: map<int, int>, pipes: map<Name, seq<Payload>>,
      operation: Byte, raw: Name, bytes: nat, body: seq<Byte>)
    requires forall peer | peer in coordinates.Values && peer != slot :: peer in ports
    requires IsHeader(operation, raw, bytes)
    ensures var (answer, after) := Served(slot, coordinates, ports, pipes, Sent(operation, raw, bytes, body));
      IsAnswered(slot, coordinates, ports, pipes, operation, raw, bytes, body, answer, after)
  {
    RouterUnderstands(operation, raw, bytes, PipeMesh.MAX_REQUEST);
    AsciiHeader(operation, raw, bytes);
    LineEnds(Header(operation, raw, bytes), body);
  }

  /** Every client is answered so, whatever it sends. */
  lemma ClientsAreAnswered(
      slot: int, coordinates: map<Coordinate, int>, ports: map<int, int>, pipes: map<Name, seq<Payload>>, sent: seq<Byte>)
    requires forall peer | peer in coordinates.Values && peer != slot :: peer in ports
    ensures var (answer, after) := Served(slot, coordinates, ports, pipes, sent);
      && (IsMalformed(LineOf(sent)) ==> answer == Refused(BadHeader))
      && forall operation, raw, bytes, body | sent == Header(operation, raw, bytes) + [NEWLINE] + body && IsHeader(operation, raw, bytes) ::
           IsAnswered(slot, coordinates, ports, pipes, operation, raw, bytes, body, answer, after)
  {
    if IsMalformed(LineOf(sent)) {
      MalformedIsRefused(slot, coordinates, ports, pipes, sent);
    }
    var (answer, after) := Served(slot, coordinates, ports, pipes, sent);
    forall operation, raw, bytes, body | sent == Header(operation, raw, bytes) + [NEWLINE] + body && IsHeader(operation, raw, bytes)
      ensures IsAnswered(slot, coordinates, ports, pipes, operation, raw, bytes, body, answer, after)
    {
      ClientIsAnswered(slot, coordinates, ports, pipes, operation, raw, bytes, body);
    }
  }

  lemma RequestIsServed(
      slot: int, coordinates: map<Coordinate, int>, ports: map<int, int>, pipes: map<Name, seq<Payload>>,
      operation: Byte, raw: Name, bytes: nat, payload: Payload)
    requires forall peer | peer in coordinates.Values && peer != slot :: peer in ports
    requires IsRequest(operation, raw, bytes, payload)
    ensures Served(slot, coordinates, ports, pipes, Sent(operation, raw, bytes, payload))
         == ServedRequest(slot, coordinates, ports, pipes, Request(operation, Basename(raw), bytes), payload)
  {
    RouterUnderstands(operation, raw, bytes, PipeMesh.MAX_REQUEST);
    AsciiHeader(operation, raw, bytes);
    LineEnds(Header(operation, raw, bytes), payload);
    assert payload[..|payload|] == payload;
  }

  /** The codec end to end: whatever follows on the connection, the gateway takes out of what the router
      forwards exactly the client's operation, the name without its directories, the size and the payload. */
  lemma ForwardedRequestArrives(base: nat, operation: Byte, raw: Name, bytes: nat, payload: Payload, more: seq<Byte>)
    requires IsRequest(operation, raw, bytes, payload) && ParsePipe(Basename(raw)).Some? && Acceptable(base, Basename(raw), bytes)
    ensures RequestIn(base, Sent(operation, Basename(raw), bytes, payload) + more)
         == Some((Request(operation, Basename(raw), bytes), payload))
  {
    PipeNamesHaveNoBlank(Basename(raw));
    RequestArrives(base, operation, Basename(raw), bytes, payload, more);
  }

  /** A client's write, at the worker of the pipe's source: the router does to its queues what the step
      of the mesh does, and otherwise hands the same write on to the gateway for the reader's worker,
      whose own parser gets it back. */
  lemma WriteIsMeshStep(
      d: PipeMesh.Deployment, m: PipeMesh.Mesh, slot: int, ports: map<int, int>, raw: Name, payload: Payload, more: seq<Byte>)
    requires forall peer | peer in d.slots.Values && peer != slot :: peer in ports
    requires IsRequest(LETTER_W, raw, |payload|, payload) && PipeMesh.CanDo(d, m, PipeMesh.Event.Write(slot, raw, payload))
    ensures var name, bytes := Basename(raw), |payload|;
      var peer := d.Route(name).value.1;
      var (answer, pipes) := Served(slot, d.slots, ports, PipeMesh.LocalOf(m, slot), Sent(LETTER_W, raw, bytes, payload));
      && pipes == PipeMesh.LocalOf(PipeMesh.Do(d, m, PipeMesh.Event.Write(slot, raw, payload)), slot)
      && (peer == slot ==> answer == Done)
      && (peer != slot ==> answer == Forwarded(ports[peer], Sent(LETTER_W, name, bytes, payload)))
      && (peer != slot && Acceptable(d.base, name, bytes) ==>
            RequestIn(d.base, answer.request + more) == Some((Request(LETTER_W, name, bytes), payload)))
  {
    var name := Basename(raw);
    PipeMesh.RouteIsPeer(d, name);
    RequestIsServed(slot, d.slots, ports, PipeMesh.LocalOf(m, slot), LETTER_W, raw, |payload|, payload);
    LocalPartOfWrite(d, m, slot, d.Route(name).value.1, name, payload);
    if Acceptable(d.base, name, |payload|) {
      ForwardedRequestArrives(d.base, LETTER_W, raw, |payload|, payload, more);
    }
  }

  lemma LocalPartOfWrite(d: PipeMesh.Deployment, m: PipeMesh.Mesh, slot: int, peer: int, name: Name, payload: Payload)
    ensures PipeMesh.LocalOf(PipeMesh.TakeIn(d, m, slot, peer, name, payload), slot)
         == if peer == slot then Local(PipeMesh.LocalOf(m, slot), LETTER_W, name, payload, |payload|).1 else PipeMesh.LocalOf(m, slot)
  {
  }

  /** A client's read of a local pipe gets the head of the queue exactly when the mesh can serve it. */
  lemma LocalReadIsMeshStep(d: PipeMesh.Deployment, m: PipeMesh.Mesh, slot: int, ports: map<int, int>, raw: Name, bytes: nat)
    requires forall peer | peer in d.slots.Values && peer != slot :: peer in ports
    requires IsRequest(LETTER_R, raw, bytes, []) && d.Route(Basename(raw)) == Some((slot, slot))
    ensures var e := PipeMesh.Event.Read(slot, raw, bytes);
      var (answer, pipes) := Served(slot, d.slots, ports, PipeMesh.LocalOf(m, slot), Sent(LETTER_R, raw, bytes, []));
      && (answer.Delivered? <==> PipeMesh.CanDo(d, m, e))
      && (answer.Delivered? ==> pipes == PipeMesh.LocalOf(PipeMesh.Do(d, m, e), slot))
      && (answer.Delivered? ==> Waiting(PipeMesh.LocalOf(m, slot), Basename(raw)) == [answer.payload] + Waiting(pipes, Basename(raw)))
      && (!answer.Delivered? ==> answer == Waits && pipes == PipeMesh.LocalOf(m, slot))
  {
    PipeMesh.RouteIsPeer(d, Basename(raw));
    RequestIsServed(slot, d.slots, ports, PipeMesh.LocalOf(m, slot), LETTER_R, raw, bytes, []);
  }

  /** A client's read of a remote pipe goes on to the gateway for the writer's worker, which gets it back. */
  lemma RemoteReadIsForwarded(
      d: PipeMesh.Deployment, slot: int, peer: int, ports: map<int, int>, pipes: map<Name, seq<Payload>>,
      raw: Name, bytes: nat, more: seq<Byte>)
    requires forall peer | peer in d.slots.Values && peer != slot :: peer in ports
    requires IsRequest(LETTER_R, raw, bytes, []) && d.Route(Basename(raw)) == Some((peer, slot)) && peer != slot
    ensures Served(slot, d.slots, ports, pipes, Sent(LETTER_R, raw, bytes, []))
         == (Forwarded(ports[peer], Sent(LETTER_R, Basename(raw), bytes, [])), pipes)
    ensures Acceptable(d.base, Basename(raw), bytes) ==>
      RequestIn(d.base, Sent(LETTER_R, Basename(raw), bytes, []) + more) == Some((Request(LETTER_R, Basename(raw), bytes), []))
  {
    PipeMesh.RouteIsPeer(d, Basename(raw));
    RequestIsServed(slot, d.slots, ports, pipes, LETTER_R, raw, bytes, []);
    if Acceptable(d.base, Basename(raw), bytes) {
      ForwardedRequestArrives(d.base, LETTER_R, raw, bytes, [], more);
    }
  }

  // ----- The records of the metric log

  function HostOf(physical: map<int, int>, slot: int): int {
    if slot in physical then physical[slot] else 0
  }

  function ScopeOf(physical: map<int, int>, slot: int, peer: int): T.Scope {
    if peer == slot then T.SameWorker
    else if HostOf(physical, slot) == HostOf(physical, peer) then T.SameHost
    else T.CrossHost
  }

  /** What a router writes when an operation has completed. */
  function RecordOf(
      physical: map<int, int>, slot: int, peer: int, operation: T.Operation, pipe: string, bytes: int,
      started: int, finished: int): T.Record
  {
    T.Record(operation, pipe, Some(bytes), Some(slot), Some(peer), Some(ScopeOf(physical, slot, peer)), Some(started), Some(finished))
  }

  /** A record, field by field.  It crosses hosts exactly if the two workers are different and the physical
      slots given for them are, too, where a worker without one counts as placed on slot 0. */
  lemma RecordByFields(
      physical: map<int, int>, slot: int, peer: int, operation: T.Operation, pipe: string, bytes: int, started: int, finished: int)
    ensures var r := RecordOf(physical, slot, peer, operation, pipe, bytes, started, finished);
      var here, there := if slot in physical then physical[slot] else 0, if peer in physical then physical[peer] else 0;
      && r.operation == operation && r.pipe == pipe && r.bytes == Some(bytes) && r.source == Some(slot) && r.peer == Some(peer)
      && r.started == Some(started) && r.finished == Some(finished)
      && (r.scope == Some(T.SameWorker) <==> slot == peer)
      && (r.scope == Some(T.CrossHost) <==> slot != peer && here != there)
      && (r.scope == Some(T.SameHost) <==> slot != peer && here == there)
  {
  }

  ghost predicate RouterLog(physical: map<int, int>, log: seq<T.Record>) {
    forall r | r in log :: exists slot, peer, started, finished, bytes ::
      r == RecordOf(physical, slot, peer, r.operation, r.pipe, bytes, started, finished)
  }

  /** Both ends of a pipe classify it alike, since they share the placement.  So in the log of the
      routers the exposed transport of every group is part of its blocking reads. */
  lemma RouterLogsAgree(physical: map<int, int>, log: seq<T.Record>)
    requires RouterLog(physical, log)
    ensures T.ScopesAgree(log)
  {
  }
}
