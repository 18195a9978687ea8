/** Message-passing processes on top of routers, gateways and rings.  Every run of the whole is a run of
    the abstract network of processes and channels, and when nothing moves any more, that network has come
    to its end. */
module PipeNetwork {
  import opened Options
  import opened Network
  import opened PipeFrame
  import L = PipeLink
  import R = PipeRouting
  import W = PipeWire
  import M = PipeMesh

  // ----- The pipes of the processes

  function Digits(n: int): (s: seq<Byte>)
    ensures R.IsInteger(s)
  {
    if n < 0 then
      var s := [R.MINUS] + W.Decimal(-n);
      assert s[1..] == W.Decimal(-n);
      s
    else W.Decimal(n)
  }

  function Number(s: seq<Byte>): int
    requires R.IsInteger(s)
  {
    if s[0] == R.MINUS then -(W.Value(s[1..]) as int) else W.Value(s)
  }

  lemma DigitsRoundTrip(n: int)
    ensures Number(Digits(n)) == n
  {
    W.DecimalRoundTrip(if n < 0 then -n else n);
    if n < 0 {
      assert Digits(n)[1..] == W.Decimal(-n);
    }
  }

  lemma DigitsAreUnique(n: int, m: int)
    requires Digits(n) == Digits(m)
    ensures n == m
  {
    DigitsRoundTrip(n);
    DigitsRoundTrip(m);
  }

  /** The coordinate under which a process is placed. */
  function Place(p: Chiplet): R.Coordinate {
    Digits(p.x) + [R.COMMA] + Digits(p.y)
  }

  /** The pipe from `p` to `q`. */
  function PipeOf(p: Chiplet, q: Chiplet): L.Name {
    R.PipeName(Digits(p.x), Digits(p.y), Digits(q.x), Digits(q.y))
  }

  lemma PipesAreUnique(p: Chiplet, q: Chiplet, p': Chiplet, q': Chiplet)
    requires PipeOf(p, q) == PipeOf(p', q')
    ensures p == p' && q == q'
  {
    R.PipeFields(Digits(p.x), Digits(p.y), Digits(q.x), Digits(q.y));
    R.PipeFields(Digits(p'.x), Digits(p'.y), Digits(q'.x), Digits(q'.y));
    var f := R.Split(PipeOf(p, q)[6..], R.UNDERSCORE);
    assert f[0] == Digits(p'.x) && f[1] == Digits(p'.y) && f[2] == Digits(q'.x) && f[3] == Digits(q'.y);
    DigitsAreUnique(p.x, p'.x);
    DigitsAreUnique(p.y, p'.y);
    DigitsAreUnique(q.x, q'.x);
    DigitsAreUnique(q.y, q'.y);
  }

  lemma PipeIsItsName(p: Chiplet, q: Chiplet)
    ensures R.Basename(PipeOf(p, q)) == PipeOf(p, q) != []
  {
    R.PipeFields(Digits(p.x), Digits(p.y), Digits(q.x), Digits(q.y));
    R.BasenameDropsDirectories([], PipeOf(p, q));
  }

  lemma PipeRoute(d: M.Deployment, p: Chiplet, q: Chiplet)
    ensures d.Route(PipeOf(p, q))
         == if Place(p) in d.slots && Place(q) in d.slots then Some((d.slots[Place(p)], d.slots[Place(q)])) else None
  {
    R.PipeNameRoundTrip(Digits(p.x), Digits(p.y), Digits(q.x), Digits(q.y));
  }

  /** All processes are placed, and the transport takes their pipe names with payloads of any size that
      the router takes. */
  predicate Deployed(d: M.Deployment, processes: set<Chiplet>) {
    && d.base <= 261
    && (forall p | p in processes :: Place(p) in d.slots)
    && (forall p, q | p in processes && q in processes :: |PipeOf(p, q)| <= MAX_NAME)
  }

  // ----- Processes and transport together

  /** How messages become bytes, and what the receiver at its place in the program makes of bytes. */
  datatype Codec<!S, !T> = Codec(encode: T -> L.Payload, decode: (Chiplet, S, L.Payload) -> T)

  datatype System<S> = System(locals: map<Chiplet, S>, mesh: M.Mesh)

  /** A process acts, or a gateway thread does. */
  datatype Move = Act(p: Chiplet) | Carry(e: M.Event)

  /** The request that a process makes to the router of its worker, if any. */
  function RequestOf<S, T>(P: Protocol<S, T>, C: Codec<S, T>, d: M.Deployment, p: Chiplet, l: S): Option<M.Event>
    requires Place(p) in d.slots
  {
    match P.intent(p, l)
    case Send(to, m) => Some(M.Event.Write(d.slots[Place(p)], PipeOf(p, to), C.encode(m)))
    case Receive(from, bytes) => Some(M.Event.Read(d.slots[Place(p)], PipeOf(from, p), bytes))
    case _ => None
  }

  ghost predicate CanAct<S, T>(P: Protocol<S, T>, C: Codec<S, T>, d: M.Deployment, s: System<S>, p: Chiplet) {
    && p in s.locals && Place(p) in d.slots && !P.intent(p, s.locals[p]).Halted?
    && var request := RequestOf(P, C, d, p, s.locals[p]);
       request.Some? ==> M.CanDo(d, s.mesh, request.value)
  }

  predicate IsCarry(e: M.Event) { !e.Write? && !e.Read? }

  ghost predicate Can<S, T>(P: Protocol<S, T>, C: Codec<S, T>, d: M.Deployment, s: System<S>, move: Move) {
    match move
    case Act(p) => CanAct(P, C, d, s, p)
    case Carry(e) => IsCarry(e) && M.CanDo(d, s.mesh, e)
  }

  /** The payload that a read gets. */
  function Head(d: M.Deployment, m: M.Mesh, from: Chiplet, p: Chiplet): L.Payload
    requires Place(p) in d.slots && Place(from) in d.slots
    requires M.QueueAt(m, d.slots[Place(p)], d.slots[Place(from)], PipeOf(from, p)) != []
  {
    M.QueueAt(m, d.slots[Place(p)], d.slots[Place(from)], PipeOf(from, p))[0]
  }

  lemma ReadHasHead(d: M.Deployment, m: M.Mesh, from: Chiplet, p: Chiplet, bytes: nat)
    requires Place(p) in d.slots && M.CanDo(d, m, M.Event.Read(d.slots[Place(p)], PipeOf(from, p), bytes))
    ensures Place(from) in d.slots && d.Route(PipeOf(from, p)) == Some((d.slots[Place(from)], d.slots[Place(p)]))
    ensures M.QueueAt(m, d.slots[Place(p)], d.slots[Place(from)], PipeOf(from, p)) != [] && |Head(d, m, from, p)| == bytes
  {
    PipeIsItsName(from, p);
    PipeRoute(d, from, p);
    M.RouteIsPeer(d, PipeOf(from, p));
  }

  ghost function Acted<S, T>(P: Protocol<S, T>, C: Codec<S, T>, d: M.Deployment, s: System<S>, p: Chiplet): System<S>
    requires CanAct(P, C, d, s, p)
  {
    var l := s.locals[p];
    match P.intent(p, l)
    case Receive(from, bytes) =>
      ReadHasHead(d, s.mesh, from, p, bytes);
      System(s.locals[p := P.accept(p, l, C.decode(p, l, Head(d, s.mesh, from, p)))],
             M.Do(d, s.mesh, RequestOf(P, C, d, p, l).value))
    case Send(_, _) => System(s.locals[p := P.after(p, l)], M.Do(d, s.mesh, RequestOf(P, C, d, p, l).value))
    case _ => s.(locals := s.locals[p := P.after(p, l)])
  }

  ghost function Made<S, T>(P: Protocol<S, T>, C: Codec<S, T>, d: M.Deployment, s: System<S>, move: Move): System<S>
    requires Can(P, C, d, s, move)
  {
    match move
    case Act(p) => Acted(P, C, d, s, p)
    case Carry(e) => s.(mesh := M.Do(d, s.mesh, e))
  }

  ghost function Moves<S, T>(P: Protocol<S, T>, C: Codec<S, T>, d: M.Deployment, s: System<S>, moves: seq<Move>): Option<System<S>>
    decreases |moves|
  {
    if moves == [] then Some(s)
    else if Can(P, C, d, s, moves[0]) then Moves(P, C, d, Made(P, C, d, s, moves[0]), moves[1..])
    else None
  }

  /** How often processes act. */
  function Acts(moves: seq<Move>): nat {
    if moves == [] then 0 else (if moves[0].Act? then 1 else 0) + Acts(moves[1..])
  }

  // ----- The refinement

  function Encoded<S, T>(C: Codec<S, T>, messages: seq<T>): (e: seq<L.Payload>)
    ensures |e| == |messages| && forall k | 0 <= k < |e| :: e[k] == C.encode(messages[k])
  {
    seq(|messages|, k requires 0 <= k < |messages| => C.encode(messages[k]))
  }

  /** What is under way in the pipe from `p` to `q` is what is in their channel. */
  ghost predicate Carries<S, T>(
      C: Codec<S, T>, d: M.Deployment, mesh: M.Mesh, channels: map<Channel, seq<T>>, p: Chiplet, q: Chiplet)
    requires M.AllValid(d, mesh)
  {
    match d.Route(PipeOf(p, q))
    case None => Queue(channels, p, q) == []
    case Some(route) => M.InTransit(d, mesh, route, PipeOf(p, q)) == Encoded(C, Queue(channels, p, q))
  }

  ghost predicate AllCarry<S, T>(C: Codec<S, T>, d: M.Deployment, mesh: M.Mesh, channels: map<Channel, seq<T>>) {
    M.AllValid(d, mesh) && forall p, q :: Carries(C, d, mesh, channels, p, q)
  }

  ghost predicate Matches<S, T>(C: Codec<S, T>, d: M.Deployment, sys: System<S>, s: State<S, T>) {
    sys.locals == s.locals && AllCarry(C, d, sys.mesh, s.channels)
  }

  predicate Sized<S, T>(P: Protocol<S, T>, C: Codec<S, T>, m: T) {
    |C.encode(m)| == P.bytes(m) <= M.MAX_REQUEST
  }

  /** The next step of a process survives the transport: what it sends has its size, fits the router and
      goes to a process, and it makes the right message of what it is about to receive. */
  ghost predicate Faithful<S, T>(P: Protocol<S, T>, C: Codec<S, T>, s: State<S, T>, p: Chiplet) {
    p in s.locals ==>
      match P.intent(p, s.locals[p])
      case Send(to, m) => to in s.locals && Sized(P, C, m)
      case Receive(from, bytes) =>
        Queue(s.channels, from, p) != [] ==>
          var head := Queue(s.channels, from, p)[0];
          Sized(P, C, head) && (P.bytes(head) == bytes ==> C.decode(p, s.locals[p], C.encode(head)) == head)
      case _ => true
  }

  lemma Appended<S, T>(C: Codec<S, T>, before: seq<L.Payload>, after: seq<L.Payload>, queue: seq<T>, message: T)
    requires before == Encoded(C, queue) && before + [C.encode(message)] == [] + after
    ensures after == Encoded(C, queue + [message])
  {
    assert after == [] + after;
    assert after == Encoded(C, queue) + [C.encode(message)];
  }

  lemma Dropped<S, T>(C: Codec<S, T>, before: seq<L.Payload>, after: seq<L.Payload>, queue: seq<T>)
    requires queue != [] && before == Encoded(C, queue) && before + [] == [C.encode(queue[0])] + after
    ensures after == Encoded(C, queue[1..])
  {
    assert after == (before + [])[1..];
  }

  lemma Unchanged(before: seq<L.Payload>, after: seq<L.Payload>)
    requires before + [] == [] + after
    ensures before == after
  {
    assert before == before + [] && after == [] + after;
  }

  /** From one state of the transport to another, the pipe takes in `more` and hands out `less`. */
  ghost predicate Flow(d: M.Deployment, m: M.Mesh, m': M.Mesh, a: Chiplet, b: Chiplet, more: seq<L.Payload>, less: seq<L.Payload>) {
    && M.AllValid(d, m) && M.AllValid(d, m')
    && var route := d.Route(PipeOf(a, b));
       route.Some? ==> M.InTransit(d, m, route.value, PipeOf(a, b)) + more == less + M.InTransit(d, m', route.value, PipeOf(a, b))
  }

  lemma StillCarries<S, T>(
      C: Codec<S, T>, d: M.Deployment, m: M.Mesh, m': M.Mesh, channels: map<Channel, seq<T>>, channels': map<Channel, seq<T>>,
      a: Chiplet, b: Chiplet)
    requires Flow(d, m, m', a, b, [], []) && Carries(C, d, m, channels, a, b)
    requires Queue(channels, a, b) == Queue(channels', a, b)
    ensures Carries(C, d, m', channels', a, b)
  {
    if d.Route(PipeOf(a, b)).Some? {
      var route := d.Route(PipeOf(a, b)).value;
      Unchanged(M.InTransit(d, m, route, PipeOf(a, b)), M.InTransit(d, m', route, PipeOf(a, b)));
    }
  }

  /** A gateway thread leaves every pipe as it is. */
  lemma CarryFlow(d: M.Deployment, m: M.Mesh, e: M.Event, a: Chiplet, b: Chiplet)
    requires M.AllValid(d, m) && M.CanDo(d, m, e) && IsCarry(e)
    ensures Flow(d, m, M.Do(d, m, e), a, b, [], [])
  {
    M.StepIsValid(d, m, e);
    if d.Route(PipeOf(a, b)).Some? {
      M.StepMoves(d, m, e, PipeOf(a, b));
    }
  }

  function WriteOf(d: M.Deployment, p: Chiplet, q: Chiplet, payload: L.Payload): M.Event
    requires Place(p) in d.slots
  {
    M.Event.Write(d.slots[Place(p)], PipeOf(p, q), payload)
  }

  function ReadOf(d: M.Deployment, p: Chiplet, q: Chiplet, bytes: nat): M.Event
    requires Place(q) in d.slots
  {
    M.Event.Read(d.slots[Place(q)], PipeOf(p, q), bytes)
  }

  lemma WriteFlow(d: M.Deployment, m: M.Mesh, p: Chiplet, q: Chiplet, payload: L.Payload, a: Chiplet, b: Chiplet)
    requires M.AllValid(d, m) && Place(p) in d.slots && M.CanDo(d, m, WriteOf(d, p, q, payload))
    requires Acceptable(d.base, PipeOf(p, q), |payload|)
    ensures Flow(d, m, M.Do(d, m, WriteOf(d, p, q, payload)), a, b, if (a, b) == (p, q) then [payload] else [], [])
  {
    PipeIsItsName(p, q);
    M.StepIsValid(d, m, WriteOf(d, p, q, payload));
    if d.Route(PipeOf(a, b)).Some? {
      M.StepMoves(d, m, WriteOf(d, p, q, payload), PipeOf(a, b));
    }
    if PipeOf(a, b) == PipeOf(p, q) {
      PipesAreUnique(a, b, p, q);
    }
  }

  lemma ReadFlow(d: M.Deployment, m: M.Mesh, p: Chiplet, q: Chiplet, bytes: nat, a: Chiplet, b: Chiplet)
    requires M.AllValid(d, m) && Place(q) in d.slots && M.CanDo(d, m, ReadOf(d, p, q, bytes))
    ensures Place(p) in d.slots && M.QueueAt(m, d.slots[Place(q)], d.slots[Place(p)], PipeOf(p, q)) != []
    ensures Flow(d, m, M.Do(d, m, ReadOf(d, p, q, bytes)), a, b, [], if (a, b) == (p, q) then [Head(d, m, p, q)] else [])
  {
    ReadHasHead(d, m, p, q, bytes);
    PipeIsItsName(p, q);
    M.StepIsValid(d, m, ReadOf(d, p, q, bytes));
    if d.Route(PipeOf(a, b)).Some? {
      M.StepMoves(d, m, ReadOf(d, p, q, bytes), PipeOf(a, b));
    }
    if PipeOf(a, b) == PipeOf(p, q) {
      PipesAreUnique(a, b, p, q);
    }
  }

  lemma SendCarries<S, T>(
      C: Codec<S, T>, d: M.Deployment, m: M.Mesh, m': M.Mesh, channels: map<Channel, seq<T>>, p: Chiplet, to: Chiplet, message: T)
    requires Flow(d, m, m', p, to, [C.encode(message)], [])
    requires Carries(C, d, m, channels, p, to) && d.Route(PipeOf(p, to)).Some?
    ensures Carries(C, d, m', channels[Channel(p, to) := Queue(channels, p, to) + [message]], p, to)
  {
    var route := d.Route(PipeOf(p, to)).value;
    Appended(C, M.InTransit(d, m, route, PipeOf(p, to)), M.InTransit(d, m', route, PipeOf(p, to)), Queue(channels, p, to), message);
  }

  /** A read gets the bytes of the message at the head of the channel. */
  lemma HeadIsFirst<S, T>(
      C: Codec<S, T>, d: M.Deployment, mesh: M.Mesh, channels: map<Channel, seq<T>>, from: Chiplet, p: Chiplet, bytes: nat)
    requires M.AllValid(d, mesh) && Place(p) in d.slots && M.CanDo(d, mesh, ReadOf(d, from, p, bytes))
    requires Carries(C, d, mesh, channels, from, p)
    ensures Place(from) in d.slots
    ensures M.QueueAt(mesh, d.slots[Place(p)], d.slots[Place(from)], PipeOf(from, p)) != []
    ensures Queue(channels, from, p) != [] && C.encode(Queue(channels, from, p)[0]) == Head(d, mesh, from, p)
  {
    ReadFlow(d, mesh, from, p, bytes, from, p);
    PipeRoute(d, from, p);
    var transit := M.InTransit(d, mesh, d.Route(PipeOf(from, p)).value, PipeOf(from, p));
    assert transit == Encoded(C, Queue(channels, from, p));
    assert transit[0] == Head(d, mesh, from, p);
  }

  lemma ReceiveCarries<S, T>(
      C: Codec<S, T>, d: M.Deployment, m: M.Mesh, m': M.Mesh, channels: map<Channel, seq<T>>, from: Chiplet, p: Chiplet)
    requires Queue(channels, from, p) != []
    requires Flow(d, m, m', from, p, [], [C.encode(Queue(channels, from, p)[0])])
    requires Carries(C, d, m, channels, from, p)
    ensures Carries(C, d, m', channels[Channel(from, p) := Queue(channels, from, p)[1..]], from, p)
  {
    var route := d.Route(PipeOf(from, p)).value;
    Dropped(C, M.InTransit(d, m, route, PipeOf(from, p)), M.InTransit(d, m', route, PipeOf(from, p)), Queue(channels, from, p));
  }

  lemma CarryMatches<S, T>(C: Codec<S, T>, d: M.Deployment, sys: System<S>, s: State<S, T>, e: M.Event)
    requires Matches(C, d, sys, s) && IsCarry(e) && M.CanDo(d, sys.mesh, e)
    ensures Matches(C, d, sys.(mesh := M.Do(d, sys.mesh, e)), s)
  {
    M.StepIsValid(d, sys.mesh, e);
    forall a, b ensures Carries(C, d, M.Do(d, sys.mesh, e), s.channels, a, b) {
      CarryFlow(d, sys.mesh, e, a, b);
      StillCarries(C, d, sys.mesh, M.Do(d, sys.mesh, e), s.channels, s.channels, a, b);
    }
  }

  lemma WriteCarries<S, T>(
      C: Codec<S, T>, d: M.Deployment, m: M.Mesh, channels: map<Channel, seq<T>>, p: Chiplet, to: Chiplet, message: T, a: Chiplet, b: Chiplet)
    requires AllCarry(C, d, m, channels)
    requires Place(p) in d.slots && M.CanDo(d, m, WriteOf(d, p, to, C.encode(message)))
    requires Acceptable(d.base, PipeOf(p, to), |C.encode(message)|)
    ensures var m' := M.Do(d, m, WriteOf(d, p, to, C.encode(message)));
      && M.AllValid(d, m')
      && Carries(C, d, m', channels[Channel(p, to) := Queue(channels, p, to) + [message]], a, b)
  {
    PipeIsItsName(p, to);
    WriteFlow(d, m, p, to, C.encode(message), a, b);
    SendOrNot(C, d, m, M.Do(d, m, WriteOf(d, p, to, C.encode(message))), channels, p, to, message, a, b);
  }

  lemma SendOrNot<S, T>(
      C: Codec<S, T>, d: M.Deployment, m: M.Mesh, m': M.Mesh, channels: map<Channel, seq<T>>,
      p: Chiplet, to: Chiplet, message: T, a: Chiplet, b: Chiplet)
    requires d.Route(PipeOf(p, to)).Some? && AllCarry(C, d, m, channels)
    requires Flow(d, m, m', a, b, if (a, b) == (p, to) then [C.encode(message)] else [], [])
    ensures Carries(C, d, m', channels[Channel(p, to) := Queue(channels, p, to) + [message]], a, b)
  {
    if (a, b) == (p, to) {
      SendCarries(C, d, m, m', channels, p, to, message);
    } else {
      StillCarries(C, d, m, m', channels, channels[Channel(p, to) := Queue(channels, p, to) + [message]], a, b);
    }
  }

  lemma WriteMatches<S, T>(
      C: Codec<S, T>, d: M.Deployment, m: M.Mesh, channels: map<Channel, seq<T>>, p: Chiplet, to: Chiplet, message: T)
    requires AllCarry(C, d, m, channels)
    requires Place(p) in d.slots && M.CanDo(d, m, WriteOf(d, p, to, C.encode(message)))
    requires Acceptable(d.base, PipeOf(p, to), |C.encode(message)|)
    ensures AllCarry(C, d, M.Do(d, m, WriteOf(d, p, to, C.encode(message))),
                     channels[Channel(p, to) := Queue(channels, p, to) + [message]])
  {
    var m' := M.Do(d, m, WriteOf(d, p, to, C.encode(message)));
    var channels' := channels[Channel(p, to) := Queue(channels, p, to) + [message]];
    M.StepIsValid(d, m, WriteOf(d, p, to, C.encode(message)));
    forall a, b ensures Carries(C, d, m', channels', a, b) {
      WriteCarries(C, d, m, channels, p, to, message, a, b);
    }
  }

  lemma SendMatches<S, T>(
      P: Protocol<S, T>, C: Codec<S, T>, d: M.Deployment, sys: System<S>, s: State<S, T>, p: Chiplet, to: Chiplet, m: T)
    requires Matches(C, d, sys, s) && CanAct(P, C, d, sys, p) && P.intent(p, s.locals[p]) == Send(to, m)
    requires Acceptable(d.base, PipeOf(p, to), |C.encode(m)|)
    ensures Enabled(P, s, p) && Matches(C, d, Acted(P, C, d, sys, p), Step(P, s, p))
  {
    WriteMatches(C, d, sys.mesh, s.channels, p, to, m);
  }

  lemma ReadCarries<S, T>(
      C: Codec<S, T>, d: M.Deployment, m: M.Mesh, channels: map<Channel, seq<T>>, from: Chiplet, p: Chiplet, bytes: nat, a: Chiplet, b: Chiplet)
    requires AllCarry(C, d, m, channels) && Queue(channels, from, p) != []
    requires Place(p) in d.slots && M.CanDo(d, m, ReadOf(d, from, p, bytes))
    ensures var m' := M.Do(d, m, ReadOf(d, from, p, bytes));
      && M.AllValid(d, m')
      && Carries(C, d, m', channels[Channel(from, p) := Queue(channels, from, p)[1..]], a, b)
  {
    ReadFlow(d, m, from, p, bytes, a, b);
    HeadIsFirst(C, d, m, channels, from, p, bytes);
    ReceiveOrNot(C, d, m, M.Do(d, m, ReadOf(d, from, p, bytes)), channels, from, p, a, b);
  }

  lemma ReceiveOrNot<S, T>(
      C: Codec<S, T>, d: M.Deployment, m: M.Mesh, m': M.Mesh, channels: map<Channel, seq<T>>,
      from: Chiplet, p: Chiplet, a: Chiplet, b: Chiplet)
    requires Queue(channels, from, p) != [] && AllCarry(C, d, m, channels)
    requires Flow(d, m, m', a, b, [], if (a, b) == (from, p) then [C.encode(Queue(channels, from, p)[0])] else [])
    ensures Carries(C, d, m', channels[Channel(from, p) := Queue(channels, from, p)[1..]], a, b)
  {
    if (a, b) == (from, p) {
      ReceiveCarries(C, d, m, m', channels, from, p);
    } else {
      StillCarries(C, d, m, m', channels, channels[Channel(from, p) := Queue(channels, from, p)[1..]], a, b);
    }
  }

  lemma ReadMatches<S, T>(
      C: Codec<S, T>, d: M.Deployment, m: M.Mesh, channels: map<Channel, seq<T>>, from: Chiplet, p: Chiplet, bytes: nat)
    requires AllCarry(C, d, m, channels) && Queue(channels, from, p) != []
    requires Place(p) in d.slots && M.CanDo(d, m, ReadOf(d, from, p, bytes))
    ensures AllCarry(C, d, M.Do(d, m, ReadOf(d, from, p, bytes)), channels[Channel(from, p) := Queue(channels, from, p)[1..]])
  {
    var m', channels' := M.Do(d, m, ReadOf(d, from, p, bytes)), channels[Channel(from, p) := Queue(channels, from, p)[1..]];
    M.StepIsValid(d, m, ReadOf(d, from, p, bytes));
    forall a, b ensures Carries(C, d, m', channels', a, b) {
      ReadCarries(C, d, m, channels, from, p, bytes, a, b);
    }
  }

  lemma ReceiveMatches<S, T>(
      P: Protocol<S, T>, C: Codec<S, T>, d: M.Deployment, sys: System<S>, s: State<S, T>, p: Chiplet, from: Chiplet, bytes: nat)
    requires Matches(C, d, sys, s) && CanAct(P, C, d, sys, p) && P.intent(p, s.locals[p]) == Receive(from, bytes)
    requires Faithful(P, C, s, p)
    ensures Enabled(P, s, p) && Matches(C, d, Acted(P, C, d, sys, p), Step(P, s, p))
  {
    ReadHasHead(d, sys.mesh, from, p, bytes);
    HeadIsFirst(C, d, sys.mesh, s.channels, from, p, bytes);
    ReadMatches(C, d, sys.mesh, s.channels, from, p, bytes);
  }

  lemma ActMatches<S, T>(P: Protocol<S, T>, C: Codec<S, T>, d: M.Deployment, sys: System<S>, s: State<S, T>, p: Chiplet)
    requires Matches(C, d, sys, s) && CanAct(P, C, d, sys, p) && Faithful(P, C, s, p) && Deployed(d, s.locals.Keys)
    ensures Enabled(P, s, p) && Matches(C, d, Acted(P, C, d, sys, p), Step(P, s, p))
  {
    match P.intent(p, s.locals[p]) {
      case Send(to, m) =>
        PipeIsItsName(p, to);
        SendMatches(P, C, d, sys, s, p, to, m);
      case Receive(from, bytes) =>
        ReceiveMatches(P, C, d, sys, s, p, from, bytes);
      case Internal =>
      case Halted =>
    }
  }

  /** All steps of all processes that the network could ever take survive the transport. */
  ghost predicate AllFaithful<S(!new), T(!new)>(P: Protocol<S, T>, C: Codec<S, T>, start: State<S, T>) {
    forall n: nat, s, p | Reaches(P, start, n, s) :: Faithful(P, C, s, p)
  }

  lemma MoveMatches<S(!new), T(!new)>(
      P: Protocol<S, T>, C: Codec<S, T>, d: M.Deployment, sys: System<S>, start: State<S, T>, n: nat, s: State<S, T>, move: Move)
    returns (t: State<S, T>)
    requires AllFaithful(P, C, start) && Reaches(P, start, n, s) && Deployed(d, s.locals.Keys)
    requires Matches(C, d, sys, s) && Can(P, C, d, sys, move)
    ensures Matches(C, d, Made(P, C, d, sys, move), t) && t.locals.Keys == s.locals.Keys
    ensures if move.Act? then Enabled(P, s, move.p) && t == Step(P, s, move.p) else t == s
    ensures Reaches(P, start, n + (if move.Act? then 1 else 0), t)
  {
    match move {
      case Act(p) =>
        ActMatches(P, C, d, sys, s, p);
        StepReaches(P, start, n, s, p);
        t := Step(P, s, p);
      case Carry(e) =>
        CarryMatches(C, d, sys, s, e);
        t := s;
    }
  }

  /** The processes that act, in this order. */
  function Actors(moves: seq<Move>): (order: seq<Chiplet>)
    ensures |order| == Acts(moves)
  {
    if moves == [] then [] else (if moves[0].Act? then [moves[0].p] else []) + Actors(moves[1..])
  }

  /** Every run of processes and transport is a run of the network, with a step for every action of a
      process and none for what the gateway threads do in between. */
  lemma {:induction false} RunMatches<S(!new), T(!new)>(
      P: Protocol<S, T>, C: Codec<S, T>, d: M.Deployment, sys: System<S>, moves: seq<Move>, end: System<S>,
      start: State<S, T>, n: nat, s: State<S, T>)
    returns (t: State<S, T>)
    requires AllFaithful(P, C, start) && Reaches(P, start, n, s) && Deployed(d, s.locals.Keys)
    requires Matches(C, d, sys, s) && Moves(P, C, d, sys, moves) == Some(end)
    ensures Run(P, s, Actors(moves)) == Some(t)
    ensures Reaches(P, start, n + Acts(moves), t) && Matches(C, d, end, t) && t.locals.Keys == s.locals.Keys
    decreases |moves|
  {
    if moves == [] {
      t := s;
    } else {
      var u := MoveMatches(P, C, d, sys, start, n, s, moves[0]);
      t := RunMatches(P, C, d, Made(P, C, d, sys, moves[0]), moves[1..], end,
                      start, n + (if moves[0].Act? then 1 else 0), u);
      if moves[0].Act? {
        Prepend(P, s, moves[0].p, Actors(moves[1..]));
      } else {
        assert [] + Actors(moves[1..]) == Actors(moves[1..]);
      }
    }
  }

  // ----- Standing still

  /** Nothing can move, but for a gateway thread that gives up its attempt to find a free ring entry. */
  ghost predicate Resting<S, T>(P: Protocol<S, T>, C: Codec<S, T>, d: M.Deployment, sys: System<S>) {
    forall move :: Can(P, C, d, sys, move) ==> move.Carry? && move.e.GiveUp?
  }

  predicate Drained(l: L.Link) { l.phase.Idle? && l.outgoing == [] && l.ring == [] }

  lemma LinkCanMove(d: M.Deployment, m: M.Mesh, i: int, j: int) returns (e: M.Event)
    requires M.AllValid(d, m) && d.base <= 261 && !Drained(M.LinkOf(m, i, j))
    ensures IsCarry(e) && !e.GiveUp? && M.CanDo(d, m, e)
  {
    var l := M.LinkOf(m, i, j);
    assert L.Valid(d.base, l);
    if l.phase.Sent? {
      e := M.Event.Complete(i, j);
    } else if l.ring != [] {
      e := M.Event.Poll(i, j);
      assert L.IsFrame(d.base, l.ring[0]);
    } else if l.phase.Idle? {
      e := M.Event.Pick(i, j);
    } else {
      var stale: seq<Byte> := seq(ENTRY_BYTES - d.base, _ => 0);
      L.TransmitKeeps(d.base, l, stale, []);
      e := M.Event.Transmit(i, j, stale);
    }
  }

  lemma RestingLink<S, T>(P: Protocol<S, T>, C: Codec<S, T>, d: M.Deployment, sys: System<S>, i: int, j: int)
    requires Resting(P, C, d, sys) && M.AllValid(d, sys.mesh) && d.base <= 261
    ensures Drained(M.LinkOf(sys.mesh, i, j))
  {
    if !Drained(M.LinkOf(sys.mesh, i, j)) {
      var e := LinkCanMove(d, sys.mesh, i, j);
      assert Can(P, C, d, sys, Carry(e));
    }
  }

  /** Then everything that was written waits at its reader. */
  lemma RestingTransit<S, T>(P: Protocol<S, T>, C: Codec<S, T>, d: M.Deployment, sys: System<S>, route: (int, int), name: L.Name)
    requires Resting(P, C, d, sys) && M.AllValid(d, sys.mesh) && d.base <= 261
    ensures M.InTransit(d, sys.mesh, route, name) == M.QueueAt(sys.mesh, route.1, route.0, name)
  {
    RestingLink(P, C, d, sys, route.0, route.1);
  }

  lemma RestingIsTerminal<S, T>(P: Protocol<S, T>, C: Codec<S, T>, d: M.Deployment, sys: System<S>, s: State<S, T>)
    requires Resting(P, C, d, sys) && Matches(C, d, sys, s) && Deployed(d, s.locals.Keys)
    requires forall p :: Faithful(P, C, s, p)
    ensures Terminal(P, s)
  {
    forall p ensures !Enabled(P, s, p) {
      if Enabled(P, s, p) {
        EnabledCanAct(P, C, d, sys, s, p);
        assert Can(P, C, d, sys, Act(p));
      }
    }
  }

  lemma EnabledCanAct<S, T>(P: Protocol<S, T>, C: Codec<S, T>, d: M.Deployment, sys: System<S>, s: State<S, T>, p: Chiplet)
    requires Resting(P, C, d, sys) && Matches(C, d, sys, s) && Deployed(d, s.locals.Keys)
    requires Faithful(P, C, s, p) && Enabled(P, s, p)
    ensures CanAct(P, C, d, sys, p)
  {
    match P.intent(p, s.locals[p]) {
      case Send(to, m) =>
        PipeIsItsName(p, to);
        PipeRoute(d, p, to);
      case Receive(from, bytes) =>
        HeadCanBeRead(P, C, d, sys, s, p, from, bytes);
      case Internal =>
    }
  }

  lemma HeadCanBeRead<S, T>(
      P: Protocol<S, T>, C: Codec<S, T>, d: M.Deployment, sys: System<S>, s: State<S, T>, p: Chiplet, from: Chiplet, bytes: nat)
    requires Resting(P, C, d, sys) && Matches(C, d, sys, s) && Deployed(d, s.locals.Keys)
    requires Faithful(P, C, s, p) && Enabled(P, s, p) && P.intent(p, s.locals[p]) == Receive(from, bytes)
    ensures M.CanDo(d, sys.mesh, ReadOf(d, from, p, bytes))
  {
    var queue := Queue(s.channels, from, p);
    assert Carries(C, d, sys.mesh, s.channels, from, p);
    PipeIsItsName(from, p);
    PipeRoute(d, from, p);
    var route := d.Route(PipeOf(from, p)).value;
    RestingTransit(P, C, d, sys, route, PipeOf(from, p));
    M.RouteIsPeer(d, PipeOf(from, p));
    assert M.QueueAt(sys.mesh, route.1, route.0, PipeOf(from, p)) == Encoded(C, queue);
  }

  /** The transport, empty. */
  lemma LaunchMatches<S, T>(C: Codec<S, T>, d: M.Deployment, locals: map<Chiplet, S>)
    ensures Matches(C, d, System(locals, M.Start), Quiet(locals))
  {
    var s: State<S, T> := Quiet(locals);
    forall p, q ensures Carries(C, d, M.Start, s.channels, p, q) {
      assert Encoded(C, []) == [];
    }
  }

  ghost predicate NothingUnderWay(d: M.Deployment, m: M.Mesh) {
    M.AllValid(d, m) &&
    forall p, q | d.Route(PipeOf(p, q)).Some? :: M.InTransit(d, m, d.Route(PipeOf(p, q)).value, PipeOf(p, q)) == []
  }

  lemma EndIsQuiet<S, T>(C: Codec<S, T>, d: M.Deployment, sys: System<S>, end: map<Chiplet, S>)
    requires Matches(C, d, sys, Quiet<S, T>(end))
    ensures NothingUnderWay(d, sys.mesh)
  {
    var s: State<S, T> := Quiet(end);
    forall p, q | d.Route(PipeOf(p, q)).Some? ensures M.InTransit(d, sys.mesh, d.Route(PipeOf(p, q)).value, PipeOf(p, q)) == [] {
      assert Carries(C, d, sys.mesh, s.channels, p, q);
    }
  }

  // ----- No run goes on forever, unless gateway threads keep trying in vain

  function GiveUps(moves: seq<Move>): nat {
    if moves == [] then 0 else (if moves[0].Carry? && moves[0].e.GiveUp? then 1 else 0) + GiveUps(moves[1..])
  }

  /** The events that it takes to clear a link: each write is picked, sent, taken off and received. */
  function Load(l: L.Link): nat {
    |l.ring| + if l.outgoing == [] || l.phase.Idle? then 4 * |l.outgoing|
               else if l.phase.Picked? then 4 * |l.outgoing| - 1 else 4 * |l.outgoing| - 3
  }

  ghost function Total(loads: map<(int, int), nat>): nat {
    if loads == map[] then 0
    else var k :| k in loads; loads[k] + Total(loads - {k})
  }

  lemma {:induction false} TotalWithout(loads: map<(int, int), nat>, k: (int, int))
    requires k in loads
    ensures Total(loads) == loads[k] + Total(loads - {k})
    decreases |loads|
  {
    var c :| c in loads && Total(loads) == loads[c] + Total(loads - {c});
    if c != k {
      TotalWithout(loads - {c}, k);
      TotalWithout(loads - {k}, c);
      assert loads - {c} - {k} == loads - {k} - {c};
    }
  }

  ghost function Loads(links: map<(int, int), L.Link>): map<(int, int), nat> {
    map k | k in links :: Load(links[k])
  }

  lemma ReplacedLoad(m: M.Mesh, k: (int, int), l: L.Link)
    ensures Total(Loads(m.links[k := l])) + Load(M.LinkOf(m, k.0, k.1)) == Total(Loads(m.links)) + Load(l)
  {
    var before, after := Loads(m.links), Loads(m.links[k := l]);
    TotalWithout(after, k);
    if k in m.links {
      TotalWithout(before, k);
      assert after - {k} == before - {k};
    } else {
      assert after - {k} == before;
    }
  }

  lemma CarryLoad(d: M.Deployment, m: M.Mesh, e: M.Event)
    requires M.AllValid(d, m) && M.CanDo(d, m, e) && IsCarry(e)
    ensures Total(Loads(M.Do(d, m, e).links)) + (if e.GiveUp? then 0 else 2) == Total(Loads(m.links)) + 1
  {
    var k, l := (e.i, e.j), M.LinkOf(m, e.i, e.j);
    assert L.Valid(d.base, l);
    match e {
      case Pick(_, _) => ReplacedLoad(m, k, L.Pick(l));
      case GiveUp(_, _) => ReplacedLoad(m, k, L.GiveUp(l));
      case Transmit(_, _, stale) => ReplacedLoad(m, k, L.Transmit(l, stale));
      case Complete(_, _) => ReplacedLoad(m, k, L.Complete(l));
      case Poll(_, _) => ReplacedLoad(m, k, L.Poll(d.base, l));
    }
  }

  lemma RequestLoad(d: M.Deployment, m: M.Mesh, e: M.Event)
    requires M.AllValid(d, m) && M.CanDo(d, m, e) && (e.Write? || e.Read?)
    ensures Total(Loads(M.Do(d, m, e).links)) <= Total(Loads(m.links)) + 4
  {
    var name := R.Basename(e.raw);
    M.RouteIsPeer(d, name);
    var route := d.Route(name).value;
    var l := M.LinkOf(m, route.0, route.1);
    assert L.Valid(d.base, l);
    if route.0 != route.1 {
      match e {
        case Write(_, _, payload) =>
          if Acceptable(d.base, name, |payload|) {
            ReplacedLoad(m, route, L.Enqueue(l, L.Pending(m.nextId, PipeFrame.Write.Write(name, payload))));
          }
        case Read(_, _, _) =>
          ReplacedLoad(m, route, L.Read(l, name));
      }
    }
  }

  lemma MoveLoad<S, T>(P: Protocol<S, T>, C: Codec<S, T>, d: M.Deployment, sys: System<S>, move: Move)
    requires M.AllValid(d, sys.mesh) && Can(P, C, d, sys, move)
    ensures var sys' := Made(P, C, d, sys, move);
      && M.AllValid(d, sys'.mesh)
      && Total(Loads(sys'.mesh.links)) + 1 <= Total(Loads(sys.mesh.links)) + 5 * Acts([move]) + 2 * GiveUps([move])
  {
    match move {
      case Act(p) =>
        var request := RequestOf(P, C, d, p, sys.locals[p]);
        if request.Some? {
          M.StepIsValid(d, sys.mesh, request.value);
          RequestLoad(d, sys.mesh, request.value);
        }
      case Carry(e) =>
        M.StepIsValid(d, sys.mesh, e);
        CarryLoad(d, sys.mesh, e);
    }
  }

  lemma {:induction false} RunIsShort<S, T>(
      P: Protocol<S, T>, C: Codec<S, T>, d: M.Deployment, sys: System<S>, moves: seq<Move>, end: System<S>)
    requires M.AllValid(d, sys.mesh) && Moves(P, C, d, sys, moves) == Some(end)
    ensures |moves| <= Total(Loads(sys.mesh.links)) + 5 * Acts(moves) + 2 * GiveUps(moves)
    decreases |moves|
  {
    if moves != [] {
      MoveLoad(P, C, d, sys, moves[0]);
      RunIsShort(P, C, d, Made(P, C, d, sys, moves[0]), moves[1..], end);
      assert Acts([moves[0]]) + Acts(moves[1..]) == Acts(moves) && GiveUps([moves[0]]) + GiveUps(moves[1..]) == GiveUps(moves);
    }
  }

  // ----- The main result

  lemma LaunchedNetwork<S(!new), T(!new)>(
      P: Protocol<S, T>, C: Codec<S, T>, d: M.Deployment, locals: map<Chiplet, S>, moves: seq<Move>, sys: System<S>)
    returns (t: State<S, T>)
    requires Deployed(d, locals.Keys) && AllFaithful(P, C, Quiet(locals))
    requires Moves(P, C, d, System(locals, M.Start), moves) == Some(sys)
    ensures Run(P, Quiet(locals), Actors(moves)) == Some(t) && Reaches(P, Quiet(locals), Acts(moves), t)
    ensures Matches(C, d, sys, t) && t.locals.Keys == locals.Keys
    ensures |moves| <= 5 * Acts(moves) + 2 * GiveUps(moves)
  {
    LaunchMatches(C, d, locals);
    assert Run(P, Quiet(locals), []) == Some(Quiet(locals));
    assert Reaches(P, Quiet(locals), 0, Quiet(locals));
    t := RunMatches(P, C, d, System(locals, M.Start), moves, sys, Quiet(locals), 0, Quiet(locals));
    RunIsShort(P, C, d, System(locals, M.Start), moves, sys);
  }

  /** If one run of the network ends, then processes over routers, gateways and rings take no more actions
      than this run has steps, nothing goes on forever but attempts to find a free ring entry, and as long as
      the processes are not at the end of that run, something can move.  At rest, all processes are where
      it ends, having acted in an order that the network allows, and nothing is left in any pipe. */
  lemma EveryRunComesToTheEnd<S(!new), T(!new)>(
      P: Protocol<S, T>, C: Codec<S, T>, d: M.Deployment, locals: map<Chiplet, S>, length: nat, end: map<Chiplet, S>,
      moves: seq<Move>, sys: System<S>)
    requires Deployed(d, locals.Keys) && AllFaithful(P, C, Quiet(locals))
    requires Reaches(P, Quiet(locals), length, Quiet(end)) && Terminal(P, Quiet(end))
    requires Moves(P, C, d, System(locals, M.Start), moves) == Some(sys)
    ensures Acts(moves) <= length && |moves| <= 5 * length + 2 * GiveUps(moves)
    ensures Resting(P, C, d, sys) ==> sys.locals == end && Acts(moves) == length && NothingUnderWay(d, sys.mesh)
    ensures Resting(P, C, d, sys) ==> Run(P, Quiet(locals), Actors(moves)) == Some(Quiet(end))
  {
    var t := LaunchedNetwork(P, C, d, locals, moves, sys);
    EveryRunEndsAlike(P, Quiet(locals), length, Quiet(end), Acts(moves), t);
    if Resting(P, C, d, sys) {
      RestingIsTerminal(P, C, d, sys, t);
      EndIsQuiet(C, d, sys, end);
      EveryRunEndsAlike(P, Quiet(locals), Acts(moves), t, length, Quiet(end));
    }
  }

  // ----- There are runs that come to rest

  lemma {:induction false} OneMoreMove<S, T>(
      P: Protocol<S, T>, C: Codec<S, T>, d: M.Deployment, sys: System<S>, moves: seq<Move>, end: System<S>, move: Move)
    requires Moves(P, C, d, sys, moves) == Some(end) && Can(P, C, d, end, move)
    ensures Moves(P, C, d, sys, moves + [move]) == Some(Made(P, C, d, end, move))
    decreases |moves|
  {
    if moves == [] {
      assert [] + [move] == [move] && [move][1..] == [];
      assert Moves(P, C, d, Made(P, C, d, sys, move), []) == Some(Made(P, C, d, sys, move));
    } else {
      assert (moves + [move])[1..] == moves[1..] + [move];
      OneMoreMove(P, C, d, Made(P, C, d, sys, moves[0]), moves[1..], end, move);
    }
  }

  lemma {:induction false} GiveUpsOfMore(moves: seq<Move>, move: Move)
    ensures GiveUps(moves + [move]) == GiveUps(moves) + GiveUps([move])
    decreases |moves|
  {
    if moves == [] {
      assert [] + [move] == [move];
    } else {
      assert (moves + [move])[1..] == moves[1..] + [move];
      GiveUpsOfMore(moves[1..], move);
    }
  }

  /** Any run goes on to rest, without a failed attempt at the ring. */
  lemma {:induction false} GoOnToRest<S(!new), T(!new)>(
      P: Protocol<S, T>, C: Codec<S, T>, d: M.Deployment, locals: map<Chiplet, S>, length: nat, end: map<Chiplet, S>,
      moves: seq<Move>, sys: System<S>)
    returns (all: seq<Move>, rest: System<S>)
    requires Deployed(d, locals.Keys) && AllFaithful(P, C, Quiet(locals))
    requires Reaches(P, Quiet(locals), length, Quiet(end)) && Terminal(P, Quiet(end))
    requires Moves(P, C, d, System(locals, M.Start), moves) == Some(sys)
    ensures Moves(P, C, d, System(locals, M.Start), all) == Some(rest) && Resting(P, C, d, rest)
    ensures moves <= all && GiveUps(all) == GiveUps(moves)
    decreases 5 * length + 2 * GiveUps(moves) - |moves|
  {
    if Resting(P, C, d, sys) {
      all, rest := moves, sys;
    } else {
      var move :| Can(P, C, d, sys, move) && !(move.Carry? && move.e.GiveUp?);
      OneMoreMove(P, C, d, System(locals, M.Start), moves, sys, move);
      GiveUpsOfMore(moves, move);
      EveryRunComesToTheEnd(P, C, d, locals, length, end, moves + [move], Made(P, C, d, sys, move));
      all, rest := GoOnToRest(P, C, d, locals, length, end, moves + [move], Made(P, C, d, sys, move));
    }
  }
}
