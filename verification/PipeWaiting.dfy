/** Processes whose reads really wait.  A read that cannot be served puts its reader to sleep on the
    condition of its gateway, or of its router; a payload that arrives wakes everybody who sleeps there, and
    taking a payload wakes nobody.  Since a process has one read outstanding, and is the only reader of its
    pipes, that is enough: nobody oversleeps, and every run comes to the end of the network. */
module PipeWaiting {
  import opened Options
  import opened Network
  import opened PipeNetwork
  import L = PipeLink
  import R = PipeRouting
  import M = PipeMesh

  /** The condition of the gateway on the link from `i` to `j` is `(i, j)`, that of the router of `i` is
      `(i, i)`.  A thread notifies after it has let go of its lock; `pending` has the conditions of which
      there are notifications to come. */
  datatype Waiting<S> = Waiting(sys: System<S>, asleep: set<Chiplet>, notified: set<Chiplet>, pending: set<(int, int)>)

  /** A gateway thread, or a process that does not receive, moves on; a process asks for a message, or
      looks again after it was woken; a condition is notified. */
  datatype Turn = Does(move: Move) | Asks(p: Chiplet) | Wakes(p: Chiplet) | Notifies(condition: (int, int))

  /** A process that stands at a receive which its router does not refuse. */
  predicate Reads<S, T>(P: Protocol<S, T>, d: M.Deployment, sys: System<S>, p: Chiplet) {
    p in sys.locals && Place(p) in d.slots &&
    match P.intent(p, sys.locals[p])
    case Receive(from, bytes) => Place(from) in d.slots && bytes <= M.MAX_REQUEST
    case _ => false
  }

  /** Where such a process sleeps. */
  function ConditionOf<S, T>(P: Protocol<S, T>, d: M.Deployment, sys: System<S>, p: Chiplet): (int, int)
    requires Reads(P, d, sys, p)
  {
    (d.slots[Place(P.intent(p, sys.locals[p]).from)], d.slots[Place(p)])
  }

  /** The condition that has to be notified after a move that lets a payload arrive. */
  function Arrival<S, T>(P: Protocol<S, T>, d: M.Deployment, sys: System<S>, move: Move): set<(int, int)> {
    match move
    case Carry(e) => if e.Poll? then {(e.i, e.j)} else {}
    case Act(p) =>
      if p !in sys.locals || Place(p) !in d.slots then {}
      else
        match P.intent(p, sys.locals[p])
        case Send(to, _) =>
          if Place(to) in d.slots && d.slots[Place(to)] == d.slots[Place(p)] then {(d.slots[Place(p)], d.slots[Place(p)])} else {}
        case _ => {}
  }

  ghost predicate CanTurn<S, T>(P: Protocol<S, T>, C: Codec<S, T>, d: M.Deployment, w: Waiting<S>, turn: Turn) {
    match turn
    case Does(move) => Can(P, C, d, w.sys, move) && (move.Act? ==> !P.intent(move.p, w.sys.locals[move.p]).Receive?)
    case Asks(p) => Reads(P, d, w.sys, p) && p !in w.asleep && p !in w.notified
    case Wakes(p) => p in w.notified
    case Notifies(condition) => condition in w.pending
  }

  /** Take the payload if it is there, or else sleep. */
  ghost function Look<S, T>(P: Protocol<S, T>, C: Codec<S, T>, d: M.Deployment, w: Waiting<S>, p: Chiplet): Waiting<S> {
    if CanAct(P, C, d, w.sys, p) then w.(sys := Acted(P, C, d, w.sys, p)) else w.(asleep := w.asleep + {p})
  }

  function SleepersAt<S, T>(P: Protocol<S, T>, d: M.Deployment, w: Waiting<S>, condition: (int, int)): set<Chiplet> {
    set p | p in w.asleep && Reads(P, d, w.sys, p) && ConditionOf(P, d, w.sys, p) == condition
  }

  ghost function Turned<S, T>(P: Protocol<S, T>, C: Codec<S, T>, d: M.Deployment, w: Waiting<S>, turn: Turn): Waiting<S>
    requires CanTurn(P, C, d, w, turn)
  {
    match turn
    case Does(move) => w.(sys := Made(P, C, d, w.sys, move), pending := w.pending + Arrival(P, d, w.sys, move))
    case Asks(p) => Look(P, C, d, w, p)
    case Wakes(p) => Look(P, C, d, w.(notified := w.notified - {p}), p)
    case Notifies(condition) =>
      var woken := SleepersAt(P, d, w, condition);
      w.(asleep := w.asleep - woken, notified := w.notified + woken, pending := w.pending - {condition})
  }

  /** The moves that are made in a turn. */
  ghost function MoveOf<S, T>(P: Protocol<S, T>, C: Codec<S, T>, d: M.Deployment, w: Waiting<S>, turn: Turn): seq<Move> {
    match turn
    case Does(move) => [move]
    case Asks(p) => if CanAct(P, C, d, w.sys, p) then [Act(p)] else []
    case Wakes(p) => if CanAct(P, C, d, w.sys, p) then [Act(p)] else []
    case Notifies(_) => []
  }

  /** What a turn leads to, with its moves, if it can be taken at all. */
  ghost function Turner<S, T>(P: Protocol<S, T>, C: Codec<S, T>, d: M.Deployment): (Waiting<S>, Turn) -> Option<(Waiting<S>, seq<Move>)> {
    (w: Waiting<S>, turn: Turn) =>
      if CanTurn(P, C, d, w, turn) then Some((Turned(P, C, d, w, turn), MoveOf(P, C, d, w, turn))) else None
  }

  /** Turn after turn: the end, and all moves. */
  ghost function Course<W>(turner: (W, Turn) -> Option<(W, seq<Move>)>, w: W, turns: seq<Turn>): Option<(W, seq<Move>)>
    decreases |turns|
  {
    if turns == [] then Some((w, []))
    else
      var first := turner(w, turns[0]);
      if first.None? then None
      else
        var rest := Course(turner, first.value.0, turns[1..]);
        if rest.None? then None else Some((rest.value.0, first.value.1 + rest.value.1))
  }

  // ----- One reader for every pipe

  /** Nobody else reads the pipe that a process waits on, and the process waits on no other. */
  lemma OneReaderPerPipe(from: Chiplet, p: Chiplet, from': Chiplet, p': Chiplet)
    requires PipeOf(from, p) == PipeOf(from', p')
    ensures p == p' && from == from'
  {
    PipesAreUnique(from, p, from', p');
  }

  /** An event that may change the head of a pipe at its reader. */
  predicate Touches(d: M.Deployment, e: M.Event, i: int, j: int, name: L.Name) {
    match e
    case Poll(a, b) => (a, b) == (i, j)
    case Write(slot, raw, _) => i == j == slot && d.Route(R.Basename(raw)) == Some((slot, slot))
    case Read(_, raw, _) => R.Basename(raw) == name
    case _ => false
  }

  lemma QueueStays(d: M.Deployment, m: M.Mesh, e: M.Event, i: int, j: int, name: L.Name)
    requires M.AllValid(d, m) && M.CanDo(d, m, e) && !Touches(d, e, i, j, name)
    ensures M.QueueAt(M.Do(d, m, e), j, i, name) == M.QueueAt(m, j, i, name)
  {
    if e.Write? {
      WriteStays(d, m, e, i, j, name);
    } else if e.Read? {
      ReadStays(d, m, e, i, j, name);
    } else if !e.Poll? {
      ThreadStays(d, m, e, i, j, name);
    }
  }

  lemma WriteStays(d: M.Deployment, m: M.Mesh, e: M.Event, i: int, j: int, name: L.Name)
    requires M.CanDo(d, m, e) && e.Write? && !Touches(d, e, i, j, name)
    ensures M.QueueAt(M.Do(d, m, e), j, i, name) == M.QueueAt(m, j, i, name)
  {
    M.RouteIsPeer(d, R.Basename(e.raw));
  }

  lemma ReadStays(d: M.Deployment, m: M.Mesh, e: M.Event, i: int, j: int, name: L.Name)
    requires M.CanDo(d, m, e) && e.Read? && !Touches(d, e, i, j, name)
    ensures M.QueueAt(M.Do(d, m, e), j, i, name) == M.QueueAt(m, j, i, name)
  {
    M.RouteIsPeer(d, R.Basename(e.raw));
  }

  lemma ThreadStays(d: M.Deployment, m: M.Mesh, e: M.Event, i: int, j: int, name: L.Name)
    requires M.CanDo(d, m, e) && IsCarry(e) && !e.Poll?
    ensures M.QueueAt(M.Do(d, m, e), j, i, name) == M.QueueAt(m, j, i, name)
  {
  }

  lemma SameHead(d: M.Deployment, m: M.Mesh, m': M.Mesh, from: Chiplet, p: Chiplet, bytes: nat)
    requires Place(p) in d.slots && Place(from) in d.slots
    requires M.QueueAt(m', d.slots[Place(p)], d.slots[Place(from)], PipeOf(from, p))
          == M.QueueAt(m, d.slots[Place(p)], d.slots[Place(from)], PipeOf(from, p))
    ensures M.CanDo(d, m', ReadOf(d, from, p, bytes)) <==> M.CanDo(d, m, ReadOf(d, from, p, bytes))
  {
    PipeIsItsName(from, p);
    PipeRoute(d, from, p);
    M.RouteIsPeer(d, PipeOf(from, p));
  }

  /** What a move does to the transport. */
  function EventOf<S, T>(P: Protocol<S, T>, C: Codec<S, T>, d: M.Deployment, sys: System<S>, move: Move): Option<M.Event> {
    match move
    case Carry(e) => Some(e)
    case Act(p) => if p in sys.locals && Place(p) in d.slots then RequestOf(P, C, d, p, sys.locals[p]) else None
  }

  /** A move that does not touch the pipe of a reader changes nothing for its read. */
  lemma UntouchedStays<S, T>(P: Protocol<S, T>, C: Codec<S, T>, d: M.Deployment, sys: System<S>, move: Move, p: Chiplet)
    requires M.AllValid(d, sys.mesh) && Can(P, C, d, sys, move) && move != Act(p) && Reads(P, d, sys, p)
    requires var e := EventOf(P, C, d, sys, move); e.Some? ==> !TouchesReader(P, d, sys, e.value, p)
    ensures CanAct(P, C, d, Made(P, C, d, sys, move), p) <==> CanAct(P, C, d, sys, p)
  {
    var Receive(from, bytes) := P.intent(p, sys.locals[p]);
    var e := EventOf(P, C, d, sys, move);
    if e.Some? {
      QueueStays(d, sys.mesh, e.value, d.slots[Place(from)], d.slots[Place(p)], PipeOf(from, p));
      SameHead(d, sys.mesh, M.Do(d, sys.mesh, e.value), from, p, bytes);
    }
  }

  predicate TouchesReader<S, T>(P: Protocol<S, T>, d: M.Deployment, sys: System<S>, e: M.Event, p: Chiplet)
    requires Reads(P, d, sys, p)
  {
    var from := P.intent(p, sys.locals[p]).from;
    Touches(d, e, d.slots[Place(from)], d.slots[Place(p)], PipeOf(from, p))
  }

  /** If another one's move lets a read be served that could not be before, then its payload has arrived. */
  lemma OnlyArrivalsServe<S, T>(P: Protocol<S, T>, C: Codec<S, T>, d: M.Deployment, sys: System<S>, move: Move, p: Chiplet)
    requires M.AllValid(d, sys.mesh) && Can(P, C, d, sys, move) && move != Act(p) && Reads(P, d, sys, p)
    requires CanAct(P, C, d, Made(P, C, d, sys, move), p) && !CanAct(P, C, d, sys, p)
    ensures ConditionOf(P, d, sys, p) in Arrival(P, d, sys, move)
  {
    var e := EventOf(P, C, d, sys, move);
    if e.None? || !TouchesReader(P, d, sys, e.value, p) {
      UntouchedStays(P, C, d, sys, move, p);
    } else {
      TouchIsArrival(P, C, d, sys, move, p);
    }
  }

  lemma TouchIsArrival<S, T>(P: Protocol<S, T>, C: Codec<S, T>, d: M.Deployment, sys: System<S>, move: Move, p: Chiplet)
    requires Can(P, C, d, sys, move) && move != Act(p) && Reads(P, d, sys, p)
    requires EventOf(P, C, d, sys, move).Some? && TouchesReader(P, d, sys, EventOf(P, C, d, sys, move).value, p)
    ensures ConditionOf(P, d, sys, p) in Arrival(P, d, sys, move)
  {
    if move.Act? {
      TouchesByAct(P, C, d, sys, move.p, P.intent(p, sys.locals[p]).from, p);
    }
  }

  lemma TouchesByAct<S, T>(
      P: Protocol<S, T>, C: Codec<S, T>, d: M.Deployment, sys: System<S>, q: Chiplet, from: Chiplet, p: Chiplet)
    requires CanAct(P, C, d, sys, q) && q != p && Place(p) in d.slots && Place(from) in d.slots
    requires EventOf(P, C, d, sys, Act(q)).Some?
    requires Touches(d, EventOf(P, C, d, sys, Act(q)).value, d.slots[Place(from)], d.slots[Place(p)], PipeOf(from, p))
    ensures (d.slots[Place(from)], d.slots[Place(p)]) in Arrival(P, d, sys, Act(q))
  {
    match P.intent(q, sys.locals[q]) {
      case Send(to, m) =>
        PipeIsItsName(q, to);
        PipeRoute(d, q, to);
      case Receive(from', bytes) =>
        PipeIsItsName(from', q);
        PipesAreUnique(from', q, from, p);
    }
  }

  // ----- Nobody oversleeps

  /** A sleeper whose payload is there is about to be notified. */
  ghost predicate NobodyOversleeps<S, T>(P: Protocol<S, T>, C: Codec<S, T>, d: M.Deployment, w: Waiting<S>) {
    forall p | p in w.asleep && Reads(P, d, w.sys, p) ::
      CanAct(P, C, d, w.sys, p) ==> ConditionOf(P, d, w.sys, p) in w.pending
  }

  ghost predicate Inv<S, T>(P: Protocol<S, T>, C: Codec<S, T>, d: M.Deployment, w: Waiting<S>) {
    && M.AllValid(d, w.sys.mesh) && w.asleep !! w.notified
    && (forall p | p in w.asleep || p in w.notified :: Reads(P, d, w.sys, p))
    && NobodyOversleeps(P, C, d, w)
  }

  lemma MoveIsValid<S, T>(P: Protocol<S, T>, C: Codec<S, T>, d: M.Deployment, sys: System<S>, move: Move)
    requires M.AllValid(d, sys.mesh) && Can(P, C, d, sys, move)
    ensures M.AllValid(d, Made(P, C, d, sys, move).mesh)
    ensures Made(P, C, d, sys, move).locals.Keys == sys.locals.Keys
    ensures forall p | p in sys.locals && move != Act(p) :: Made(P, C, d, sys, move).locals[p] == sys.locals[p]
  {
    MoveLoad(P, C, d, sys, move);
  }

  /** The rest sleeps on while something moves. */
  lemma MoveKeepsInv<S, T>(P: Protocol<S, T>, C: Codec<S, T>, d: M.Deployment, w: Waiting<S>, move: Move)
    requires Inv(P, C, d, w) && Can(P, C, d, w.sys, move)
    requires move.Act? ==> move.p !in w.asleep && move.p !in w.notified
    ensures Inv(P, C, d, w.(sys := Made(P, C, d, w.sys, move), pending := w.pending + Arrival(P, d, w.sys, move)))
  {
    var sys' := Made(P, C, d, w.sys, move);
    MoveIsValid(P, C, d, w.sys, move);
    forall p | p in w.asleep && CanAct(P, C, d, sys', p)
      ensures ConditionOf(P, d, sys', p) in w.pending + Arrival(P, d, w.sys, move)
    {
      if !CanAct(P, C, d, w.sys, p) {
        OnlyArrivalsServe(P, C, d, w.sys, move, p);
      }
    }
  }

  lemma LookKeepsInv<S, T>(P: Protocol<S, T>, C: Codec<S, T>, d: M.Deployment, w: Waiting<S>, p: Chiplet)
    requires Inv(P, C, d, w) && Reads(P, d, w.sys, p) && p !in w.asleep && p !in w.notified
    ensures Inv(P, C, d, Look(P, C, d, w, p))
  {
    if CanAct(P, C, d, w.sys, p) {
      MoveKeepsInv(P, C, d, w, Act(p));
      assert Made(P, C, d, w.sys, Act(p)) == Acted(P, C, d, w.sys, p);
      assert w.pending + Arrival(P, d, w.sys, Act(p)) == w.pending;
    }
  }

  lemma TurnKeepsInv<S, T>(P: Protocol<S, T>, C: Codec<S, T>, d: M.Deployment, w: Waiting<S>, turn: Turn)
    requires Inv(P, C, d, w) && CanTurn(P, C, d, w, turn)
    ensures Inv(P, C, d, Turned(P, C, d, w, turn))
  {
    match turn {
      case Does(move) =>
        MoveKeepsInv(P, C, d, w, move);
      case Asks(p) =>
        LookKeepsInv(P, C, d, w, p);
      case Wakes(p) =>
        LookKeepsInv(P, C, d, w.(notified := w.notified - {p}), p);
      case Notifies(_) =>
    }
  }

  /** What every turn keeps holds of every run. */
  lemma {:induction false} CourseKeeps<W(!new)>(
      turner: (W, Turn) -> Option<(W, seq<Move>)>, inv: W -> bool, w: W, turns: seq<Turn>, end: W, moves: seq<Move>)
    requires inv(w) && forall v, turn | inv(v) && turner(v, turn).Some? :: inv(turner(v, turn).value.0)
    requires Course(turner, w, turns) == Some((end, moves))
    ensures inv(end)
    decreases |turns|
  {
    if turns != [] {
      var first := turner(w, turns[0]).value;
      CourseKeeps(turner, inv, first.0, turns[1..], end, Course(turner, first.0, turns[1..]).value.1);
    }
  }

  /** In no run does a reader sleep in front of its payload, unless its notification is still to come. */
  lemma RunKeepsInv<S(!new), T>(
      P: Protocol<S, T>, C: Codec<S, T>, d: M.Deployment, w: Waiting<S>, turns: seq<Turn>, end: Waiting<S>, moves: seq<Move>)
    requires Inv(P, C, d, w) && Course(Turner(P, C, d), w, turns) == Some((end, moves))
    ensures Inv(P, C, d, end)
  {
    var inv := (v: Waiting<S>) => Inv(P, C, d, v);
    var turner := Turner(P, C, d);
    forall v, turn | inv(v) && turner(v, turn).Some? ensures inv(turner(v, turn).value.0) {
      TurnKeepsInv(P, C, d, v, turn);
    }
    CourseKeeps(turner, inv, w, turns, end, moves);
  }

  // ----- The refinement

  lemma {:induction false} MovesThen<S, T>(
      P: Protocol<S, T>, C: Codec<S, T>, d: M.Deployment, sys: System<S>, now: seq<Move>, between: System<S>, rest: seq<Move>)
    requires Moves(P, C, d, sys, now) == Some(between)
    ensures Moves(P, C, d, sys, now + rest) == Moves(P, C, d, between, rest)
    decreases |now|
  {
    if now == [] {
      assert now + rest == rest;
    } else {
      assert (now + rest)[1..] == now[1..] + rest;
      MovesThen(P, C, d, Made(P, C, d, sys, now[0]), now[1..], between, rest);
    }
  }

  lemma TurnIsMoves<S, T>(P: Protocol<S, T>, C: Codec<S, T>, d: M.Deployment, w: Waiting<S>, turn: Turn)
    requires CanTurn(P, C, d, w, turn)
    ensures Moves(P, C, d, w.sys, MoveOf(P, C, d, w, turn)) == Some(Turned(P, C, d, w, turn).sys)
  {
    var now := MoveOf(P, C, d, w, turn);
    if now != [] {
      OneMove(P, C, d, w.sys, now[0]);
    }
  }

  lemma OneMove<S, T>(P: Protocol<S, T>, C: Codec<S, T>, d: M.Deployment, sys: System<S>, move: Move)
    requires Can(P, C, d, sys, move)
    ensures Moves(P, C, d, sys, [move]) == Some(Made(P, C, d, sys, move))
  {
    OneMoreMove(P, C, d, sys, [], sys, move);
    assert [] + [move] == [move];
  }

  /** The moves of a run are a run of processes whose reads are served at once. */
  lemma {:induction false} TurnsAreMoves<S, T>(
      P: Protocol<S, T>, C: Codec<S, T>, d: M.Deployment, w: Waiting<S>, turns: seq<Turn>, end: Waiting<S>, moves: seq<Move>)
    requires Course(Turner(P, C, d), w, turns) == Some((end, moves))
    ensures Moves(P, C, d, w.sys, moves) == Some(end.sys)
    decreases |turns|
  {
    if turns != [] {
      var (next, now) := Turner(P, C, d)(w, turns[0]).value;
      var rest := Course(Turner(P, C, d), next, turns[1..]).value.1;
      TurnIsMoves(P, C, d, w, turns[0]);
      TurnsAreMoves(P, C, d, next, turns[1..], end, rest);
      MovesThen(P, C, d, w.sys, now, next.sys, rest);
    }
  }

  /** Multiplication, one at a time. */
  function Times(a: nat, b: nat): nat {
    if b == 0 then 0 else a + Times(a, b - 1)
  }

  lemma {:induction false} TimesOfSum(a: nat, b: nat, c: nat)
    ensures Times(a, b + c) == Times(a, b) + Times(a, c)
    decreases c
  {
    if c > 0 {
      TimesOfSum(a, b, c - 1);
    }
  }

  lemma {:induction false} TimesIsProduct(a: nat, b: nat)
    ensures Times(a, b) == a * b
    decreases b
  {
    if b > 0 {
      TimesIsProduct(a, b - 1);
      assert a * b == a * (b - 1) + a;
    }
  }

  datatype Count = Count(processes: nat, asleep: nat, pending: nat)

  function CountOf<S>(w: Waiting<S>): Count {
    Count(|w.sys.locals|, |w.asleep|, |w.pending|)
  }

  /** Who can still fall asleep, and whom the notifications to come can still wake. */
  function Restless(c: Count): int {
    c.processes - c.asleep + Times(c.processes + 1, c.pending)
  }

  /** So many turns, with so many moves, lead from one count to another. */
  predicate Pays(a: Count, turns: nat, moves: nat, b: Count) {
    a.processes == b.processes && turns + Restless(b) <= Restless(a) + Times(a.processes + 2, moves)
  }

  lemma MovePays(a: Count, b: Count)
    requires a.processes == b.processes && a.asleep == b.asleep && a.pending <= b.pending <= a.pending + 1
    ensures Pays(a, 1, 1, b)
  {
    assert Times(a.processes + 2, 1) == a.processes + 2 + Times(a.processes + 2, 0);
  }

  lemma SleepPays(a: Count, b: Count)
    requires b == a.(asleep := a.asleep + 1)
    ensures Pays(a, 1, 0, b)
  {
  }

  lemma NotifyPays(a: Count, b: Count, woken: nat)
    requires a.processes == b.processes && woken <= a.processes && b.asleep + woken == a.asleep && b.pending + 1 == a.pending
    ensures Pays(a, 1, 0, b)
  {
  }

  lemma PaysThen(a: Count, turns: nat, moves: nat, b: Count, turns': nat, moves': nat, c: Count)
    requires Pays(a, turns, moves, b) && Pays(b, turns', moves', c)
    ensures Pays(a, turns + turns', moves + moves', c)
  {
    TimesOfSum(a.processes + 2, moves, moves');
  }

  /** Nobody is counted twice. */
  predicate InPlace<S>(w: Waiting<S>) {
    w.asleep !! w.notified && w.asleep <= w.sys.locals.Keys && w.notified <= w.sys.locals.Keys
  }

  lemma TurnPays<S, T>(P: Protocol<S, T>, C: Codec<S, T>, d: M.Deployment, w: Waiting<S>, turn: Turn)
    requires InPlace(w) && CanTurn(P, C, d, w, turn)
    ensures InPlace(Turned(P, C, d, w, turn))
    ensures Pays(CountOf(w), 1, |MoveOf(P, C, d, w, turn)|, CountOf(Turned(P, C, d, w, turn)))
  {
    match turn {
      case Does(move) =>
        SameProcesses(P, C, d, w.sys, move);
        CountMove(P, C, d, w, move);
      case Asks(p) =>
        CountLook(P, C, d, w, p);
      case Wakes(p) =>
        CountLook(P, C, d, w.(notified := w.notified - {p}), p);
      case Notifies(condition) =>
        CountNotify(w, SleepersAt(P, d, w, condition), condition);
    }
  }

  lemma SameProcesses<S, T>(P: Protocol<S, T>, C: Codec<S, T>, d: M.Deployment, sys: System<S>, move: Move)
    requires Can(P, C, d, sys, move)
    ensures Made(P, C, d, sys, move).locals.Keys == sys.locals.Keys
  {
  }

  lemma CountMove<S, T>(P: Protocol<S, T>, C: Codec<S, T>, d: M.Deployment, w: Waiting<S>, move: Move)
    requires Can(P, C, d, w.sys, move)
    ensures Pays(CountOf(w), 1, 1, CountOf(w.(sys := Made(P, C, d, w.sys, move), pending := w.pending + Arrival(P, d, w.sys, move))))
  {
    SameProcesses(P, C, d, w.sys, move);
    AtMostOneArrival(P, d, w.sys, move);
    SameSize(w.sys.locals, Made(P, C, d, w.sys, move).locals);
    MorePending(w.pending, Arrival(P, d, w.sys, move));
    MovePays(CountOf(w), CountOf(w.(sys := Made(P, C, d, w.sys, move), pending := w.pending + Arrival(P, d, w.sys, move))));
  }

  lemma AtMostOneArrival<S, T>(P: Protocol<S, T>, d: M.Deployment, sys: System<S>, move: Move)
    ensures |Arrival(P, d, sys, move)| <= 1
  {
  }

  lemma MorePending(pending: set<(int, int)>, more: set<(int, int)>)
    requires |more| <= 1
    ensures |pending| <= |pending + more| <= |pending| + 1
  {
    AtMost(pending, pending + more);
    assert |pending + more| == |pending| + |more| - |pending * more|;
  }

  lemma CountLook<S, T>(P: Protocol<S, T>, C: Codec<S, T>, d: M.Deployment, w: Waiting<S>, p: Chiplet)
    requires InPlace(w) && p in w.sys.locals && p !in w.asleep && p !in w.notified
    ensures InPlace(Look(P, C, d, w, p))
    ensures Pays(CountOf(w), 1, if CanAct(P, C, d, w.sys, p) then 1 else 0, CountOf(Look(P, C, d, w, p)))
  {
    if CanAct(P, C, d, w.sys, p) {
      SameProcesses(P, C, d, w.sys, Act(p));
      SameSize(w.sys.locals, Acted(P, C, d, w.sys, p).locals);
      MovePays(CountOf(w), CountOf(Look(P, C, d, w, p)));
    } else {
      SleepPays(CountOf(w), CountOf(Look(P, C, d, w, p)));
    }
  }

  lemma CountNotify<S>(w: Waiting<S>, woken: set<Chiplet>, condition: (int, int))
    requires condition in w.pending && woken <= w.asleep <= w.sys.locals.Keys
    ensures Pays(CountOf(w), 1, 0,
                 CountOf(w.(asleep := w.asleep - woken, notified := w.notified + woken, pending := w.pending - {condition})))
  {
    AtMost(w.asleep, w.sys.locals.Keys);
    AtMost(woken, w.asleep);
    assert |w.sys.locals.Keys| == |w.sys.locals|;
    NotifyPays(CountOf(w), CountOf(w.(asleep := w.asleep - woken, notified := w.notified + woken, pending := w.pending - {condition})),
               |woken|);
  }

  lemma AwakeCount<S>(locals: map<Chiplet, S>)
    ensures InPlace(Awake(locals)) && CountOf(Awake(locals)) == Count(|locals|, 0, 0)
  {
  }

  lemma FewAsleep<S>(w: Waiting<S>)
    requires InPlace(w)
    ensures CountOf(w).asleep <= CountOf(w).processes
  {
    AtMost(w.asleep, w.sys.locals.Keys);
    assert |w.sys.locals.Keys| == |w.sys.locals|;
  }

  lemma SameSize<S>(a: map<Chiplet, S>, b: map<Chiplet, S>)
    requires a.Keys == b.Keys
    ensures |a| == |b|
  {
    assert |a.Keys| == |a| && |b.Keys| == |b|;
  }

  lemma AtMost<S>(a: set<S>, b: set<S>)
    requires a <= b
    ensures |a| <= |b|
  {
    assert b == a + (b - a);
  }

  /** A turn pays for itself. */
  ghost predicate IsFrugal<W(!new)>(turner: (W, Turn) -> Option<(W, seq<Move>)>, inv: W -> bool, count: W -> Count) {
    forall w, turn | inv(w) && turner(w, turn).Some? ::
      var (next, now) := turner(w, turn).value; inv(next) && Pays(count(w), 1, |now|, count(next))
  }

  /** Sleeping and waking does not go on forever by itself. */
  lemma {:induction false} TurnsAreFew<W(!new)>(
      turner: (W, Turn) -> Option<(W, seq<Move>)>, inv: W -> bool, count: W -> Count,
      w: W, turns: seq<Turn>, end: W, moves: seq<Move>)
    requires IsFrugal(turner, inv, count) && inv(w) && Course(turner, w, turns) == Some((end, moves))
    ensures inv(end) && Pays(count(w), |turns|, |moves|, count(end))
    decreases |turns|
  {
    if turns != [] {
      var (next, now) := turner(w, turns[0]).value;
      var rest := Course(turner, next, turns[1..]).value.1;
      TurnsAreFew(turner, inv, count, next, turns[1..], end, rest);
      PaysThen(count(w), 1, |now|, count(next), |turns| - 1, |rest|, count(end));
    }
  }

  lemma TurnerIsFrugal<S(!new), T>(P: Protocol<S, T>, C: Codec<S, T>, d: M.Deployment)
    ensures IsFrugal(Turner(P, C, d), InPlace<S>, CountOf<S>)
  {
    forall w: Waiting<S>, turn | InPlace(w) && Turner(P, C, d)(w, turn).Some?
      ensures var (next, now) := Turner(P, C, d)(w, turn).value; InPlace(next) && Pays(CountOf(w), 1, |now|, CountOf(next))
    {
      TurnPays(P, C, d, w, turn);
    }
  }

  lemma TurnsArePaid<S(!new), T>(
      P: Protocol<S, T>, C: Codec<S, T>, d: M.Deployment, w: Waiting<S>, turns: seq<Turn>, end: Waiting<S>, moves: seq<Move>)
    returns (count: Count)
    requires InPlace(w) && Course(Turner(P, C, d), w, turns) == Some((end, moves))
    ensures Pays(CountOf(w), |turns|, |moves|, count) && count.asleep <= count.processes
  {
    TurnerIsFrugal(P, C, d);
    TurnsAreFew(Turner(P, C, d), InPlace<S>, CountOf<S>, w, turns, end, moves);
    FewAsleep(end);
    count := CountOf(end);
  }

  /** Each process falls asleep once, and everybody may once more for each move. */
  predicate IsBounded(processes: nat, turns: nat, moves: nat) {
    turns <= processes + (processes + 2) * moves
  }

  lemma PaidInAll(processes: nat, turns: nat, moves: nat, end: Count)
    requires Pays(Count(processes, 0, 0), turns, moves, end) && end.asleep <= end.processes
    ensures IsBounded(processes, turns, moves)
  {
    TimesIsProduct(processes + 2, moves);
  }

  // ----- The main result

  /** Nobody can take a turn, but for a gateway thread that gives up on the ring. */
  ghost predicate Settled<S, T>(P: Protocol<S, T>, C: Codec<S, T>, d: M.Deployment, w: Waiting<S>) {
    forall turn :: CanTurn(P, C, d, w, turn) ==> turn.Does? && turn.move.Carry? && turn.move.e.GiveUp?
  }

  /** Then no reader can be served. */
  lemma SettledIsResting<S, T>(P: Protocol<S, T>, C: Codec<S, T>, d: M.Deployment, w: Waiting<S>)
    requires Inv(P, C, d, w) && Settled(P, C, d, w)
    ensures Resting(P, C, d, w.sys)
  {
    forall move | Can(P, C, d, w.sys, move) ensures move.Carry? && move.e.GiveUp? {
      if move.Act? && P.intent(move.p, w.sys.locals[move.p]).Receive? {
        ServedTakesTurn(P, C, d, w, move.p);
      } else {
        assert CanTurn(P, C, d, w, Does(move));
      }
    }
  }

  lemma ServedTakesTurn<S, T>(P: Protocol<S, T>, C: Codec<S, T>, d: M.Deployment, w: Waiting<S>, p: Chiplet)
    requires Inv(P, C, d, w) && CanAct(P, C, d, w.sys, p) && P.intent(p, w.sys.locals[p]).Receive?
    ensures exists turn :: CanTurn(P, C, d, w, turn) && !turn.Does?
  {
    var Receive(from, bytes) := P.intent(p, w.sys.locals[p]);
    ReadHasHead(d, w.sys.mesh, from, p, bytes);
    assert Reads(P, d, w.sys, p);
    var turn := if p in w.asleep then Notifies(ConditionOf(P, d, w.sys, p)) else if p in w.notified then Wakes(p) else Asks(p);
    assert CanTurn(P, C, d, w, turn);
  }

  /** The processes at their start, nobody asleep. */
  function Awake<S>(locals: map<Chiplet, S>): Waiting<S> {
    Waiting(System(locals, M.Start), {}, {}, {})
  }

  /** In any run, nobody sleeps in front of a payload without a notification to come. */
  lemma EveryRunIsWatchful<S(!new), T>(
      P: Protocol<S, T>, C: Codec<S, T>, d: M.Deployment, locals: map<Chiplet, S>, turns: seq<Turn>, w: Waiting<S>, moves: seq<Move>)
    requires Course(Turner(P, C, d), Awake(locals), turns) == Some((w, moves))
    ensures Inv(P, C, d, w)
  {
    LaunchMatches<S, T>(C, d, locals);
    RunKeepsInv(P, C, d, Awake(locals), turns, w, moves);
  }

  /** Whoever waits has few turns beside the moves. */
  lemma EveryRunIsBounded<S(!new), T>(
      P: Protocol<S, T>, C: Codec<S, T>, d: M.Deployment, locals: map<Chiplet, S>, turns: seq<Turn>, w: Waiting<S>, moves: seq<Move>)
    requires Course(Turner(P, C, d), Awake(locals), turns) == Some((w, moves))
    ensures IsBounded(|locals|, |turns|, |moves|)
  {
    var count := TurnsArePaid(P, C, d, Awake(locals), turns, w, moves);
    AwakeCount(locals);
    PaidInAll(|locals|, |turns|, |moves|, count);
  }

  /** If one run of the network ends, then processes whose reads wait come to this end, too: their turns
      are bounded, except for failed attempts at the ring, and when everything has settled they are all at
      the end, nobody is asleep in front of a payload, and nothing is under way. */
  lemma EveryRunComesToTheEnd<S(!new), T(!new)>(
      P: Protocol<S, T>, C: Codec<S, T>, d: M.Deployment, locals: map<Chiplet, S>, length: nat, end: map<Chiplet, S>,
      turns: seq<Turn>, w: Waiting<S>, moves: seq<Move>)
    requires Deployed(d, locals.Keys) && AllFaithful(P, C, Quiet(locals))
    requires Reaches(P, Quiet(locals), length, Quiet(end)) && Terminal(P, Quiet(end))
    requires Course(Turner(P, C, d), Awake(locals), turns) == Some((w, moves))
    ensures Acts(moves) <= length && |moves| <= 5 * length + 2 * GiveUps(moves)
    ensures IsBounded(|locals|, |turns|, |moves|)
    ensures NobodyOversleeps(P, C, d, w)
    ensures Settled(P, C, d, w) ==> w.sys.locals == end && NothingUnderWay(d, w.sys.mesh)
    ensures Settled(P, C, d, w) ==> Run(P, Quiet(locals), Actors(moves)) == Some(Quiet(end))
  {
    EveryRunIsWatchful(P, C, d, locals, turns, w, moves);
    EveryRunIsBounded(P, C, d, locals, turns, w, moves);
    TurnsAreMoves(P, C, d, Awake(locals), turns, w, moves);
    PipeNetwork.EveryRunComesToTheEnd(P, C, d, locals, length, end, moves, w.sys);
    if Settled(P, C, d, w) {
      SettledIsResting(P, C, d, w);
    }
  }
}
