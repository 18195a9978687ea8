/** The block GEMM over routers, gateways and rings. */
module GemmTransport {
  import opened Options
  import opened Network
  import opened PipeFrame
  import opened PipeNetwork
  import opened GemmBlocks
  import opened GemmProtocol
  import opened Memory
  import M = PipeMesh
  import W = PipeWaiting

  // ----- Messages as bytes

  function Encode(m: Message): (b: seq<Byte>)
    ensures |b| == Bytes(m)
  {
    match m
    case Work(iteration, rowBegin, rows) => Longs([iteration, rowBegin, rows])
    case BlockA(values) => Longs(values)
    case MatrixB(values) => Longs(values)
    case BlockC(values) => Longs(values)
  }

  /** What a process at this place of its program takes the bytes for. */
  function Decode(l: Local, b: seq<Byte>): Message {
    var values := FromLongs(b);
    match l
    case Collect(_, _) => BlockC(values)
    case AwaitA(_) => BlockA(values)
    case AwaitB(_, _) => MatrixB(values)
    case _ => if |values| == 3 then Work(values[0], values[1], values[2]) else Work(0, 0, 0)
  }

  function CodecOf(): Codec<Local, Message> {
    Codec(m => Encode(m), (c, l, b) => Decode(l, b))
  }

  predicate AllLong(values: seq<int>) {
    forall k | 0 <= k < |values| :: IsLong(values[k])
  }

  predicate InRange(m: Message) {
    if m.Work? then IsLong(m.iteration) && IsLong(m.rowBegin) && IsLong(m.rows) else AllLong(m.values)
  }

  lemma MessageRoundTrip(l: Local, m: Message)
    requires Wants(l, m) && InRange(m)
    ensures Decode(l, Encode(m)) == m
  {
    if m.Work? {
      LongsRoundTrip([m.iteration, m.rowBegin, m.rows]);
    } else {
      LongsRoundTrip(m.values);
    }
  }

  // ----- Numbers stay in range

  predicate Within(values: seq<int>, bound: int) {
    forall k | 0 <= k < |values| :: 0 <= values[k] <= bound
  }

  /** The entries of the matrices of this GEMM. */
  predicate IsModest(m: Message) {
    match m
    case Work(iteration, rowBegin, rows) => -1 <= iteration <= 0 && 0 <= rowBegin <= GLOBAL_ROWS && 0 <= rows <= GLOBAL_ROWS
    case BlockA(values) => Within(values, GLOBAL_ROWS)
    case MatrixB(values) => Within(values, COLUMNS)
    case BlockC(values) => Within(values, INNER * (GLOBAL_ROWS * COLUMNS))
  }

  predicate Holds(ranks: nat, l: Local) {
    match l
    case SendA(rank) => rank < ranks
    case AwaitA(rows) => rows <= RowsPerRank(ranks)
    case AwaitB(_, a) => Within(a, GLOBAL_ROWS)
    case Reply(c) => Within(c, INNER * (GLOBAL_ROWS * COLUMNS))
    case _ => true
  }

  lemma ModestIsInRange(m: Message)
    requires IsModest(m)
    ensures InRange(m)
  {
  }

  lemma {:induction false} DotWithin(a: seq<int>, b: seq<int>, row: nat, column: nat, n: nat)
    requires n <= INNER && (row + 1) * 64 <= |a| && |b| == 64 * 64 && column < COLUMNS
    requires Within(a, GLOBAL_ROWS) && Within(b, COLUMNS)
    ensures 0 <= Dot(a, b, row, column, n) <= n * (GLOBAL_ROWS * COLUMNS)
    decreases n
  {
    if n > 0 {
      DotWithin(a, b, row, column, n - 1);
      ProductWithin(a[row * 64 + n - 1], b[(n - 1) * 64 + column]);
    }
  }

  lemma ProductWithin(x: int, y: int)
    requires 0 <= x <= GLOBAL_ROWS && 0 <= y <= COLUMNS
    ensures 0 <= x * y <= GLOBAL_ROWS * COLUMNS
  {
    assert x * y <= GLOBAL_ROWS * y;
  }

  lemma ProductIsWithin(a: seq<int>, b: seq<int>, rows: nat)
    requires |a| == rows * 64 && |b| == 64 * 64 && Within(a, GLOBAL_ROWS) && Within(b, COLUMNS)
    ensures Within(Product(a, b, rows), INNER * (GLOBAL_ROWS * COLUMNS))
  {
    forall i | 0 <= i < rows * 64 ensures 0 <= Product(a, b, rows)[i] <= INNER * (GLOBAL_ROWS * COLUMNS) {
      DotWithin(a, b, i / 64, i % 64, INNER);
    }
  }

  lemma SentIsModest(t: Transport, ranks: nat, l: Local)
    requires Accepted(ranks) && Holds(ranks, l) && IntentOf(t, ranks, l).Send?
    ensures IsModest(IntentOf(t, ranks, l).message)
  {
    match l {
      case SendWork(rank) =>
        HeaderFits(ranks, rank);
      case SendA(rank) =>
        HeaderFits(ranks, rank);
        FilledAIsModest(rank * RowsPerRank(ranks), RowsPerRank(ranks));
      case _ =>
    }
  }

  lemma FilledAIsModest(rowBegin: nat, rows: nat)
    requires rowBegin + rows <= GLOBAL_ROWS
    ensures Within(FilledA(rowBegin, rows), GLOBAL_ROWS)
  {
  }

  /** No receive is refused. */
  lemma AfterHolds(t: Transport, ranks: nat, l: Local)
    requires Accepted(ranks) && GemmProtocol.Carries(t, ranks) && Holds(ranks, l) && !IntentOf(t, ranks, l).Receive?
    ensures Holds(ranks, AfterOf(t, ranks, l))
  {
  }

  lemma AcceptHolds(ranks: nat, l: Local, m: Message)
    requires Holds(ranks, l) && IsModest(m)
    ensures Holds(ranks, AcceptOf(ranks, l, m))
  {
    if l.AwaitB? && Wants(l, m) {
      ProductIsWithin(l.a, m.values, l.rows);
    }
  }

  ghost predicate AllHold(ranks: nat, locals: map<Chiplet, Local>) {
    forall p | p in locals :: Holds(ranks, locals[p])
  }

  predicate AllModest(queue: seq<Message>) {
    forall k | 0 <= k < |queue| :: IsModest(queue[k])
  }

  ghost predicate Modest(ranks: nat, s: State<Local, Message>) {
    AllHold(ranks, s.locals) && forall p, q :: AllModest(Queue(s.channels, p, q))
  }

  lemma StepIsModest(t: Transport, ranks: nat, s: State<Local, Message>, p: Chiplet)
    requires Accepted(ranks) && GemmProtocol.Carries(t, ranks) && Modest(ranks, s) && Enabled(Gemm(t, ranks), s, p)
    ensures Modest(ranks, Step(Gemm(t, ranks), s, p))
  {
    var l, u := s.locals[p], Step(Gemm(t, ranks), s, p);
    match IntentOf(t, ranks, l) {
      case Send(_, _) =>
        SentIsModest(t, ranks, l);
        AfterHolds(t, ranks, l);
      case Receive(from, _) =>
        assert AllModest(Queue(s.channels, from, p));
        AcceptHolds(ranks, l, Queue(s.channels, from, p)[0]);
      case Internal =>
        AfterHolds(t, ranks, l);
    }
    forall a, b ensures AllModest(Queue(u.channels, a, b)) {
      assert AllModest(Queue(s.channels, a, b));
    }
  }

  lemma {:induction false} RunIsModest(t: Transport, ranks: nat, s: State<Local, Message>, order: seq<Chiplet>, end: State<Local, Message>)
    requires Accepted(ranks) && GemmProtocol.Carries(t, ranks) && Modest(ranks, s) && Run(Gemm(t, ranks), s, order) == Some(end)
    ensures Modest(ranks, end)
    decreases |order|
  {
    if order != [] {
      StepIsModest(t, ranks, s, order[0]);
      RunIsModest(t, ranks, Step(Gemm(t, ranks), s, order[0]), order[1..], end);
    }
  }

  // ----- The main result

  lemma LaunchIsModest(ranks: nat)
    ensures Modest(ranks, Launched(ranks))
  {
  }

  /** A message that the processes exchange has its length, and passes the router if the largest ones do. */
  lemma SentIsSized(t: Transport, ranks: nat, l: Local)
    requires t.limit == M.MAX_REQUEST && IntentOf(t, ranks, l).Send?
    ensures Sized(Gemm(t, ranks), CodecOf(), IntentOf(t, ranks, l).message)
  {
  }

  lemma EveryStepIsFaithful(t: Transport, ranks: nat, n: nat, s: State<Local, Message>, p: Chiplet)
    requires Accepted(ranks) && ranks >= 4 && t.limit == M.MAX_REQUEST && Reaches(Gemm(t, ranks), Launched(ranks), n, s)
    ensures Faithful(Gemm(t, ranks), CodecOf(), s, p)
  {
    RouterCarries(t, ranks);
    if p in s.locals {
      match IntentOf(t, ranks, s.locals[p]) {
        case Send(to, m) =>
          var length := CompleteRun(t, ranks);
          SameChiplets(ranks);
          NothingStrays(Gemm(t, ranks), Launched(ranks), length, Finished(ranks).locals, n, s, p);
          SentIsSized(t, ranks, s.locals[p]);
        case Receive(from, bytes) =>
          if Queue(s.channels, from, p) != [] {
            ReceiptIsFaithful(t, ranks, n, s, p, from, bytes);
          }
        case Internal =>
        case Halted =>
      }
    }
  }

  lemma SameChiplets(ranks: nat)
    ensures Launched(ranks).locals.Keys == Finished(ranks).locals.Keys == Chiplets(ranks)
  {
  }

  lemma ReceiptIsFaithful(t: Transport, ranks: nat, n: nat, s: State<Local, Message>, p: Chiplet, from: Chiplet, bytes: nat)
    requires Accepted(ranks) && GemmProtocol.Carries(t, ranks) && t.limit == M.MAX_REQUEST && Reaches(Gemm(t, ranks), Launched(ranks), n, s)
    requires p in s.locals && IntentOf(t, ranks, s.locals[p]) == Receive(from, bytes) && Queue(s.channels, from, p) != []
    ensures var head := Queue(s.channels, from, p)[0];
      Sized(Gemm(t, ranks), CodecOf(), head) && Decode(s.locals[p], Encode(head)) == head
  {
    var head := Queue(s.channels, from, p)[0];
    EveryReceiveFits(t, ranks, n, s, p, from, bytes);
    HeadIsModest(t, ranks, n, s, p, from);
    ReceiptRoundTrip(t, ranks, s.locals[p], head, from, bytes);
  }

  lemma HeadIsModest(t: Transport, ranks: nat, n: nat, s: State<Local, Message>, p: Chiplet, from: Chiplet)
    requires Accepted(ranks) && GemmProtocol.Carries(t, ranks) && Reaches(Gemm(t, ranks), Launched(ranks), n, s)
    requires Queue(s.channels, from, p) != []
    ensures IsModest(Queue(s.channels, from, p)[0])
  {
    LaunchIsModest(ranks);
    var order: seq<Chiplet> :| |order| == n && Run(Gemm(t, ranks), Launched(ranks), order) == Some(s);
    RunIsModest(t, ranks, Launched(ranks), order, s);
    assert AllModest(Queue(s.channels, from, p));
  }

  lemma ReceiptRoundTrip(t: Transport, ranks: nat, l: Local, m: Message, from: Chiplet, bytes: nat)
    requires t.limit == M.MAX_REQUEST && IntentOf(t, ranks, l) == Receive(from, bytes) && Bytes(m) == bytes
    requires Wants(l, m) && IsModest(m)
    ensures Sized(Gemm(t, ranks), CodecOf(), m) && Decode(l, Encode(m)) == m
  {
    ModestIsInRange(m);
    MessageRoundTrip(l, m);
  }

  lemma AllStepsAreFaithful(t: Transport, ranks: nat)
    requires Accepted(ranks) && ranks >= 4 && t.limit == M.MAX_REQUEST
    ensures AllFaithful(Gemm(t, ranks), CodecOf(), Launched(ranks))
  {
    forall n: nat, s, p | Reaches(Gemm(t, ranks), Launched(ranks), n, s) ensures Faithful(Gemm(t, ranks), CodecOf(), s, p) {
      EveryStepIsFaithful(t, ranks, n, s, p);
    }
  }

  /** A run of bounded length, in which nobody oversleeps, and that has verified the result when nobody can
      take a turn any more. */
  ghost predicate Verifies(
      t: Transport, ranks: nat, d: M.Deployment, length: nat, turns: seq<W.Turn>, w: W.Waiting<Local>, moves: seq<Move>)
  {
    && Acts(moves) <= length && |moves| <= 5 * length + 2 * GiveUps(moves)
    && W.IsBounded(|Launched(ranks).locals|, |turns|, |moves|)
    && W.NobodyOversleeps(Gemm(t, ranks), CodecOf(), d, w)
    && (W.Settled(Gemm(t, ranks), CodecOf(), d, w) ==>
          w.sys.locals == Finished(ranks).locals && NothingUnderWay(d, w.sys.mesh))
  }

  lemma RunVerifies(
      t: Transport, ranks: nat, d: M.Deployment, length: nat, turns: seq<W.Turn>, w: W.Waiting<Local>, moves: seq<Move>)
    requires Accepted(ranks) && ranks >= 4 && t.limit == M.MAX_REQUEST && Deployed(d, Chiplets(ranks))
    requires Reaches(Gemm(t, ranks), Launched(ranks), length, Finished(ranks)) && Terminal(Gemm(t, ranks), Finished(ranks))
    requires W.Course(W.Turner(Gemm(t, ranks), CodecOf(), d), W.Awake(Launched(ranks).locals), turns) == Some((w, moves))
    ensures Verifies(t, ranks, d, length, turns, w, moves)
  {
    AllStepsAreFaithful(t, ranks);
    SameChiplets(ranks);
    W.EveryRunComesToTheEnd(Gemm(t, ranks), CodecOf(), d, Launched(ranks).locals, length, Finished(ranks).locals, turns, w, moves);
  }

  /** From four ranks on, every run over routers, gateways and rings, with readers that sleep until they are
      woken, is bounded and ends with every block accepted, the expected checksum and all workers stopped. */
  lemma EveryRunIsVerified(t: Transport, ranks: nat, d: M.Deployment) returns (length: nat)
    requires Accepted(ranks) && ranks >= 4 && t.limit == M.MAX_REQUEST && Deployed(d, Chiplets(ranks))
    ensures forall turns, w, moves
      | W.Course(W.Turner(Gemm(t, ranks), CodecOf(), d), W.Awake(Launched(ranks).locals), turns) == Some((w, moves)) ::
      Verifies(t, ranks, d, length, turns, w, moves)
  {
    RouterCarries(t, ranks);
    length := CompleteRun(t, ranks);
    forall turns, w, moves
      | W.Course(W.Turner(Gemm(t, ranks), CodecOf(), d), W.Awake(Launched(ranks).locals), turns) == Some((w, moves))
      ensures Verifies(t, ranks, d, length, turns, w, moves)
    {
      RunVerifies(t, ranks, d, length, turns, w, moves);
    }
  }

  // ----- Fewer ranks

  /** With fewer ranks the controller never receives anything over the transport. */
  lemma MoveStaysDoomed(t: Transport, ranks: nat, d: M.Deployment, sys: System<Local>, move: Move)
    requires Accepted(ranks) && ranks < 4 && t.limit == M.MAX_REQUEST && Can(Gemm(t, ranks), CodecOf(), d, sys, move)
    requires CONTROLLER in sys.locals && Doomed(sys.locals[CONTROLLER])
    ensures var sys' := Made(Gemm(t, ranks), CodecOf(), d, sys, move);
      CONTROLLER in sys'.locals && Doomed(sys'.locals[CONTROLLER])
  {
    RouterCarries(t, ranks);
    DoomedStep(t, ranks, sys.locals[CONTROLLER]);
  }

  lemma {:induction false} RunStaysDoomed(t: Transport, ranks: nat, d: M.Deployment, sys: System<Local>, moves: seq<Move>, end: System<Local>)
    requires Accepted(ranks) && ranks < 4 && t.limit == M.MAX_REQUEST && Moves(Gemm(t, ranks), CodecOf(), d, sys, moves) == Some(end)
    requires CONTROLLER in sys.locals && Doomed(sys.locals[CONTROLLER])
    ensures CONTROLLER in end.locals && Doomed(end.locals[CONTROLLER])
    decreases |moves|
  {
    if moves != [] {
      MoveStaysDoomed(t, ranks, d, sys, moves[0]);
      RunStaysDoomed(t, ranks, d, Made(Gemm(t, ranks), CodecOf(), d, sys, moves[0]), moves[1..], end);
    }
  }

  ghost predicate CanBeVerifiedOver(t: Transport, ranks: nat, d: M.Deployment) {
    exists moves, sys ::
      Moves(Gemm(t, ranks), CodecOf(), d, System(Launched(ranks).locals, M.Start), moves) == Some(sys)
      && CONTROLLER in sys.locals && sys.locals[CONTROLLER].Verified?
  }

  /** Over the transport, a run can be verified if and only if there are at least four ranks. */
  lemma VerifiedFromFourRanks(t: Transport, ranks: nat, d: M.Deployment)
    requires Accepted(ranks) && t.limit == M.MAX_REQUEST && Deployed(d, Chiplets(ranks))
    ensures CanBeVerifiedOver(t, ranks, d) <==> ranks >= 4
  {
    var start := System(Launched(ranks).locals, M.Start);
    if ranks >= 4 {
      var moves, sys := SomeRunIsVerified(t, ranks, d);
    } else {
      WorldController(SendWork(0), Workers(ranks, 0, Computed(ranks), Idle()), SendWork(0));
      forall moves, sys | Moves(Gemm(t, ranks), CodecOf(), d, start, moves) == Some(sys)
        ensures CONTROLLER in sys.locals ==> !sys.locals[CONTROLLER].Verified?
      {
        RunStaysDoomed(t, ranks, d, start, moves, sys);
      }
    }
  }

  lemma SomeRunIsVerified(t: Transport, ranks: nat, d: M.Deployment) returns (moves: seq<Move>, sys: System<Local>)
    requires Accepted(ranks) && ranks >= 4 && t.limit == M.MAX_REQUEST && Deployed(d, Chiplets(ranks))
    ensures Moves(Gemm(t, ranks), CodecOf(), d, System(Launched(ranks).locals, M.Start), moves) == Some(sys)
    ensures CONTROLLER in sys.locals && sys.locals[CONTROLLER].Verified?
  {
    var start := System(Launched(ranks).locals, M.Start);
    RouterCarries(t, ranks);
    AllStepsAreFaithful(t, ranks);
    SameChiplets(ranks);
    var length := CompleteRun(t, ranks);
    var P, C := Gemm(t, ranks), CodecOf();
    assert Moves(P, C, d, start, []) == Some(start);
    moves, sys := GoOnToRest(P, C, d, start.locals, length, Finished(ranks).locals, [], start);
    EveryRunComesToTheEnd(P, C, d, start.locals, length, Finished(ranks).locals, moves, sys);
    WorldController(Verified(ExpectedChecksum()), Workers(ranks, ranks, Gone(), Idle()), Rejected);
  }
}
