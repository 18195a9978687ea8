/** The processes of the block GEMM: the controller at chiplet (5, 5) and one worker per rank.  If the
    transport carries the row blocks, every interleaving ends with all blocks accepted and the checksum that
    the result validator expects; the router carries them exactly from four ranks on. */
module GemmProtocol {
  import opened Network
  import opened Options
  import opened GemmBlocks
  import PipeMesh

  const CONTROLLER := Chiplet(5, 5)
  const MAXIMUM_RANKS: nat := 35

  function Worker(rank: nat): Chiplet {
    Chiplet(rank % 6, rank / 6)
  }

  function RankOf(c: Chiplet): int {
    c.x + 6 * c.y
  }

  /** The 6 x 6 grid has room for 35 workers beside the controller, and only for those. */
  lemma WorkersAreApart(rank: nat, other: nat)
    ensures RankOf(Worker(rank)) == rank
    ensures Worker(rank) == Worker(other) <==> rank == other
    ensures Worker(rank) == CONTROLLER <==> rank == MAXIMUM_RANKS
  {
    assert rank % 6 + 6 * (rank / 6) == rank && other % 6 + 6 * (other / 6) == other;
  }

  predicate Accepted(ranks: nat) {
    0 < ranks <= MAXIMUM_RANKS && GLOBAL_ROWS % ranks == 0
  }

  function RowsPerRank(ranks: nat): nat {
    if ranks == 0 then 0 else GLOBAL_ROWS / ranks
  }

  /** The kinds of message; on the wire all blocks look alike. */
  datatype Message =
    | Work(iteration: int, rowBegin: int, rows: int)
    | BlockA(values: seq<int>)
    | MatrixB(values: seq<int>)
    | BlockC(values: seq<int>)

  function Bytes(m: Message): nat {
    if m.Work? then 24 else 8 * |m.values|
  }

  datatype Local =
    // controller
    | SendWork(rank: nat) | SendA(rank: nat) | SendB(rank: nat)
    | Collect(rank: nat, checksum: int)
    | StopWorker(rank: nat, checksum: int)
    | Verified(checksum: int)
    | Rejected
    // worker
    | AwaitWork
    | AwaitA(rows: nat)
    | AwaitB(rows: nat, a: seq<int>)
    | Reply(c: seq<int>)
    | Exited
    | Failed
    | Mangled   // a message of another kind has been taken for the expected one

  /** What the program of a process asks for. */
  function WishOf(ranks: nat, l: Local): Intent<Message> {
    var rows := RowsPerRank(ranks);
    match l
    case SendWork(rank) => if rank < ranks then Send(Worker(rank), Work(0, rank * rows, rows)) else Internal
    case SendA(rank) => Send(Worker(rank), BlockA(FilledA(rank * rows, rows)))
    case SendB(rank) => Send(Worker(rank), MatrixB(FilledB()))
    case Collect(rank, _) => if rank < ranks then Receive(Worker(rank), 8 * (rows * 64)) else Internal
    case StopWorker(rank, _) => if rank < ranks then Send(Worker(rank), Work(-1, 0, 0)) else Internal
    case AwaitWork => Receive(CONTROLLER, 24)
    case AwaitA(r) => Receive(CONTROLLER, 8 * (r * 64))
    case AwaitB(_, _) => Receive(CONTROLLER, 8 * (64 * 64))
    case Reply(c) => Send(CONTROLLER, BlockC(c))
    case _ => Halted
  }

  /** A process at this place of its program makes sense of such a message. */
  predicate Wants(l: Local, m: Message) {
    match l
    case Collect(_, _) => m.BlockC?
    case AwaitWork => m.Work?
    case AwaitA(r) => m.BlockA? && |m.values| == r * 64
    case AwaitB(r, a) => m.MatrixB? && |a| == r * 64 && |m.values| == 64 * 64
    case _ => false
  }

  /** The local state after a receive.  The controller accepts a block when its check does, that is, when
      the block is the product; a worker rejects headers that do not fit its buffers. */
  function AcceptOf(ranks: nat, l: Local, m: Message): Local {
    var rows := RowsPerRank(ranks);
    if !Wants(l, m) then Mangled
    else
      match l
      case Collect(rank, checksum) =>
        if m.values == Block(rank * rows, rows) then Collect(rank + 1, checksum + Sum(m.values)) else Rejected
      case AwaitWork =>
        if m.iteration < 0 then Exited
        else if m.rows <= 0 || m.rows > rows || m.rowBegin < 0 || m.rowBegin + m.rows > GLOBAL_ROWS then Failed
        else AwaitA(m.rows)
      case AwaitA(r) => AwaitB(r, m.values)
      case AwaitB(r, a) => Reply(Product(a, m.values, r))
  }

  /** A transport refuses requests, to write and to read alike, of more than `limit` bytes; `stale` is
      what device memory holds before anything has been received into it. */
  datatype Transport = Transport(limit: nat, stale: nat -> int)

  /** What a process finds in its buffer when its receive has been refused.  Nobody looks at the result of
      a request: the controller's vector is still zero, a worker's device memory is as it was. */
  function Unfilled(t: Transport, ranks: nat, l: Local): Message {
    match l
    case Collect(_, _) => BlockC(seq(RowsPerRank(ranks) * 64, _ => 0))
    case AwaitA(r) => BlockA(seq(r * 64, (i: nat) => t.stale(i)))
    case AwaitB(_, _) => MatrixB(seq(64 * 64, (i: nat) => t.stale(i)))
    case _ => Work(0, 0, 0)
  }

  /** What becomes of a wish: a refused request is a step that moves no message. */
  function IntentOf(t: Transport, ranks: nat, l: Local): Intent<Message> {
    match WishOf(ranks, l)
    case Send(to, m) => if Bytes(m) <= t.limit then Send(to, m) else Internal
    case Receive(from, bytes) => if bytes <= t.limit then Receive(from, bytes) else Internal
    case wish => wish
  }

  /** The local state after a send or an internal step. */
  function AfterOf(t: Transport, ranks: nat, l: Local): Local {
    if WishOf(ranks, l).Receive? then AcceptOf(ranks, l, Unfilled(t, ranks, l))
    else
      match l
      case SendWork(rank) => if rank < ranks then SendA(rank) else Collect(0, 0)
      case SendA(rank) => SendB(rank)
      case SendB(rank) => SendWork(rank + 1)
      case Collect(_, checksum) => StopWorker(0, checksum)
      case StopWorker(rank, checksum) => if rank < ranks then StopWorker(rank + 1, checksum) else Verified(checksum)
      case Reply(_) => AwaitWork
      case _ => l
  }

  function Gemm(t: Transport, ranks: nat): Protocol<Local, Message> {
    Protocol((c, l) => IntentOf(t, ranks, l), (c, l) => AfterOf(t, ranks, l), (c, l, m) => AcceptOf(ranks, l, m), m => Bytes(m))
  }

  /** The transport takes the largest messages of the run: the row blocks, and the matrix B. */
  predicate Carries(t: Transport, ranks: nat) {
    8 * (RowsPerRank(ranks) * 64) <= t.limit && 8 * (64 * 64) <= t.limit
  }

  // ----- The processes together

  function Chiplets(ranks: nat): set<Chiplet> {
    {CONTROLLER} + set r | 0 <= r < ranks :: Worker(r)
  }

  function World(controller: Local, workers: seq<Local>): map<Chiplet, Local> {
    map c | c in Chiplets(|workers|) :: if c != CONTROLLER && 0 <= RankOf(c) < |workers| then workers[RankOf(c)] else controller
  }

  lemma WorldAt(controller: Local, workers: seq<Local>, r: nat, l: Local)
    requires r < |workers| <= MAXIMUM_RANKS
    ensures Worker(r) in World(controller, workers) && World(controller, workers)[Worker(r)] == workers[r]
    ensures World(controller, workers[r := l]) == World(controller, workers)[Worker(r) := l]
  {
    WorkersAreApart(r, r);
    forall c | c in Chiplets(|workers|)
      ensures World(controller, workers[r := l])[c] == World(controller, workers)[Worker(r) := l][c]
    {
      if c != CONTROLLER {
        var k :| 0 <= k < |workers| && c == Worker(k);
        WorkersAreApart(k, r);
      }
    }
  }

  lemma WorldController(controller: Local, workers: seq<Local>, l: Local)
    ensures CONTROLLER in World(controller, workers) && World(controller, workers)[CONTROLLER] == controller
    ensures World(l, workers) == World(controller, workers)[CONTROLLER := l]
  {
    forall c | c in Chiplets(|workers|) ensures World(l, workers)[c] == World(controller, workers)[CONTROLLER := l][c] {
      if c != CONTROLLER {
        var k :| 0 <= k < |workers| && c == Worker(k);
        WorkersAreApart(k, k);
      }
    }
  }

  ghost predicate Runs(t: Transport, ranks: nat, controller: Local, workers: seq<Local>, controller': Local, workers': seq<Local>) {
    Leads(Gemm(t, ranks), World(controller, workers), World(controller', workers'))
  }

  lemma RunsThen(t: Transport, ranks: nat, c: Local, w: seq<Local>, c': Local, w': seq<Local>, c'': Local, w'': seq<Local>)
    requires Runs(t, ranks, c, w, c', w') && Runs(t, ranks, c', w', c'', w'')
    ensures Runs(t, ranks, c, w, c'', w'')
  {
    Then(Gemm(t, ranks), World(c, w), World(c', w'), World(c'', w''));
  }

  lemma InternalStep(t: Transport, ranks: nat, controller: Local, workers: seq<Local>, next: Local)
    requires IntentOf(t, ranks, controller).Internal? && next == AfterOf(t, ranks, controller)
    ensures Runs(t, ranks, controller, workers, next, workers)
  {
    WorldController(controller, workers, next);
    Compute(Gemm(t, ranks), World(controller, workers), CONTROLLER);
  }

  /** The controller sends to the worker of rank `r`. */
  lemma SendStep(t: Transport, ranks: nat, controller: Local, workers: seq<Local>, r: nat, m: Message, next: Local, workers': seq<Local>)
    requires r < |workers| <= MAXIMUM_RANKS
    requires IntentOf(t, ranks, controller) == Send(Worker(r), m)
    requires IntentOf(t, ranks, workers[r]) == Receive(CONTROLLER, Bytes(m))
    requires next == AfterOf(t, ranks, controller) && workers' == workers[r := AcceptOf(ranks, workers[r], m)]
    ensures Runs(t, ranks, controller, workers, next, workers')
  {
    var l := AcceptOf(ranks, workers[r], m);
    WorkersAreApart(r, r);
    WorldController(controller, workers, next);
    WorldAt(controller, workers, r, l);
    WorldAt(next, workers, r, l);
    Exchange(Gemm(t, ranks), World(controller, workers), CONTROLLER, Worker(r), m);
  }

  /** The worker of rank `r` replies to the controller. */
  lemma ReplyStep(t: Transport, ranks: nat, controller: Local, workers: seq<Local>, r: nat, m: Message, next: Local, workers': seq<Local>)
    requires r < |workers| <= MAXIMUM_RANKS
    requires IntentOf(t, ranks, workers[r]) == Send(CONTROLLER, m)
    requires IntentOf(t, ranks, controller) == Receive(Worker(r), Bytes(m))
    requires next == AcceptOf(ranks, controller, m) && workers' == workers[r := AfterOf(t, ranks, workers[r])]
    ensures Runs(t, ranks, controller, workers, next, workers')
  {
    var l := AfterOf(t, ranks, workers[r]);
    WorkersAreApart(r, r);
    WorldAt(controller, workers, r, l);
    WorldController(controller, workers', next);
    WorldController(controller, workers, next);
    Exchange(Gemm(t, ranks), World(controller, workers), Worker(r), CONTROLLER, m);
  }

  // ----- One complete run

  /** The workers below `n` are in the state `f` gives them, the others in that of `g`. */
  function Workers(ranks: nat, n: nat, f: nat -> Local, g: nat -> Local): (w: seq<Local>)
    ensures |w| == ranks
    ensures forall r: nat | r < ranks :: w[r] == if r < n then f(r) else g(r)
  {
    seq(ranks, (r: nat) => if r < n then f(r) else g(r))
  }

  function Idle(): nat -> Local { (r: nat) => AwaitWork }

  function Gone(): nat -> Local { (r: nat) => Exited }

  function Computed(ranks: nat): nat -> Local {
    (r: nat) => Reply(Block(r * RowsPerRank(ranks), RowsPerRank(ranks)))
  }

  lemma NextWorker(ranks: nat, n: nat, f: nat -> Local, g: nat -> Local)
    requires n < ranks
    ensures Workers(ranks, n, f, g)[n := f(n)] == Workers(ranks, n + 1, f, g)
  {
  }

  /** The header of every rank fits the buffers and the matrix. */
  lemma HeaderFits(ranks: nat, rank: nat)
    requires Accepted(ranks) && rank < ranks
    ensures var rows := RowsPerRank(ranks);
      rows > 0 && rank * rows + rows <= GLOBAL_ROWS && ranks * rows == GLOBAL_ROWS
  {
    var rows := RowsPerRank(ranks);
    assert ranks * rows == GLOBAL_ROWS;
    assert (ranks - rank - 1) * rows >= 0;
  }

  lemma DispatchHeader(t: Transport, ranks: nat, workers: seq<Local>, rank: nat, workers': seq<Local>)
    requires Accepted(ranks) && Carries(t, ranks) && rank < |workers| == ranks && workers[rank] == AwaitWork
    requires workers' == workers[rank := AwaitA(RowsPerRank(ranks))]
    ensures Runs(t, ranks, SendWork(rank), workers, SendA(rank), workers')
  {
    HeaderFits(ranks, rank);
    SendStep(t, ranks, SendWork(rank), workers, rank, Work(0, rank * RowsPerRank(ranks), RowsPerRank(ranks)), SendA(rank), workers');
  }

  lemma DispatchA(t: Transport, ranks: nat, workers: seq<Local>, rank: nat, a: seq<int>, workers': seq<Local>)
    requires Accepted(ranks) && Carries(t, ranks) && rank < |workers| == ranks && workers[rank] == AwaitA(RowsPerRank(ranks))
    requires a == FilledA(rank * RowsPerRank(ranks), RowsPerRank(ranks))
    requires workers' == workers[rank := AwaitB(RowsPerRank(ranks), a)]
    ensures Runs(t, ranks, SendA(rank), workers, SendB(rank), workers')
  {
    SendStep(t, ranks, SendA(rank), workers, rank, BlockA(a), SendB(rank), workers');
  }

  lemma DispatchB(t: Transport, ranks: nat, workers: seq<Local>, rank: nat, a: seq<int>, workers': seq<Local>)
    requires Accepted(ranks) && Carries(t, ranks) && rank < |workers| == ranks && workers[rank] == AwaitB(RowsPerRank(ranks), a)
    requires a == FilledA(rank * RowsPerRank(ranks), RowsPerRank(ranks))
    requires workers' == workers[rank := Computed(ranks)(rank)]
    ensures Runs(t, ranks, SendB(rank), workers, SendWork(rank + 1), workers')
  {
    SendStep(t, ranks, SendB(rank), workers, rank, MatrixB(FilledB()), SendWork(rank + 1), workers');
  }

  /** All three parts of a block reach the worker, which computes its product. */
  lemma DispatchOne(t: Transport, ranks: nat, workers: seq<Local>, rank: nat, workers': seq<Local>)
    requires Accepted(ranks) && Carries(t, ranks) && rank < |workers| == ranks && workers[rank] == AwaitWork
    requires workers' == workers[rank := Computed(ranks)(rank)]
    ensures Runs(t, ranks, SendWork(rank), workers, SendWork(rank + 1), workers')
  {
    var rows := RowsPerRank(ranks);
    var a := FilledA(rank * rows, rows);
    var w1, w2 := workers[rank := AwaitA(rows)], workers[rank := AwaitB(rows, a)];
    assert w2 == w1[rank := AwaitB(rows, a)] && workers' == w2[rank := Computed(ranks)(rank)];
    DispatchHeader(t, ranks, workers, rank, w1);
    DispatchA(t, ranks, w1, rank, a, w2);
    RunsThen(t, ranks, SendWork(rank), workers, SendA(rank), w1, SendB(rank), w2);
    DispatchB(t, ranks, w2, rank, a, workers');
    RunsThen(t, ranks, SendWork(rank), workers, SendB(rank), w2, SendWork(rank + 1), workers');
  }

  /** The blocks of the ranks below `n` have been dispatched. */
  function Dispatched(ranks: nat, n: nat): seq<Local> {
    Workers(ranks, n, Computed(ranks), Idle())
  }

  lemma DispatchNext(t: Transport, ranks: nat, n: nat)
    requires Accepted(ranks) && Carries(t, ranks) && n < ranks
    ensures Runs(t, ranks, SendWork(n), Dispatched(ranks, n), SendWork(n + 1), Dispatched(ranks, n + 1))
  {
    NextWorker(ranks, n, Computed(ranks), Idle());
    DispatchOne(t, ranks, Dispatched(ranks, n), n, Dispatched(ranks, n + 1));
  }

  function SumBlockwise(f: (nat, nat) -> int, rows: nat, n: nat): int {
    if n == 0 then 0 else SumBlockwise(f, rows, n - 1) + f((n - 1) * rows, rows)
  }

  /** The checksum after the blocks of the first `n` ranks. */
  function SumOfBlocks(ranks: nat, n: nat): int {
    SumBlockwise(BlockSum(), RowsPerRank(ranks), n)
  }

  /** The blocks of the ranks below `n` have been collected. */
  function Collected(ranks: nat, n: nat): seq<Local> {
    Workers(ranks, n, Idle(), Computed(ranks))
  }

  lemma CollectNext(t: Transport, ranks: nat, n: nat)
    requires Accepted(ranks) && Carries(t, ranks) && n < ranks
    ensures Runs(t, ranks, Collect(n, SumOfBlocks(ranks, n)), Collected(ranks, n),
                 Collect(n + 1, SumOfBlocks(ranks, n + 1)), Collected(ranks, n + 1))
  {
    var block := Block(n * RowsPerRank(ranks), RowsPerRank(ranks));
    NextWorker(ranks, n, Idle(), Computed(ranks));
    assert Collected(ranks, n)[n] == Reply(block);
    ReplyStep(t, ranks, Collect(n, SumOfBlocks(ranks, n)), Collected(ranks, n), n, BlockC(block),
              Collect(n + 1, SumOfBlocks(ranks, n + 1)), Collected(ranks, n + 1));
  }

  /** The workers of the ranks below `n` have been stopped. */
  function Stopped(ranks: nat, n: nat): seq<Local> {
    Workers(ranks, n, Gone(), Idle())
  }

  lemma StopNext(t: Transport, ranks: nat, checksum: int, n: nat)
    requires Accepted(ranks) && Carries(t, ranks) && n < ranks
    ensures Runs(t, ranks, StopWorker(n, checksum), Stopped(ranks, n), StopWorker(n + 1, checksum), Stopped(ranks, n + 1))
  {
    NextWorker(ranks, n, Gone(), Idle());
    SendStep(t, ranks, StopWorker(n, checksum), Stopped(ranks, n), n, Work(-1, 0, 0), StopWorker(n + 1, checksum), Stopped(ranks, n + 1));
  }

  /** The processes before the block of each rank is dispatched. */
  function DispatchRounds(ranks: nat): (a: nat -> map<Chiplet, Local>)
    ensures forall n: nat :: a(n) == World(SendWork(n), Dispatched(ranks, n))
  {
    (n: nat) => World(SendWork(n), Dispatched(ranks, n))
  }

  lemma Dispatch(t: Transport, ranks: nat)
    requires Accepted(ranks) && Carries(t, ranks)
    ensures Runs(t, ranks, SendWork(0), Dispatched(ranks, 0), SendWork(ranks), Dispatched(ranks, ranks))
  {
    DispatchEachRound(t, ranks);
    Repeat(Gemm(t, ranks), DispatchRounds(ranks), ranks);
  }

  lemma DispatchEachRound(t: Transport, ranks: nat)
    requires Accepted(ranks) && Carries(t, ranks)
    ensures forall k: nat | k < ranks :: Leads(Gemm(t, ranks), DispatchRounds(ranks)(k), DispatchRounds(ranks)(k + 1))
  {
    forall k: nat | k < ranks ensures Leads(Gemm(t, ranks), DispatchRounds(ranks)(k), DispatchRounds(ranks)(k + 1)) {
      DispatchNext(t, ranks, k);
    }
  }

  /** The processes before the block of each rank is collected. */
  function CollectAllRounds(ranks: nat): (a: nat -> map<Chiplet, Local>)
    ensures forall n: nat :: a(n) == World(Collect(n, SumOfBlocks(ranks, n)), Collected(ranks, n))
  {
    (n: nat) => World(Collect(n, SumOfBlocks(ranks, n)), Collected(ranks, n))
  }

  lemma CollectAll(t: Transport, ranks: nat)
    requires Accepted(ranks) && Carries(t, ranks)
    ensures Runs(t, ranks, Collect(0, SumOfBlocks(ranks, 0)), Collected(ranks, 0),
                 Collect(ranks, SumOfBlocks(ranks, ranks)), Collected(ranks, ranks))
  {
    CollectAllEachRound(t, ranks);
    Repeat(Gemm(t, ranks), CollectAllRounds(ranks), ranks);
  }

  lemma CollectAllEachRound(t: Transport, ranks: nat)
    requires Accepted(ranks) && Carries(t, ranks)
    ensures forall k: nat | k < ranks :: Leads(Gemm(t, ranks), CollectAllRounds(ranks)(k), CollectAllRounds(ranks)(k + 1))
  {
    forall k: nat | k < ranks ensures Leads(Gemm(t, ranks), CollectAllRounds(ranks)(k), CollectAllRounds(ranks)(k + 1)) {
      CollectNext(t, ranks, k);
    }
  }

  /** The processes before each worker is stopped. */
  function StopAllRounds(ranks: nat, checksum: int): (a: nat -> map<Chiplet, Local>)
    ensures forall n: nat :: a(n) == World(StopWorker(n, checksum), Stopped(ranks, n))
  {
    (n: nat) => World(StopWorker(n, checksum), Stopped(ranks, n))
  }

  lemma StopAll(t: Transport, ranks: nat, checksum: int)
    requires Accepted(ranks) && Carries(t, ranks)
    ensures Runs(t, ranks, StopWorker(0, checksum), Stopped(ranks, 0), StopWorker(ranks, checksum), Stopped(ranks, ranks))
  {
    StopAllEachRound(t, ranks, checksum);
    Repeat(Gemm(t, ranks), StopAllRounds(ranks, checksum), ranks);
  }

  lemma StopAllEachRound(t: Transport, ranks: nat, checksum: int)
    requires Accepted(ranks) && Carries(t, ranks)
    ensures forall k: nat | k < ranks :: Leads(Gemm(t, ranks), StopAllRounds(ranks, checksum)(k), StopAllRounds(ranks, checksum)(k + 1))
  {
    forall k: nat | k < ranks ensures Leads(Gemm(t, ranks), StopAllRounds(ranks, checksum)(k), StopAllRounds(ranks, checksum)(k + 1)) {
      StopNext(t, ranks, checksum, k);
    }
  }

  /** What the validator computes from the constants. */
  function ExpectedChecksum(): int {
    INNER * SumTo(GLOBAL_ROWS) * SumTo(COLUMNS)
  }

  lemma {:induction false} SumOfBlocksSoFar(ranks: nat, n: nat, f: (nat, nat) -> int)
    requires Additive(f)
    ensures SumBlockwise(f, RowsPerRank(ranks), n) == f(0, n * RowsPerRank(ranks))
    decreases n
  {
    if n > 0 {
      var rows := RowsPerRank(ranks);
      SumOfBlocksSoFar(ranks, n - 1, f);
      OneMore(n, rows);
      assert Apart(f, 0, (n - 1) * rows, rows);
    }
  }

  lemma ChecksumIsExpected(ranks: nat)
    requires Accepted(ranks)
    ensures SumOfBlocks(ranks, ranks) == ExpectedChecksum()
  {
    BlockSumIsAdditive();
    SumOfBlocksSoFar(ranks, ranks, BlockSum());
    HeaderFits(ranks, 0);
    ChecksumOfRows(GLOBAL_ROWS);
    Reassociate(SumTo(GLOBAL_ROWS), SumTo(COLUMNS));
  }

  lemma {:induction false} Triangular(n: nat)
    ensures 2 * SumTo(n) == n * (n + 1)
    decreases n
  {
    if n > 0 {
      Triangular(n - 1);
    }
  }

  /** The constant that a result has to show; far below the limit of its 64-bit type. */
  lemma ChecksumConstant()
    ensures ExpectedChecksum() == 15_367_372_800 < 0x8000_0000_0000_0000
  {
    Triangular(GLOBAL_ROWS);
    Triangular(COLUMNS);
  }

  ghost function Launched(ranks: nat): State<Local, Message> {
    Quiet(World(SendWork(0), Workers(ranks, 0, Computed(ranks), Idle())))
  }

  ghost function Finished(ranks: nat): State<Local, Message> {
    Quiet(World(Verified(ExpectedChecksum()), Workers(ranks, ranks, Gone(), Idle())))
  }

  lemma WholeRun(t: Transport, ranks: nat, total: int)
    requires Accepted(ranks) && Carries(t, ranks) && total == SumOfBlocks(ranks, ranks)
    ensures Runs(t, ranks, SendWork(0), Workers(ranks, 0, Computed(ranks), Idle()), Verified(total), Workers(ranks, ranks, Gone(), Idle()))
  {
    var idle, computed := Workers(ranks, 0, Computed(ranks), Idle()), Workers(ranks, ranks, Computed(ranks), Idle());
    var gone := Workers(ranks, ranks, Gone(), Idle());
    assert computed == Workers(ranks, 0, Idle(), Computed(ranks));
    assert idle == Workers(ranks, ranks, Idle(), Computed(ranks));
    assert idle == Workers(ranks, 0, Gone(), Idle());
    Dispatch(t, ranks);
    InternalStep(t, ranks, SendWork(ranks), computed, Collect(0, 0));
    RunsThen(t, ranks, SendWork(0), idle, SendWork(ranks), computed, Collect(0, 0), computed);
    CollectAll(t, ranks);
    RunsThen(t, ranks, SendWork(0), idle, Collect(0, 0), computed, Collect(ranks, total), idle);
    InternalStep(t, ranks, Collect(ranks, total), idle, StopWorker(0, total));
    RunsThen(t, ranks, SendWork(0), idle, Collect(ranks, total), idle, StopWorker(0, total), idle);
    StopAll(t, ranks, total);
    RunsThen(t, ranks, SendWork(0), idle, StopWorker(0, total), idle, StopWorker(ranks, total), gone);
    InternalStep(t, ranks, StopWorker(ranks, total), gone, Verified(total));
    RunsThen(t, ranks, SendWork(0), idle, StopWorker(ranks, total), gone, Verified(total), gone);
  }

  lemma FinishedIsTerminal(t: Transport, ranks: nat)
    ensures Terminal(Gemm(t, ranks), Finished(ranks))
  {
    forall c ensures !Enabled(Gemm(t, ranks), Finished(ranks), c) {
    }
  }

  lemma CompleteRun(t: Transport, ranks: nat) returns (length: nat)
    requires Accepted(ranks) && Carries(t, ranks)
    ensures Reaches(Gemm(t, ranks), Launched(ranks), length, Finished(ranks)) && Terminal(Gemm(t, ranks), Finished(ranks))
  {
    ChecksumIsExpected(ranks);
    WholeRun(t, ranks, ExpectedChecksum());
    FinishedIsTerminal(t, ranks);
    length := LeadsReaches(Gemm(t, ranks), World(SendWork(0), Workers(ranks, 0, Computed(ranks), Idle())),
                           World(Verified(ExpectedChecksum()), Workers(ranks, ranks, Gone(), Idle())));
  }

  /** For every accepted rank count and every interleaving: a run is never stuck, never longer than
      `length`, and it ends with every block accepted, the expected checksum, all workers stopped and
      every channel empty. */
  lemma EveryRunIsVerified(t: Transport, ranks: nat) returns (length: nat)
    requires Accepted(ranks) && Carries(t, ranks)
    ensures forall m: nat, s | Reaches(Gemm(t, ranks), Launched(ranks), m, s) ::
      && m <= length
      && Reaches(Gemm(t, ranks), s, length - m, Finished(ranks))
      && (Terminal(Gemm(t, ranks), s) <==> s == Finished(ranks))
  {
    length := CompleteRun(t, ranks);
    forall m: nat, s | Reaches(Gemm(t, ranks), Launched(ranks), m, s)
      ensures m <= length && Reaches(Gemm(t, ranks), s, length - m, Finished(ranks))
      ensures Terminal(Gemm(t, ranks), s) <==> s == Finished(ranks)
    {
      EveryRunEndsAlike(Gemm(t, ranks), Launched(ranks), length, Finished(ranks), m, s);
    }
  }

  lemma NoMisfits(t: Transport, ranks: nat, m: nat, s: State<Local, Message>, p: Chiplet)
    requires Accepted(ranks) && Carries(t, ranks) && Reaches(Gemm(t, ranks), Launched(ranks), m, s)
    ensures !Misfit(Gemm(t, ranks), s, p)
  {
    var length := CompleteRun(t, ranks);
    NoneWaits(t, ranks, p);
    NoMisfitOnTheWay(Gemm(t, ranks), Launched(ranks), length, Finished(ranks), m, s, p);
  }

  /** On every interleaving, whenever there is a message on the channel that a process waits on, its head
      has the kind and the length that the process asks for. */
  lemma EveryReceiveFits(t: Transport, ranks: nat, m: nat, s: State<Local, Message>, p: Chiplet, from: Chiplet, bytes: nat)
    requires Accepted(ranks) && Carries(t, ranks) && Reaches(Gemm(t, ranks), Launched(ranks), m, s)
    requires p in s.locals && IntentOf(t, ranks, s.locals[p]) == Receive(from, bytes) && Queue(s.channels, from, p) != []
    ensures Bytes(Queue(s.channels, from, p)[0]) == bytes
    ensures Wants(s.locals[p], Queue(s.channels, from, p)[0])
  {
    NoMisfits(t, ranks, m, s, p);
    StepReaches(Gemm(t, ranks), Launched(ranks), m, s, p);
    NothingIsRejected(t, ranks, m + 1, Step(Gemm(t, ranks), s, p), p, Mangled);
  }

  predicate IsError(l: Local) { l == Failed || l == Rejected || l == Mangled }

  /** On no interleaving does a worker reject its header, or the controller a block, and no message is
      taken for one of another kind. */
  lemma NothingIsRejected(t: Transport, ranks: nat, m: nat, s: State<Local, Message>, p: Chiplet, error: Local)
    requires Accepted(ranks) && Carries(t, ranks) && Reaches(Gemm(t, ranks), Launched(ranks), m, s) && IsError(error)
    ensures p in s.locals ==> s.locals[p] != error
  {
    var length := CompleteRun(t, ranks);
    NoneFailed(ranks, p);
    ErrorHalts(t, ranks, p, error);
    NoHaltOnTheWay(Gemm(t, ranks), Launched(ranks), length, Finished(ranks), m, s, p, error);
  }

  lemma NoneWaits(t: Transport, ranks: nat, p: Chiplet)
    ensures !Misfit(Gemm(t, ranks), Finished(ranks), p)
  {
  }

  lemma NoneFailed(ranks: nat, p: Chiplet)
    ensures p in Finished(ranks).locals ==> !IsError(Finished(ranks).locals[p])
  {
  }

  lemma ErrorHalts(t: Transport, ranks: nat, p: Chiplet, error: Local)
    requires IsError(error)
    ensures Gemm(t, ranks).intent(p, error).Halted?
  {
  }

  // ----- Over the router

  /** All messages that the program of a run exchanges with one worker. */
  function MessagesOf(ranks: nat, rank: nat): seq<Message> {
    var rows := RowsPerRank(ranks);
    [Work(0, rank * rows, rows), BlockA(FilledA(rank * rows, rows)), MatrixB(FilledB()), BlockC(Block(rank * rows, rows)),
     Work(-1, 0, 0)]
  }

  lemma RouterCarries(t: Transport, ranks: nat)
    requires Accepted(ranks) && t.limit == PipeMesh.MAX_REQUEST
    ensures Carries(t, ranks) <==> ranks >= 4
  {
    var rows := RowsPerRank(ranks);
    HeaderFits(ranks, 0);
    if ranks >= 4 {
      assert (ranks - 4) * rows >= 0;
      assert 4 * rows <= GLOBAL_ROWS;
    }
  }

  /** The router takes every message of a run if and only if there are at least four ranks. */
  lemma EveryMessageFits(ranks: nat)
    requires Accepted(ranks)
    ensures (forall rank: nat, k: nat | rank < ranks && k < 5 :: Bytes(MessagesOf(ranks, rank)[k]) <= PipeMesh.MAX_REQUEST)
            <==> ranks >= 4
  {
    RouterCarries(Transport(PipeMesh.MAX_REQUEST, _ => 0), ranks);
    if ranks < 4 {
      assert Bytes(MessagesOf(ranks, 0)[1]) > PipeMesh.MAX_REQUEST;
    }
  }

  /** The default of one node has two ranks; their blocks are nearly twice too large. */
  lemma TwoRanksDoNotFit()
    ensures Accepted(2) && Bytes(MessagesOf(2, 0)[1]) == 122_880 > PipeMesh.MAX_REQUEST
  {
    EveryMessageFits(2);
  }

  /** The controller has not got past its first block. */
  predicate Doomed(l: Local) {
    l.SendWork? || l.SendA? || l.SendB? || l == Collect(0, 0) || l.Rejected?
  }

  lemma ZeroIsNoBlock(rows: nat)
    requires rows > 0
    ensures Block(0, rows) != seq(rows * 64, _ => 0)
  {
    BlockEntry(0, rows, 0, 0);
    assert Block(0, rows)[0] == 64;
  }

  lemma DoomedStep(t: Transport, ranks: nat, l: Local)
    requires Accepted(ranks) && 8 * (RowsPerRank(ranks) * 64) > t.limit && Doomed(l)
    ensures !IntentOf(t, ranks, l).Receive?
    ensures !IntentOf(t, ranks, l).Halted? ==> Doomed(AfterOf(t, ranks, l))
    ensures IntentOf(t, ranks, l).Halted? ==> l == Rejected
  {
    HeaderFits(ranks, 0);
    ZeroIsNoBlock(RowsPerRank(ranks));
  }

  lemma {:induction false} StaysDoomed(
      t: Transport, ranks: nat, s: State<Local, Message>, order: seq<Chiplet>, end: State<Local, Message>)
    requires Accepted(ranks) && 8 * (RowsPerRank(ranks) * 64) > t.limit
    requires CONTROLLER in s.locals && Doomed(s.locals[CONTROLLER]) && Network.Run(Gemm(t, ranks), s, order) == Some(end)
    ensures CONTROLLER in end.locals && Doomed(end.locals[CONTROLLER])
    decreases |order|
  {
    if order != [] {
      DoomedStep(t, ranks, s.locals[CONTROLLER]);
      StaysDoomed(t, ranks, Step(Gemm(t, ranks), s, order[0]), order[1..], end);
    }
  }

  /** When the transport refuses the blocks, no run is ever verified, and all that a run can come to is
      that the controller rejects the first block. */
  lemma NeverVerified(t: Transport, ranks: nat, m: nat, s: State<Local, Message>)
    requires Accepted(ranks) && 8 * (RowsPerRank(ranks) * 64) > t.limit
    requires Reaches(Gemm(t, ranks), Launched(ranks), m, s)
    ensures CONTROLLER in s.locals && !s.locals[CONTROLLER].Verified?
    ensures Terminal(Gemm(t, ranks), s) ==> s.locals[CONTROLLER] == Rejected
  {
    var order: seq<Chiplet> :| |order| == m && Network.Run(Gemm(t, ranks), Launched(ranks), order) == Some(s);
    WorldController(SendWork(0), Workers(ranks, 0, Computed(ranks), Idle()), SendWork(0));
    StaysDoomed(t, ranks, Launched(ranks), order, s);
    DoomedStep(t, ranks, s.locals[CONTROLLER]);
    if Terminal(Gemm(t, ranks), s) {
      assert !Enabled(Gemm(t, ranks), s, CONTROLLER);
    }
  }

  ghost predicate CanBeVerified(t: Transport, ranks: nat) {
    exists m: nat, s ::
      Reaches(Gemm(t, ranks), Launched(ranks), m, s) && CONTROLLER in s.locals && s.locals[CONTROLLER].Verified?
  }

  /** Over the router's limit the GEMM works exactly from four ranks on: then every run is verified, see
      `EveryRunIsVerified`, and with fewer ranks none is. */
  lemma VerifiedFromFourRanks(t: Transport, ranks: nat)
    requires Accepted(ranks) && t.limit == PipeMesh.MAX_REQUEST
    ensures CanBeVerified(t, ranks) <==> ranks >= 4
    ensures ranks >= 4 <==> Carries(t, ranks)
  {
    RouterCarries(t, ranks);
    if ranks >= 4 {
      var length := CompleteRun(t, ranks);
      WorldController(Verified(ExpectedChecksum()), Workers(ranks, ranks, Gone(), Idle()), Rejected);
    } else {
      forall m: nat, s | Reaches(Gemm(t, ranks), Launched(ranks), m, s)
        ensures CONTROLLER in s.locals ==> !s.locals[CONTROLLER].Verified?
      {
        NeverVerified(t, ranks, m, s);
      }
    }
  }
}
