/** The data-parallel MLP over routers, gateways and rings. */
module MlpTransport {
  import opened Options
  import opened Network
  import opened PipeFrame
  import opened PipeNetwork
  import opened MlpReference
  import opened MlpProtocol
  import opened MlpPrograms
  import opened Memory
  import M = PipeMesh
  import W = PipeWaiting
  import S = MlpSchedule

  const MAXIMUM_ITERATIONS := 100000

  // ----- Messages as bytes

  /** How vectors of doubles lie in memory. */
  datatype Layout<!V> = Layout(bytes: V -> seq<Byte>, values: seq<Byte> -> V)

  ghost predicate Exact<V(!new)>(D: Layout<V>) {
    forall v :: |D.bytes(v)| == 8 * PARAMETERS && D.values(D.bytes(v)) == v
  }

  function Encode<V>(D: Layout<V>, m: Message<V>): seq<Byte> {
    match m
    case Token => Little(1, 4)
    case Header(iteration, samples) => Little(iteration, 8) + Little(samples, 8)
    case Model(values) => D.bytes(values)
    case Gradient(values) => D.bytes(values)
  }

  /** What a process at this place of its program takes the bytes for. */
  function Decode<V>(D: Layout<V>, l: Local<V>, b: seq<Byte>): Message<V> {
    match l
    case Cpu(pc, _, _, _) =>
      (match pc
       case AwaitGradient(_) => Gradient(D.values(b))
       case Reduce(_) => Gradient(D.values(b))
       case Broadcast(_) => Model(D.values(b))
       case _ => Token)
    case AwaitHeader => if |b| == 16 then Header(Signed(b[..8]), Signed(b[8..])) else Token
    case AwaitModel(_) => Model(D.values(b))
    case _ => Token
  }

  function CodecOf<V>(D: Layout<V>): Codec<Local<V>, Message<V>> {
    Codec(m => Encode(D, m), (c, l, b) => Decode(D, l, b))
  }

  predicate InRange<V>(m: Message<V>) {
    m.Header? ==> IsLong(m.iteration) && IsLong(m.samples)
  }

  /** The bytes do not say what they are, but the receiver knows. */
  lemma MessageRoundTrip<V(!new)>(D: Layout<V>, l: Local<V>, m: Message<V>)
    requires Exact(D) && Wants(l, m) && InRange(m)
    ensures Decode(D, l, Encode(D, m)) == m
  {
    if m.Header? {
      var b := Encode(D, m);
      assert b[..8] == Little(m.iteration, 8) && b[8..] == Little(m.samples, 8);
      LongRoundTrip(m.iteration);
      LongRoundTrip(m.samples);
    }
  }

  /** Every message has its length, and passes the router's limit. */
  lemma EveryMessageFits<V(!new)>(job: Job<V>, D: Layout<V>, m: Message<V>)
    requires Exact(D)
    ensures Sized(Mlp(job), CodecOf(D), m)
  {
  }

  // ----- Headers stay in range

  predicate Counts<V>(job: Job<V>, l: Local<V>) {
    l.Cpu? ==> 0 <= l.iteration <= job.iterations && (InRound(l.pc) ==> l.iteration < job.iterations)
  }

  ghost predicate Modest<V>(job: Job<V>, s: State<Local<V>, Message<V>>) {
    && (forall p | p in s.locals :: Counts(job, s.locals[p]))
    && (forall p, q :: AllInRange(Queue(s.channels, p, q)))
  }

  predicate AllInRange<V>(queue: seq<Message<V>>) {
    forall k | 0 <= k < |queue| :: InRange(queue[k])
  }

  predicate Limited<V>(job: Job<V>) {
    job.Accepted() && job.iterations <= MAXIMUM_ITERATIONS
  }

  lemma SentInRange<V>(job: Job<V>, p: Chiplet, l: Local<V>)
    requires Limited(job) && Counts(job, l)
    ensures IntentOf(job, p, l).Send? ==> InRange(IntentOf(job, p, l).message)
    ensures Counts(job, AfterOf(job, p, l))
    ensures forall m :: Counts(job, AcceptOf(job, p, l, m))
  {
  }

  lemma StepIsModest<V>(job: Job<V>, s: State<Local<V>, Message<V>>, p: Chiplet)
    requires Limited(job) && Modest(job, s) && Enabled(Mlp(job), s, p)
    ensures Modest(job, Step(Mlp(job), s, p))
  {
    SentInRange(job, p, s.locals[p]);
    var t := Step(Mlp(job), s, p);
    forall a, b ensures AllInRange(Queue(t.channels, a, b)) {
      assert AllInRange(Queue(s.channels, a, b));
    }
  }

  lemma {:induction false} RunIsModest<V>(
      job: Job<V>, s: State<Local<V>, Message<V>>, order: seq<Chiplet>, t: State<Local<V>, Message<V>>)
    requires Limited(job) && Modest(job, s) && Run(Mlp(job), s, order) == Some(t)
    ensures Modest(job, t)
    decreases |order|
  {
    if order != [] {
      StepIsModest(job, s, order[0]);
      RunIsModest(job, Step(Mlp(job), s, order[0]), order[1..], t);
    }
  }

  // ----- The main result

  lemma EveryStepIsFaithful<V(!new)>(job: Job<V>, D: Layout<V>, n: nat, s: State<Local<V>, Message<V>>, p: Chiplet)
    requires Limited(job) && Exact(D) && Reaches(Mlp(job), Launched(job), n, s)
    ensures Faithful(Mlp(job), CodecOf(D), s, p)
  {
    if p in s.locals {
      match IntentOf(job, p, s.locals[p]) {
        case Send(to, m) =>
          var length := S.CompleteRun(job);
          NothingStrays(Mlp(job), Launched(job), length, Finished(job).locals, n, s, p);
          EveryMessageFits(job, D, m);
        case Receive(from, bytes) =>
          if Queue(s.channels, from, p) != [] {
            ReceiptIsFaithful(job, D, n, s, p, from, bytes);
          }
        case Internal =>
        case Halted =>
      }
    }
  }

  lemma ReceiptIsFaithful<V(!new)>(
      job: Job<V>, D: Layout<V>, n: nat, s: State<Local<V>, Message<V>>, p: Chiplet, from: Chiplet, bytes: nat)
    requires Limited(job) && Exact(D) && Reaches(Mlp(job), Launched(job), n, s)
    requires p in s.locals && IntentOf(job, p, s.locals[p]) == Receive(from, bytes) && Queue(s.channels, from, p) != []
    ensures var head := Queue(s.channels, from, p)[0];
      Sized(Mlp(job), CodecOf(D), head) && Decode(D, s.locals[p], Encode(D, head)) == head
  {
    var head := Queue(s.channels, from, p)[0];
    S.EveryReceiveFits(job, n, s, p, from, bytes);
    EveryMessageFits(job, D, head);
    var order: seq<Chiplet> :| |order| == n && Run(Mlp(job), Launched(job), order) == Some(s);
    RunIsModest(job, Launched(job), order, s);
    assert AllInRange(Queue(s.channels, from, p));
    MessageRoundTrip(D, s.locals[p], head);
  }

  lemma AllStepsAreFaithful<V(!new)>(job: Job<V>, D: Layout<V>)
    requires Limited(job) && Exact(D)
    ensures AllFaithful(Mlp(job), CodecOf(D), Launched(job))
  {
    forall n: nat, s, p | Reaches(Mlp(job), Launched(job), n, s) ensures Faithful(Mlp(job), CodecOf(D), s, p) {
      EveryStepIsFaithful(job, D, n, s, p);
    }
  }

  /** All processes, and a transport that has carried nothing yet. */
  ghost function Installed<V>(job: Job<V>): System<Local<V>> {
    System(Launched(job).locals, M.Start)
  }

  /** A run that is no longer than it may be, and has trained the reference model if it is at rest: every
      process has exited, every rank holds the model, and nothing is left in any pipe. */
  ghost predicate Trains<V>(job: Job<V>, D: Layout<V>, d: M.Deployment, length: nat, moves: seq<Move>, sys: System<Local<V>>)
    requires job.Accepted()
  {
    && Acts(moves) <= length && |moves| <= 5 * length + 2 * GiveUps(moves)
    && (Resting(Mlp(job), CodecOf(D), d, sys) ==>
          sys.locals == Finished(job).locals && Acts(moves) == length && NothingUnderWay(d, sys.mesh))
  }

  lemma RunTrains<V(!new)>(job: Job<V>, D: Layout<V>, d: M.Deployment, length: nat, moves: seq<Move>, sys: System<Local<V>>)
    requires Limited(job) && Exact(D) && Deployed(d, Chiplets(job.ranks))
    requires Reaches(Mlp(job), Launched(job), length, Finished(job)) && Terminal(Mlp(job), Finished(job))
    requires Moves(Mlp(job), CodecOf(D), d, Installed(job), moves) == Some(sys)
    ensures Trains(job, D, d, length, moves, sys)
  {
    AllStepsAreFaithful(job, D);
    EveryRunComesToTheEnd(Mlp(job), CodecOf(D), d, Launched(job).locals, length, Finished(job).locals, moves, sys);
  }

  /** The theorem about all interleavings, over the real transport: the processes take a bounded number of
      actions, nothing goes on forever but attempts to find a free ring entry, something can move before the
      end, and at rest every rank holds the model of the sequential reference. */
  lemma EveryRunTrainsTheReference<V(!new)>(job: Job<V>, D: Layout<V>, d: M.Deployment) returns (length: nat)
    requires Limited(job) && Exact(D) && Deployed(d, Chiplets(job.ranks))
    ensures forall moves, sys | Moves(Mlp(job), CodecOf(D), d, Installed(job), moves) == Some(sys) ::
      Trains(job, D, d, length, moves, sys)
  {
    length := S.CompleteRun(job);
    forall moves, sys | Moves(Mlp(job), CodecOf(D), d, Installed(job), moves) == Some(sys)
      ensures Trains(job, D, d, length, moves, sys)
    {
      RunTrains(job, D, d, length, moves, sys);
    }
  }

  // ----- With reads that wait

  /** Likewise for a run in which readers sleep until they are woken. */
  ghost predicate WaitsAndTrains<V>(
      job: Job<V>, D: Layout<V>, d: M.Deployment, length: nat, turns: seq<W.Turn>, w: W.Waiting<Local<V>>, moves: seq<Move>)
    requires job.Accepted()
  {
    && Acts(moves) <= length && |moves| <= 5 * length + 2 * GiveUps(moves)
    && W.IsBounded(|Launched(job).locals|, |turns|, |moves|)
    && W.NobodyOversleeps(Mlp(job), CodecOf(D), d, w)
    && (W.Settled(Mlp(job), CodecOf(D), d, w) ==>
          && w.sys.locals == Finished(job).locals && NothingUnderWay(d, w.sys.mesh)
          && Run(Mlp(job), Launched(job), Actors(moves)) == Some(Finished(job)))
  }

  lemma WaitingRunTrains<V(!new)>(
      job: Job<V>, D: Layout<V>, d: M.Deployment, length: nat, turns: seq<W.Turn>, w: W.Waiting<Local<V>>, moves: seq<Move>)
    requires Limited(job) && Exact(D) && Deployed(d, Chiplets(job.ranks))
    requires Reaches(Mlp(job), Launched(job), length, Finished(job)) && Terminal(Mlp(job), Finished(job))
    requires W.Course(W.Turner(Mlp(job), CodecOf(D), d), W.Awake(Launched(job).locals), turns) == Some((w, moves))
    ensures WaitsAndTrains(job, D, d, length, turns, w, moves)
  {
    AllStepsAreFaithful(job, D);
    W.EveryRunComesToTheEnd(Mlp(job), CodecOf(D), d, Launched(job).locals, length, Finished(job).locals, turns, w, moves);
  }

  /** The theorem for processes whose reads sleep on the conditions of gateways and routers: nobody oversleeps,
      the turns are bounded, and when nobody can take one any more, every rank holds the reference model. */
  lemma EveryWaitingRunTrainsTheReference<V(!new)>(job: Job<V>, D: Layout<V>, d: M.Deployment) returns (length: nat)
    requires Limited(job) && Exact(D) && Deployed(d, Chiplets(job.ranks))
    ensures forall turns, w, moves
      | W.Course(W.Turner(Mlp(job), CodecOf(D), d), W.Awake(Launched(job).locals), turns) == Some((w, moves)) ::
      WaitsAndTrains(job, D, d, length, turns, w, moves)
  {
    length := S.CompleteRun(job);
    forall turns, w, moves
      | W.Course(W.Turner(Mlp(job), CodecOf(D), d), W.Awake(Launched(job).locals), turns) == Some((w, moves))
      ensures WaitsAndTrains(job, D, d, length, turns, w, moves)
    {
      WaitingRunTrains(job, D, d, length, turns, w, moves);
    }
  }

  /** In every run over the transport that has come to rest, a rank has done what its program does with the
      vectors that it received, and nothing else. */
  lemma EveryRankRunsItsProgram<V(!new)>(job: Job<V>, D: Layout<V>, d: M.Deployment, moves: seq<Move>, sys: System<Local<V>>, rank: nat)
    returns (arrivals: nat -> V, gradient: V)
    requires Limited(job) && Exact(D) && Deployed(d, Chiplets(job.ranks)) && rank < job.ranks
    requires Moves(Mlp(job), CodecOf(D), d, Installed(job), moves) == Some(sys) && Resting(Mlp(job), CodecOf(D), d, sys)
    ensures Run(Mlp(job), Launched(job), Actors(moves)) == Some(Finished(job))
    ensures RanItsProgram(job, Actors(moves), rank, arrivals, gradient)
  {
    RestedRun(job, D, d, moves, sys);
    arrivals, gradient := MlpPrograms.EveryRankRunsItsProgram(job, Actors(moves), rank);
  }

  lemma RestedRun<V(!new)>(job: Job<V>, D: Layout<V>, d: M.Deployment, moves: seq<Move>, sys: System<Local<V>>)
    requires Limited(job) && Exact(D) && Deployed(d, Chiplets(job.ranks))
    requires Moves(Mlp(job), CodecOf(D), d, Installed(job), moves) == Some(sys) && Resting(Mlp(job), CodecOf(D), d, sys)
    ensures Run(Mlp(job), Launched(job), Actors(moves)) == Some(Finished(job))
  {
    var length := S.CompleteRun(job);
    AllStepsAreFaithful(job, D);
    EveryRunComesToTheEnd(Mlp(job), CodecOf(D), d, Launched(job).locals, length, Finished(job).locals, moves, sys);
  }

  /** And so has a GPU worker. */
  lemma EveryWorkerRunsItsProgram<V(!new)>(
      job: Job<V>, D: Layout<V>, d: M.Deployment, moves: seq<Move>, sys: System<Local<V>>, place: Chiplet)
    requires Limited(job) && Exact(D) && Deployed(d, Chiplets(job.ranks)) && place in Chiplets(job.ranks) && place.y != 0
    requires Moves(Mlp(job), CodecOf(D), d, Installed(job), moves) == Some(sys) && Resting(Mlp(job), CodecOf(D), d, sys)
    ensures Run(Mlp(job), Launched(job), Actors(moves)) == Some(Finished(job))
    ensures WorkerRanItsProgram(job, Actors(moves), place)
  {
    RestedRun(job, D, d, moves, sys);
    MlpPrograms.EveryWorkerRunsItsProgram(job, Actors(moves), place);
  }
}
