/** The processes of the data-parallel MLP: one CPU per rank at chiplet (rank, 0), and its two GPU
    workers at (rank, 1) and (rank, 2).  Each process is written as the sequence of its blocking sends
    and receives, with the loop variables of the program as local state. */
module MlpProtocol {
  import opened Network
  import opened MlpReference

  const PARAMETERS: nat := 16 * 128 + 128 + 128 * 3 + 3
  const MAXIMUM_SAMPLES := 0x10_0000

  /** Launch parameters shared by all processes. */
  datatype Job<!V> = Job(training: Training<V>, ranks: nat, samples: nat, iterations: nat)
  {
    /** What the environment readers and the checks at the start of a CPU process let through.  The
        limit of eight ranks plays no part in the results. */
    predicate Accepted() {
      && IsPowerOfTwo(ranks)
      && samples > 0 && samples <= MAXIMUM_SAMPLES && samples % (ranks * 2) == 0
      && iterations > 0
    }

    function SamplesPerGpu(): int
      requires ranks > 0
    {
      samples / (ranks * 2)
    }
  }

  /** The kinds of message.  On the wire a model and a gradient look alike. */
  datatype Message<V> =
    | Token
    | Header(iteration: int, samples: int)
    | Model(values: V)
    | Gradient(values: V)

  function Bytes<V>(m: Message<V>): nat {
    match m
    case Token => 4
    case Header(_, _) => 16
    case Model(_) => 8 * PARAMETERS
    case Gradient(_) => 8 * PARAMETERS
  }

  datatype Pc =
    | StartCollect(peer: int) | StartRelease(peer: int)   // start barrier, rank 0
    | StartAnnounce | StartAwait                          // start barrier, other ranks
    | LoopHead
    | SendHeader(gpu: int) | SendModel(gpu: int) | AwaitGradient(gpu: int)
    | Reduce(stride: int) | Update | Broadcast(stride: int)
    | FinishCollect(peer: int) | FinishAnnounce           // finish barrier
    | Stop(gpu: int)
    | Exited

  datatype Local<V> =
    | Cpu(pc: Pc, iteration: int, model: V, gradient: V)
    | AwaitHeader
    | AwaitModel(samples: int)
    | Reply(values: V)
    | GpuExited
    | GpuFailed       // the worker rejects a header and exits with an error
    | Mangled         // a message of another kind has been taken for the expected one

  function Entry<V>(job: Job<V>, c: Chiplet): Local<V> {
    if c.y != 0 then AwaitHeader
    else Cpu(if c.x == 0 then StartCollect(1) else StartAnnounce, 0, job.training.initial, job.training.initial)
  }

  // ----- CPU process of rank r

  function CpuIntent<V>(job: Job<V>, r: int, l: Local<V>): Intent<Message<V>>
    requires l.Cpu?
  {
    match l.pc
    case StartCollect(peer) => if peer < job.ranks then Receive(Chiplet(peer, 0), 4) else Internal
    case StartRelease(peer) => if peer < job.ranks then Send(Chiplet(peer, 0), Token) else Internal
    case StartAnnounce => Send(Chiplet(0, 0), Token)
    case StartAwait => Receive(Chiplet(0, 0), 4)
    case LoopHead => Internal
    case SendHeader(gpu) => Send(Chiplet(r, gpu), Header(l.iteration, if job.ranks > 0 then job.SamplesPerGpu() else 0))
    case SendModel(gpu) => Send(Chiplet(r, gpu), Model(l.model))
    case AwaitGradient(gpu) => Receive(Chiplet(r, gpu), 8 * PARAMETERS)
    case Reduce(stride) =>
      if stride <= 0 || stride >= job.ranks then Internal
      else if r % (2 * stride) == stride then Send(Chiplet(r - stride, 0), Gradient(l.gradient))
      else if r % (2 * stride) == 0 && r + stride < job.ranks then Receive(Chiplet(r + stride, 0), 8 * PARAMETERS)
      else Internal
    case Update => Internal
    case Broadcast(stride) =>
      if stride < 1 then Internal
      else if r % (2 * stride) == 0 && r + stride < job.ranks then Send(Chiplet(r + stride, 0), Model(l.model))
      else if r % (2 * stride) == stride then Receive(Chiplet(r - stride, 0), 8 * PARAMETERS)
      else Internal
    case FinishCollect(peer) => if peer < job.ranks then Receive(Chiplet(peer, 0), 4) else Internal
    case FinishAnnounce => Send(Chiplet(0, 0), Token)
    case Stop(gpu) => Send(Chiplet(r, gpu), Header(-1, 0))
    case Exited => Halted
  }

  /** Where `synchronise_model` goes on when the reduction has returned. */
  function AfterReduction<V>(job: Job<V>, r: int): Pc {
    if r == 0 then Update else Broadcast(job.ranks / 2)
  }

  /** The local state after a send or an internal step. */
  function CpuAfter<V>(job: Job<V>, r: int, l: Local<V>): Local<V>
    requires l.Cpu?
  {
    match l.pc
    case StartCollect(_) => l.(pc := StartRelease(1))
    case StartRelease(peer) => l.(pc := if peer < job.ranks then StartRelease(peer + 1) else LoopHead)
    case StartAnnounce => l.(pc := StartAwait)
    case LoopHead =>
      l.(pc := if l.iteration < job.iterations then SendHeader(1)
               else if r == 0 then FinishCollect(1) else FinishAnnounce)
    case SendHeader(gpu) => l.(pc := SendModel(gpu))
    case SendModel(gpu) => l.(pc := if gpu == 1 then SendHeader(2) else AwaitGradient(1))
    case Reduce(stride) =>
      if stride <= 0 || stride >= job.ranks || r % (2 * stride) == stride then l.(pc := AfterReduction(job, r))
      else l.(pc := Reduce(2 * stride))
    case Update => l.(pc := Broadcast(job.ranks / 2), model := job.training.update(l.model, l.gradient, job.samples))
    case Broadcast(stride) =>
      if stride < 1 then l.(pc := LoopHead, iteration := l.iteration + 1) else l.(pc := Broadcast(stride / 2))
    case FinishCollect(_) => l.(pc := Stop(1))
    case FinishAnnounce => l.(pc := Stop(1))
    case Stop(gpu) => l.(pc := if gpu == 1 then Stop(2) else Exited)
    case _ => l
  }

  /** A process at this place of its program makes sense of such a message. */
  predicate Wants<V>(l: Local<V>, m: Message<V>) {
    match l
    case Cpu(pc, _, _, _) =>
      (match pc
       case AwaitGradient(_) => m.Gradient?
       case Reduce(_) => m.Gradient?
       case Broadcast(_) => m.Model?
       case _ => m.Token?)
    case AwaitHeader => m.Header?
    case AwaitModel(_) => m.Model?
    case _ => false
  }

  /** The local state after a receive. */
  function CpuAccept<V>(job: Job<V>, r: int, l: Local<V>, m: Message<V>): Local<V>
    requires l.Cpu? && Wants(l, m)
  {
    match l.pc
    case StartCollect(peer) => l.(pc := StartCollect(peer + 1))
    case StartAwait => l.(pc := LoopHead)
    case AwaitGradient(gpu) =>
      if gpu == 1 then l.(pc := AwaitGradient(2), gradient := m.values)
      else l.(pc := Reduce(1), gradient := job.training.add(l.gradient, m.values))
    case Reduce(stride) => l.(pc := Reduce(2 * stride), gradient := job.training.add(l.gradient, m.values))
    case Broadcast(stride) => l.(pc := Broadcast(stride / 2), model := m.values)
    case FinishCollect(peer) => l.(pc := FinishCollect(peer + 1))
    case _ => l
  }

  // ----- GPU worker at (r, y)

  function GpuIntent<V>(r: int, l: Local<V>): Intent<Message<V>>
    requires !l.Cpu?
  {
    match l
    case AwaitHeader => Receive(Chiplet(r, 0), 16)
    case AwaitModel(_) => Receive(Chiplet(r, 0), 8 * PARAMETERS)
    case Reply(values) => Send(Chiplet(r, 0), Gradient(values))
    case GpuExited => Halted
    case GpuFailed => Halted
    case Mangled => Halted
  }

  function GpuAccept<V>(job: Job<V>, c: Chiplet, l: Local<V>, m: Message<V>): Local<V>
    requires !l.Cpu? && Wants(l, m)
  {
    match l
    case AwaitHeader =>
      if m.iteration < 0 then GpuExited
      else if m.samples <= 0 || m.samples > MAXIMUM_SAMPLES then GpuFailed
      else AwaitModel(m.samples)
    case AwaitModel(samples) => Reply(job.training.gradient(m.values, c.x, c.y - 1, job.ranks, samples))
  }

  // ----- The network

  function IntentOf<V>(job: Job<V>, c: Chiplet, l: Local<V>): Intent<Message<V>> {
    if l.Cpu? then CpuIntent(job, c.x, l) else GpuIntent(c.x, l)
  }

  function AfterOf<V>(job: Job<V>, c: Chiplet, l: Local<V>): Local<V> {
    if l.Cpu? then CpuAfter(job, c.x, l) else if l.Reply? then AwaitHeader else l
  }

  function AcceptOf<V>(job: Job<V>, c: Chiplet, l: Local<V>, m: Message<V>): Local<V> {
    if !Wants(l, m) then Mangled else if l.Cpu? then CpuAccept(job, c.x, l, m) else GpuAccept(job, c, l, m)
  }

  function Mlp<V>(job: Job<V>): Protocol<Local<V>, Message<V>> {
    Protocol((c, l) => IntentOf(job, c, l), (c, l) => AfterOf(job, c, l), (c, l, m) => AcceptOf(job, c, l, m),
             m => Bytes(m))
  }

  function Chiplets(ranks: nat): set<Chiplet> {
    set r, y | 0 <= r < ranks && 0 <= y <= 2 :: Chiplet(r, y)
  }

  /** All processes at their entry point, all channels empty. */
  ghost function Launched<V>(job: Job<V>): State<Local<V>, Message<V>> {
    Quiet(map c | c in Chiplets(job.ranks) :: Entry(job, c))
  }

  /** All processes have exited, every rank with the model of the sequential reference, and all
      channels are empty.  What a rank keeps in its gradient is its entry of the last reduction. */
  ghost function Finished<V>(job: Job<V>): State<Local<V>, Message<V>>
    requires job.Accepted()
  {
    var model := ReferenceModel(job.training, job.ranks, job.samples, job.iterations);
    var gradient := ReducedGradients(job, job.iterations - 1);
    Quiet(map c | c in Chiplets(job.ranks) ::
      if c.y == 0 then Cpu(Exited, job.iterations, model, gradient[c.x]) else GpuExited)
  }

  /** The gradients of round `iteration` of the sequential loop, reduced. */
  function ReducedGradients<V>(job: Job<V>, iteration: nat): (g: seq<V>)
    requires job.ranks > 0
    ensures |g| == job.ranks
  {
    var model := ReferenceModel(job.training, job.ranks, job.samples, iteration);
    TreeReduce(job.training.add, RankGradients(job.training, model, job.ranks, job.SamplesPerGpu()), 1)
  }
}
