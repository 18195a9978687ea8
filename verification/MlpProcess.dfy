/** The programs of the data-parallel MLP with their loops and variables, and the proof that their
    sends, receives and updates are those of the processes in `MlpProtocol`. */
module MlpProcess {
  import opened Options
  import opened Network
  import opened MlpReference
  import opened MlpProtocol
  import opened MlpScaling
  import opened MlpSchedule

  /** What a program does, as seen from outside; `Tau` is a step without a message. */
  datatype Action<V> = Tau | Sent(to: Chiplet, message: Message<V>) | Received(from: Chiplet, message: Message<V>)

  /** The process at `c` after an action, if it may take this action at all. */
  ghost function Taken<V>(job: Job<V>, c: Chiplet, l: Local<V>, a: Action<V>): Option<Local<V>> {
    match (a, IntentOf(job, c, l))
    case (Tau, Internal) => Some(AfterOf(job, c, l))
    case (Sent(to, m), Send(to', m')) => if to == to' && m == m' then Some(AfterOf(job, c, l)) else None
    case (Received(from, m), Receive(from', bytes)) =>
      if from == from' && Bytes(m) == bytes then Some(AcceptOf(job, c, l, m)) else None
    case _ => None
  }

  ghost function Follow<V>(job: Job<V>, c: Chiplet, l: Local<V>, actions: seq<Action<V>>): Option<Local<V>>
    decreases |actions|
  {
    if actions == [] then Some(l)
    else
      match Follow(job, c, l, actions[..|actions| - 1])
      case None => None
      case Some(k) => Taken(job, c, k, actions[|actions| - 1])
  }

  // ----- What a program learns from its receives

  /** The contents of a message as a program sees them: a model looks like a gradient, and there is
      nothing in a token. */
  datatype Datum<V> = Work(iteration: int, samples: int) | Numbers(values: V)

  function Size<V>(d: Datum<V>): nat {
    if d.Work? then 16 else 8 * PARAMETERS
  }

  function Data<V>(m: Message<V>): seq<Datum<V>> {
    match m
    case Token => []
    case Header(iteration, samples) => [Work(iteration, samples)]
    case Model(values) => [Numbers(values)]
    case Gradient(values) => [Numbers(values)]
  }

  function Heard<V>(actions: seq<Action<V>>): seq<Datum<V>> {
    if actions == [] then []
    else Heard(actions[..|actions| - 1]) + DataOf(actions[|actions| - 1])
  }

  function DataOf<V>(a: Action<V>): seq<Datum<V>> {
    if a.Received? then Data(a.message) else []
  }

  /** The first `n` of an endless supply of vectors. */
  function Supply<V>(arrivals: nat -> V, n: nat): (s: seq<Datum<V>>)
    ensures |s| == n && forall k | 0 <= k < n :: s[k] == Numbers(arrivals(k))
  {
    seq(n, (k: nat) => Numbers(arrivals(k)))
  }

  // ----- Keeping account

  /** Where a program is, and what it has heard. */
  datatype Point<V> = Point(at: Local<V>, heard: seq<Datum<V>>)

  ghost predicate Link<V>(job: Job<V>, c: Chiplet, p: Point<V>, a: Action<V>, q: Point<V>) {
    Taken(job, c, p.at, a) == Some(q.at) && q.heard == p.heard + DataOf(a)
  }

  /** The points that a program has gone through from `l` to `now`. */
  ghost predicate Trail<V>(job: Job<V>, c: Chiplet, l: Local<V>, actions: seq<Action<V>>, points: seq<Point<V>>, now: Point<V>) {
    && |points| == |actions| + 1 && points[0] == Point(l, []) && points[|actions|] == now
    && forall k | 0 <= k < |actions| :: Link(job, c, points[k], actions[k], points[k + 1])
  }

  lemma {:induction false} TrailFollows<V>(
      job: Job<V>, c: Chiplet, l: Local<V>, actions: seq<Action<V>>, points: seq<Point<V>>, now: Point<V>)
    requires Trail(job, c, l, actions, points, now)
    ensures Follow(job, c, l, actions) == Some(now.at) && Heard(actions) == now.heard
    decreases |actions|
  {
    if actions != [] {
      var n := |actions| - 1;
      TrailFollows(job, c, l, actions[..n], points[..n + 1], points[n]);
      assert Link(job, c, points[n], actions[n], points[n + 1]);
    }
  }

  lemma TrailGrows<V>(
      job: Job<V>, c: Chiplet, l: Local<V>, actions: seq<Action<V>>, points: seq<Point<V>>, now: Point<V>, a: Action<V>, next: Point<V>)
    requires Trail(job, c, l, actions, points, now) && Link(job, c, now, a, next)
    ensures Trail(job, c, l, actions + [a], points + [next], next)
  {
  }

  /** The program of one CPU rank.  The vectors it receives are arbitrary. */
  class CpuProcess<V(!new)> {
    const job: Job<V>
    const rank: nat
    const arrivals: nat -> V
    var model: V
    var gradient: V
    var received: nat
    ghost var actions: seq<Action<V>>
    ghost var points: seq<Point<V>>
    ghost var now: Point<V>

    constructor (job: Job<V>, rank: nat, arrivals: nat -> V)
      ensures this.job == job && this.rank == rank && this.arrivals == arrivals && received == 0
      ensures Valid() && model == gradient == job.training.initial
      ensures now == Point(Entry(job, Chiplet(rank, 0)), [])
    {
      this.job, this.rank, this.arrivals := job, rank, arrivals;
      model, gradient, received := job.training.initial, job.training.initial, 0;
      var start := Point(Entry(job, Chiplet(rank, 0)), []);
      actions, points, now := [], [start], start;
    }

    /** The account of what the program has done is in order. */
    ghost predicate Valid()
      reads this`actions, this`points, this`now
    {
      Trail(job, Chiplet(rank, 0), Entry(job, Chiplet(rank, 0)), actions, points, now)
    }

    /** The program stands there in the protocol, with its own variables, and has been fed from its supply. */
    ghost predicate At(pc: Pc, iteration: int)
      reads this
    {
      Valid() && now == Point(Cpu(pc, iteration, model, gradient), Supply(arrivals, received))
    }

    ghost method Do(a: Action<V>)
      requires Valid() && Taken(job, Chiplet(rank, 0), now.at, a).Some?
      modifies this`actions, this`points, this`now
      ensures Valid() && Link(job, Chiplet(rank, 0), old(now), a, now)
    {
      var next := Point(Taken(job, Chiplet(rank, 0), now.at, a).value, now.heard + DataOf(a));
      TrailGrows(job, Chiplet(rank, 0), Entry(job, Chiplet(rank, 0)), actions, points, now, a, next);
      actions, points, now := actions + [a], points + [next], next;
    }

    method SendMessage(to: Chiplet, m: Message<V>)
      requires Valid() && IntentOf(job, Chiplet(rank, 0), now.at) == Send(to, m)
      modifies this`actions, this`points, this`now
      ensures Valid() && now == Point(AfterOf(job, Chiplet(rank, 0), old(now).at), old(now).heard)
    {
      Do(Sent(to, m));
    }

    ghost method StepOn()
      requires Valid() && IntentOf(job, Chiplet(rank, 0), now.at).Internal?
      modifies this`actions, this`points, this`now
      ensures Valid() && now == Point(AfterOf(job, Chiplet(rank, 0), old(now).at), old(now).heard)
    {
      Do(Tau);
    }

    method ReceiveToken(from: Chiplet)
      requires Valid() && IntentOf(job, Chiplet(rank, 0), now.at) == Receive(from, 4)
      modifies this`actions, this`points, this`now
      ensures Valid() && now == Point(AcceptOf(job, Chiplet(rank, 0), old(now).at, Token), old(now).heard)
    {
      Do(Received(from, Token));
    }

    method ReceiveGradient(from: Chiplet) returns (v: V)
      requires Valid() && IntentOf(job, Chiplet(rank, 0), now.at) == Receive(from, 8 * PARAMETERS)
      requires now.heard == Supply(arrivals, received)
      modifies this`actions, this`points, this`now, this`received
      ensures Valid() && received == old(received) + 1
      ensures now == Point(AcceptOf(job, Chiplet(rank, 0), old(now).at, Gradient(v)), Supply(arrivals, received))
    {
      v := arrivals(received);
      received := received + 1;
      Do(Received(from, Gradient(v)));
    }

    method ReceiveModel(from: Chiplet) returns (v: V)
      requires Valid() && IntentOf(job, Chiplet(rank, 0), now.at) == Receive(from, 8 * PARAMETERS)
      requires now.heard == Supply(arrivals, received)
      modifies this`actions, this`points, this`now, this`received
      ensures Valid() && received == old(received) + 1
      ensures now == Point(AcceptOf(job, Chiplet(rank, 0), old(now).at, Model(v)), Supply(arrivals, received))
    {
      v := arrivals(received);
      received := received + 1;
      Do(Received(from, Model(v)));
    }

    method StartBarrier()
      requires 0 < job.ranks && At(if rank == 0 then StartCollect(1) else StartAnnounce, 0)
      modifies this`actions, this`points, this`now
      ensures At(LoopHead, 0)
    {
      if rank == 0 {
        for peer := 1 to job.ranks
          invariant At(StartCollect(peer), 0)
        {
          ReceiveToken(Chiplet(peer, 0));
        }
        StepOn();
        for peer := 1 to job.ranks
          invariant At(StartRelease(peer), 0)
        {
          SendMessage(Chiplet(peer, 0), Token);
        }
        StepOn();
      } else {
        SendMessage(Chiplet(0, 0), Token);
        ReceiveToken(Chiplet(0, 0));
      }
    }

    /** The reduction; on return the program goes on with the update, or with the broadcast. */
    method ReduceGradientTree(ghost iteration: int)
      requires At(Reduce(1), iteration)
      modifies this`actions, this`points, this`now, this`received, this`gradient
      ensures At(AfterReduction(job, rank), iteration)
    {
      var stride := 1;
      while stride < job.ranks
        invariant stride > 0 && At(Reduce(stride), iteration)
        decreases job.ranks - stride
      {
        var position := rank % (2 * stride);
        if position == stride {
          SendMessage(Chiplet(rank - stride, 0), Gradient(gradient));
          return;
        }
        var child := rank + stride;
        if position == 0 && child < job.ranks {
          var v := ReceiveGradient(Chiplet(child, 0));
          gradient := job.training.add(gradient, v);
        } else {
          StepOn();
        }
        stride := 2 * stride;
      }
      StepOn();
    }

    /** The broadcast; with a power-of-two count every rank but the root receives exactly one model. */
    method BroadcastModelTree(ghost iteration: int)
      requires At(Broadcast(job.ranks / 2), iteration)
      modifies this`actions, this`points, this`now, this`received, this`model
      ensures At(LoopHead, iteration + 1)
      ensures IsPowerOfTwo(job.ranks) && rank < job.ranks ==> received == old(received) + (if rank == 0 then 0 else 1)
    {
      var stride: int := job.ranks / 2;
      ghost var power := IsPowerOfTwo(job.ranks);
      while stride >= 1
        invariant stride >= 0 && At(Broadcast(stride), iteration)
        invariant power ==> stride == 0 || IsPowerOfTwo(stride)
        invariant power ==> received + ReceiveCount(rank, 2 * stride) == old(received) + ReceiveCount(rank, 2 * (job.ranks / 2))
        decreases stride
      {
        var position := rank % (2 * stride);
        if power {
          CountOfLevel(rank, stride);
        }
        if position == 0 && rank + stride < job.ranks {
          SendMessage(Chiplet(rank + stride, 0), Model(model));
        } else if position == stride {
          model := ReceiveModel(Chiplet(rank - stride, 0));
        } else {
          StepOn();
        }
        stride := stride / 2;
      }
      StepOn();
      if power && rank < job.ranks {
        CountOfBroadcast(rank, job.ranks);
      }
    }

    method SynchroniseModel(ghost iteration: int)
      requires At(Reduce(1), iteration)
      modifies this`actions, this`points, this`now, this`received, this`model, this`gradient
      ensures At(LoopHead, iteration + 1)
    {
      ReduceGradientTree(iteration);
      if rank == 0 {
        model := job.training.update(model, gradient, job.samples);
        StepOn();
      }
      BroadcastModelTree(iteration);
    }

    method SendToGpu(gpu: int, iteration: int)
      requires 1 <= gpu <= 2 && job.ranks > 0 && At(SendHeader(gpu), iteration)
      modifies this`actions, this`points, this`now
      ensures At(if gpu == 1 then SendHeader(2) else AwaitGradient(1), iteration)
    {
      SendMessage(Chiplet(rank, gpu), Header(iteration, job.SamplesPerGpu()));
      SendMessage(Chiplet(rank, gpu), Model(model));
    }

    method FinishBarrier(ghost iteration: int)
      requires 0 < job.ranks && At(if rank == 0 then FinishCollect(1) else FinishAnnounce, iteration)
      modifies this`actions, this`points, this`now
      ensures At(Stop(1), iteration)
    {
      if rank != 0 {
        SendMessage(Chiplet(0, 0), Token);
        return;
      }
      for peer := 1 to job.ranks
        invariant At(FinishCollect(peer), iteration)
      {
        ReceiveToken(Chiplet(peer, 0));
      }
      StepOn();
    }

    method StopGpuWorkers(ghost iteration: int)
      requires At(Stop(1), iteration)
      modifies this`actions, this`points, this`now
      ensures At(Exited, iteration)
    {
      for gpu := 1 to 3
        invariant At(if gpu <= 2 then Stop(gpu) else Exited, iteration)
      {
        SendMessage(Chiplet(rank, gpu), Header(-1, 0));
      }
    }

    method Iterate(iteration: int)
      requires job.ranks > 0 && At(SendHeader(1), iteration)
      modifies this`actions, this`points, this`now, this`received, this`model, this`gradient
      ensures At(LoopHead, iteration + 1)
    {
      SendToGpu(1, iteration);
      SendToGpu(2, iteration);
      gradient := ReceiveGradient(Chiplet(rank, 1));
      var other := ReceiveGradient(Chiplet(rank, 2));
      gradient := job.training.add(gradient, other);
      SynchroniseModel(iteration);
    }

    /** The whole program: whatever it receives, it does what the protocol says, in this order, and its
        variables have the values that the protocol says. */
    method Run()
      requires job.Accepted() && Valid() && now == Point(Entry(job, Chiplet(rank, 0)), [])
      requires received == 0 && model == gradient == job.training.initial
      modifies this`actions, this`points, this`now, this`received, this`model, this`gradient
      ensures Performed(job, rank, arrivals, actions, model, gradient)
    {
      StartBarrier();
      var iteration := 0;
      while iteration < job.iterations
        invariant 0 <= iteration <= job.iterations && At(LoopHead, iteration)
      {
        StepOn();
        Iterate(iteration);
        iteration := iteration + 1;
      }
      StepOn();
      FinishBarrier(job.iterations);
      StopGpuWorkers(job.iterations);
      TrailFollows(job, Chiplet(rank, 0), Entry(job, Chiplet(rank, 0)), actions, points, now);
    }
  }

  /** The program of one GPU worker; `inbox` is all that its CPU ever sends. */
  class GpuProcess<V(!new)> {
    const job: Job<V>
    const place: Chiplet
    var inbox: seq<Datum<V>>
    ghost var actions: seq<Action<V>>
    ghost var points: seq<Point<V>>
    ghost var now: Point<V>

    constructor (job: Job<V>, place: Chiplet, inbox: seq<Datum<V>>)
      ensures this.job == job && this.place == place && this.inbox == inbox
      ensures Valid() && now == Point(AwaitHeader, [])
    {
      this.job, this.place, this.inbox := job, place, inbox;
      actions, points, now := [], [Point(AwaitHeader, [])], Point(AwaitHeader, []);
    }

    ghost predicate Valid()
      reads this`actions, this`points, this`now
    {
      Trail(job, place, AwaitHeader, actions, points, now)
    }

    ghost method Do(a: Action<V>)
      requires Valid() && Taken(job, place, now.at, a).Some?
      modifies this`actions, this`points, this`now
      ensures Valid() && Link(job, place, old(now), a, now)
    {
      var next := Point(Taken(job, place, now.at, a).value, now.heard + DataOf(a));
      TrailGrows(job, place, AwaitHeader, actions, points, now, a, next);
      actions, points, now := actions + [a], points + [next], next;
    }

    predicate Arrived(bytes: nat)
      reads this
    {
      inbox != [] && Size(inbox[0]) == bytes
    }

    method ReceiveHeader() returns (iteration: int, samples: int)
      requires Valid() && now.at == AwaitHeader && Arrived(16)
      modifies this`actions, this`points, this`now, this`inbox
      ensures Valid() && inbox == old(inbox)[1..] && now.heard + inbox == old(now.heard + inbox)
      ensures now.at == GpuAccept(job, place, AwaitHeader, Header(iteration, samples))
    {
      iteration, samples := inbox[0].iteration, inbox[0].samples;
      inbox := inbox[1..];
      Do(Received(Chiplet(place.x, 0), Header(iteration, samples)));
    }

    method ReceiveModel() returns (v: V)
      requires Valid() && now.at.AwaitModel? && Arrived(8 * PARAMETERS)
      modifies this`actions, this`points, this`now, this`inbox
      ensures Valid() && inbox == old(inbox)[1..] && now.heard + inbox == old(now.heard + inbox)
      ensures now.at == GpuAccept(job, place, old(now).at, Model(v))
    {
      v := inbox[0].values;
      inbox := inbox[1..];
      Do(Received(Chiplet(place.x, 0), Model(v)));
    }

    method SendMessage(to: Chiplet, m: Message<V>)
      requires Valid() && IntentOf(job, place, now.at) == Send(to, m)
      modifies this`actions, this`points, this`now
      ensures Valid() && now == Point(AfterOf(job, place, old(now).at), old(now).heard)
    {
      Do(Sent(to, m));
    }

    /** One round of the worker loop, which may be its last. */
    method ServeOne() returns (done: bool)
      requires Valid() && now.at == AwaitHeader && Arrived(16)
      modifies this`actions, this`points, this`now, this`inbox
      ensures Valid() && now.heard + inbox == old(now.heard + inbox) && |inbox| < |old(inbox)|
      ensures if done then Stopped(now.at, inbox) else now.at == AwaitHeader
    {
      var iteration, samples := ReceiveHeader();
      if iteration < 0 {
        return true;
      }
      if samples <= 0 || samples > MAXIMUM_SAMPLES {
        return true;
      }
      if !Arrived(8 * PARAMETERS) {
        return true;
      }
      var model := ReceiveModel();
      var gradient := job.training.gradient(model, place.x, place.y - 1, job.ranks, samples);
      SendMessage(Chiplet(place.x, 0), Gradient(gradient));
      done := false;
    }

    /** The worker ends with an exit, or with a failure on a bad header; or else it is blocked, as the
        protocol is, on a message that never comes. */
    method Serve()
      requires Valid() && now == Point(AwaitHeader, [])
      modifies this`actions, this`points, this`now, this`inbox
      ensures Served(job, place, old(inbox), actions, inbox)
    {
      var done := false;
      while !done && Arrived(16)
        invariant Valid() && now.heard + inbox == old(inbox)
        invariant if done then Stopped(now.at, inbox) else now.at == AwaitHeader
        decreases |inbox|
      {
        done := ServeOne();
      }
      TrailFollows(job, place, AwaitHeader, actions, points, now);
    }
  }

  predicate Stopped<V>(l: Local<V>, rest: seq<Datum<V>>) {
    match l
    case GpuExited => true
    case GpuFailed => true
    case AwaitHeader => rest == [] || Size(rest[0]) != 16
    case AwaitModel(_) => rest == [] || Size(rest[0]) != 8 * PARAMETERS
    case _ => false
  }

  /** How a GPU worker ends that has heard the front of `inbox` and left `rest`. */
  ghost predicate Served<V>(job: Job<V>, place: Chiplet, inbox: seq<Datum<V>>, actions: seq<Action<V>>, rest: seq<Datum<V>>) {
    && Heard(actions) + rest == inbox && Follow(job, place, AwaitHeader, actions).Some?
    && Stopped(Follow(job, place, AwaitHeader, actions).value, rest)
  }

  // ----- The processes in the network

  /** What the process at `p` does in a run. */
  ghost function ActionsOf<V>(
      job: Job<V>, s: State<Local<V>, Message<V>>, order: seq<Chiplet>, p: Chiplet): seq<Action<V>>
    requires Network.Run(Mlp(job), s, order).Some?
    decreases |order|
  {
    if order == [] then []
    else
      (if order[0] == p then [ActionNow(job, s, p)] else [])
      + ActionsOf(job, Step(Mlp(job), s, order[0]), order[1..], p)
  }

  ghost function ActionNow<V>(job: Job<V>, s: State<Local<V>, Message<V>>, p: Chiplet): Action<V>
    requires Enabled(Mlp(job), s, p)
  {
    match IntentOf(job, p, s.locals[p])
    case Send(to, m) => Sent(to, m)
    case Receive(from, _) => Received(from, Queue(s.channels, from, p)[0])
    case _ => Tau
  }

  lemma {:induction false} FollowFirst<V>(job: Job<V>, c: Chiplet, l: Local<V>, a: Action<V>, rest: seq<Action<V>>)
    requires Taken(job, c, l, a).Some?
    ensures Follow(job, c, l, [a] + rest) == Follow(job, c, Taken(job, c, l, a).value, rest)
    decreases |rest|
  {
    if rest == [] {
      assert [a] + rest == [a] && [a][..0] == [];
    } else {
      FollowFirst(job, c, l, a, rest[..|rest| - 1]);
      assert ([a] + rest)[..|[a] + rest| - 1] == [a] + rest[..|rest| - 1];
    }
  }

  /** In every run of the network, every process is where its own actions have brought it. */
  lemma {:induction false} RunsFollowTheProtocol<V>(
      job: Job<V>, s: State<Local<V>, Message<V>>, order: seq<Chiplet>, t: State<Local<V>, Message<V>>, p: Chiplet)
    requires Network.Run(Mlp(job), s, order) == Some(t) && p in s.locals
    ensures p in t.locals && Follow(job, p, s.locals[p], ActionsOf(job, s, order, p)) == Some(t.locals[p])
    decreases |order|
  {
    if order != [] {
      var next := Step(Mlp(job), s, order[0]);
      RunsFollowTheProtocol(job, next, order[1..], t, p);
      if order[0] == p {
        ActionIsTaken(job, s, p);
        FollowFirst(job, p, s.locals[p], ActionNow(job, s, p), ActionsOf(job, next, order[1..], p));
      } else {
        assert [] + ActionsOf(job, next, order[1..], p) == ActionsOf(job, next, order[1..], p);
      }
    }
  }

  lemma ActionIsTaken<V>(job: Job<V>, s: State<Local<V>, Message<V>>, p: Chiplet)
    requires Enabled(Mlp(job), s, p)
    ensures Taken(job, p, s.locals[p], ActionNow(job, s, p)) == Some(Step(Mlp(job), s, p).locals[p])
  {
  }

  // ----- What a program hears determines what it does

  lemma {:induction false} FollowPrefix<V>(job: Job<V>, c: Chiplet, l: Local<V>, actions: seq<Action<V>>, n: nat)
    requires n <= |actions| && Follow(job, c, l, actions).Some? && Follow(job, c, l, actions) != Some(Mangled)
    ensures Follow(job, c, l, actions[..n]).Some? && Follow(job, c, l, actions[..n]) != Some(Mangled)
    ensures n < |actions| ==>
      Follow(job, c, l, actions[..n + 1]) == Taken(job, c, Follow(job, c, l, actions[..n]).value, actions[n])
    decreases |actions| - n
  {
    if n == |actions| {
      assert actions[..n] == actions;
    } else {
      FollowPrefix(job, c, l, actions, n + 1);
      assert actions[..n + 1][..n] == actions[..n];
    }
  }

  lemma {:induction false} HeardPrefix<V>(actions: seq<Action<V>>, n: nat)
    requires n <= |actions|
    ensures Heard(actions[..n]) <= Heard(actions)
    ensures n < |actions| ==> Heard(actions[..n + 1]) == Heard(actions[..n]) + DataOf(actions[n])
    decreases |actions| - n
  {
    if n == |actions| {
      assert actions[..n] == actions;
    } else {
      HeardPrefix(actions, n + 1);
      assert actions[..n + 1][..n] == actions[..n];
    }
  }

  /** At one place of a program there is only one action to take, given what is heard. */
  lemma SameAction<V>(job: Job<V>, c: Chiplet, l: Local<V>, a: Action<V>, b: Action<V>, heard: seq<Datum<V>>, all: seq<Datum<V>>)
    requires Taken(job, c, l, a).Some? && Taken(job, c, l, a) != Some(Mangled)
    requires Taken(job, c, l, b).Some? && Taken(job, c, l, b) != Some(Mangled)
    requires heard + DataOf(a) <= all && heard + DataOf(b) <= all
    ensures a == b
  {
    if a.Received? {
      assert Wants(l, a.message) && Wants(l, b.message);
      if DataOf(a) != [] {
        assert (heard + DataOf(a))[|heard|] == all[|heard|] == (heard + DataOf(b))[|heard|];
      }
    }
  }

  /** Two accounts of one program that hear nothing different are the same, as far as they go. */
  lemma {:induction false} Deterministic<V>(
      job: Job<V>, c: Chiplet, l: Local<V>, a: seq<Action<V>>, b: seq<Action<V>>, all: seq<Datum<V>>)
    requires Follow(job, c, l, a).Some? && Follow(job, c, l, a) != Some(Mangled)
    requires Follow(job, c, l, b).Some? && Follow(job, c, l, b) != Some(Mangled)
    requires Heard(a) <= all && Heard(b) <= all
    ensures a <= b || b <= a
    decreases |a|
  {
    if a != [] {
      var n := |a| - 1;
      FollowPrefix(job, c, l, a, n);
      HeardPrefix(a, n);
      Deterministic(job, c, l, a[..n], b, all);
      if n < |b| {
        SameSoFar(a[..n], b);
        SameNext(job, c, l, a, b, n, all);
        SplitLast(a, b);
      }
    }
  }

  lemma SameSoFar<V>(a: seq<Action<V>>, b: seq<Action<V>>)
    requires (a <= b || b <= a) && |a| <= |b|
    ensures a == b[..|a|]
  {
  }

  lemma SplitLast<V>(a: seq<Action<V>>, b: seq<Action<V>>)
    requires 0 < |a| <= |b| && a[..|a| - 1] == b[..|a| - 1] && a[|a| - 1] == b[|a| - 1]
    ensures a <= b
  {
    assert a == a[..|a| - 1] + [a[|a| - 1]];
  }

  lemma SameNext<V>(
      job: Job<V>, c: Chiplet, l: Local<V>, a: seq<Action<V>>, b: seq<Action<V>>, n: nat, all: seq<Datum<V>>)
    requires Follow(job, c, l, a).Some? && Follow(job, c, l, a) != Some(Mangled)
    requires Follow(job, c, l, b).Some? && Follow(job, c, l, b) != Some(Mangled)
    requires Heard(a) <= all && Heard(b) <= all && n < |a| && n < |b| && a[..n] == b[..n]
    ensures a[n] == b[n]
  {
    FollowPrefix(job, c, l, a, n);
    FollowPrefix(job, c, l, a, n + 1);
    FollowPrefix(job, c, l, b, n);
    FollowPrefix(job, c, l, b, n + 1);
    HeardPrefix(a, n);
    HeardPrefix(a, n + 1);
    HeardPrefix(b, n);
    HeardPrefix(b, n + 1);
    SameAction(job, c, Follow(job, c, l, a[..n]).value, a[n], b[n], Heard(a[..n]), all);
  }

  /** Nothing follows a halt. */
  lemma HaltedIsLast<V>(job: Job<V>, c: Chiplet, l: Local<V>, a: seq<Action<V>>, b: seq<Action<V>>)
    requires a <= b && Follow(job, c, l, a).Some? && IntentOf(job, c, Follow(job, c, l, a).value).Halted?
    requires Follow(job, c, l, b).Some? && Follow(job, c, l, b) != Some(Mangled)
    ensures a == b
  {
    if |a| < |b| {
      assert b[..|a|] == a;
      FollowPrefix(job, c, l, b, |a|);
      FollowPrefix(job, c, l, b, |a| + 1);
    }
  }

  /** Two accounts that go all the way are the same. */
  lemma SameAccount<V>(
      job: Job<V>, c: Chiplet, l: Local<V>, a: seq<Action<V>>, b: seq<Action<V>>, all: seq<Datum<V>>)
    requires Ends(job, c, l, a) && Ends(job, c, l, b)
    requires Heard(a) <= all && Heard(b) <= all
    ensures a == b
  {
    Deterministic(job, c, l, a, b, all);
    if a <= b {
      HaltedIsLast(job, c, l, a, b);
    } else {
      HaltedIsLast(job, c, l, b, a);
    }
  }

  ghost predicate Ends<V>(job: Job<V>, c: Chiplet, l: Local<V>, actions: seq<Action<V>>) {
    match Follow(job, c, l, actions)
    case None => false
    case Some(k) => k != Mangled && IntentOf(job, c, k).Halted?
  }

  ghost predicate HasModel<V>(l: Local<V>, model: V) {
    l.Cpu? && l.model == model
  }

  lemma EndOf<V>(job: Job<V>, p: Chiplet)
    requires job.Accepted() && p in Chiplets(job.ranks)
    ensures p in Launched(job).locals && Launched(job).locals[p] == Entry(job, p)
    ensures p in Finished(job).locals && Finished(job).locals[p] != Mangled && IntentOf(job, p, Finished(job).locals[p]).Halted?
    ensures p.y == 0 ==> HasModel(Finished(job).locals[p], ReferenceModel(job.training, job.ranks, job.samples, job.iterations))
  {
  }

  lemma FinishedActions<V>(job: Job<V>, order: seq<Chiplet>, p: Chiplet)
    requires job.Accepted() && Network.Run(Mlp(job), Launched(job), order) == Some(Finished(job)) && p in Chiplets(job.ranks)
    ensures Ends(job, p, Entry(job, p), ActionsOf(job, Launched(job), order, p))
    ensures p in Finished(job).locals
         && Follow(job, p, Entry(job, p), ActionsOf(job, Launched(job), order, p)) == Some(Finished(job).locals[p])
  {
    EndOf(job, p);
    RunsFollowTheProtocol(job, Launched(job), order, Finished(job), p);
  }

  /** All that is heard comes from this supply, in its order. */
  ghost predicate IsSupplied<V>(arrivals: nat -> V, actions: seq<Action<V>>) {
    Heard(actions) == Supply(arrivals, |Heard(actions)|)
  }

  /** What `CpuProcess.Run` ensures of its actions. */
  ghost predicate Performed<V>(job: Job<V>, rank: nat, arrivals: nat -> V, actions: seq<Action<V>>, model: V, gradient: V) {
    && Follow(job, Chiplet(rank, 0), Entry(job, Chiplet(rank, 0)), actions) == Some(Cpu(Exited, job.iterations, model, gradient))
    && IsSupplied(arrivals, actions)
  }

  /** So the results about all runs are results about the programs: in any finished run of the network, a
      rank has done exactly what its program does when it receives the vectors that the rank received. */
  lemma RankRunsItsProgram<V>(
      job: Job<V>, order: seq<Chiplet>, rank: nat, arrivals: nat -> V,
      actions: seq<Action<V>>, model: V, gradient: V)
    requires job.Accepted() && Network.Run(Mlp(job), Launched(job), order) == Some(Finished(job)) && rank < job.ranks
    requires IsSupplied(arrivals, ActionsOf(job, Launched(job), order, Chiplet(rank, 0)))
    requires Performed(job, rank, arrivals, actions, model, gradient)
    ensures actions == ActionsOf(job, Launched(job), order, Chiplet(rank, 0))
    ensures model == ReferenceModel(job.training, job.ranks, job.samples, job.iterations)
  {
    var c := Chiplet(rank, 0);
    FinishedActions(job, order, c);
    SameSupplied(job, rank, arrivals, actions, model, gradient, ActionsOf(job, Launched(job), order, c));
    EndOf(job, c);
  }

  lemma SameSupplied<V>(
      job: Job<V>, rank: nat, arrivals: nat -> V, a: seq<Action<V>>, model: V, gradient: V, b: seq<Action<V>>)
    requires Performed(job, rank, arrivals, a, model, gradient)
    requires Ends(job, Chiplet(rank, 0), Entry(job, Chiplet(rank, 0)), b) && IsSupplied(arrivals, b)
    ensures a == b
  {
    var n := |Heard(a)| + |Heard(b)|;
    SupplyGrows(arrivals, |Heard(a)|, n);
    SupplyGrows(arrivals, |Heard(b)|, n);
    SameAccount(job, Chiplet(rank, 0), Entry(job, Chiplet(rank, 0)), a, b, Supply(arrivals, n));
  }

  lemma SupplyGrows<V>(arrivals: nat -> V, n: nat, m: nat)
    requires n <= m
    ensures Supply(arrivals, n) <= Supply(arrivals, m)
  {
  }

  /** Likewise for a GPU worker and the headers and models it received. */
  lemma WorkerRunsItsProgram<V>(
      job: Job<V>, order: seq<Chiplet>, place: Chiplet, inbox: seq<Datum<V>>, actions: seq<Action<V>>, rest: seq<Datum<V>>)
    requires job.Accepted() && Network.Run(Mlp(job), Launched(job), order) == Some(Finished(job))
    requires place in Chiplets(job.ranks) && place.y != 0
    requires inbox == Heard(ActionsOf(job, Launched(job), order, place))
    requires Served(job, place, inbox, actions, rest)
    ensures actions == ActionsOf(job, Launched(job), order, place) && rest == []
  {
    var b := ActionsOf(job, Launched(job), order, place);
    FinishedActions(job, order, place);
    assert Heard(actions) <= inbox;
    FollowStopped(job, place, actions, rest);
    Deterministic(job, place, AwaitHeader, actions, b, inbox);
    NotStoppedEarly(job, place, actions, b, rest);
    HaltedIsLast(job, place, AwaitHeader, b, actions);
  }

  lemma FollowStopped<V>(job: Job<V>, place: Chiplet, actions: seq<Action<V>>, rest: seq<Datum<V>>)
    requires Served(job, place, Heard(actions) + rest, actions, rest)
    ensures Follow(job, place, AwaitHeader, actions) != Some(Mangled)
  {
  }

  /** A worker that has more to do is not stopped: its next message is there. */
  lemma NotStoppedEarly<V>(job: Job<V>, place: Chiplet, a: seq<Action<V>>, b: seq<Action<V>>, rest: seq<Datum<V>>)
    requires Follow(job, place, AwaitHeader, b).Some? && Follow(job, place, AwaitHeader, b) != Some(Mangled)
    requires Served(job, place, Heard(b), a, rest)
    ensures !(a < b)
  {
    if a < b {
      NextIsHeard(job, place, a, b);
      assert false;
    }
  }

  lemma NextIsHeard<V>(job: Job<V>, place: Chiplet, a: seq<Action<V>>, b: seq<Action<V>>)
    requires a < b && Follow(job, place, AwaitHeader, b).Some? && Follow(job, place, AwaitHeader, b) != Some(Mangled)
    ensures Follow(job, place, AwaitHeader, a).Some?
    ensures Heard(a) <= Heard(b) && !Stopped(Follow(job, place, AwaitHeader, a).value, Heard(b)[|Heard(a)|..])
  {
    var n := |a|;
    assert b[..n] == a;
    FollowPrefix(job, place, AwaitHeader, b, n);
    FollowPrefix(job, place, AwaitHeader, b, n + 1);
    HeardPrefix(b, n);
    HeardPrefix(b, n + 1);
    GoesOn(job, place, Follow(job, place, AwaitHeader, a).value, b[n]);
    DropHeard(Heard(a), DataOf(b[n]), Heard(b));
  }

  lemma DropHeard<V>(heard: seq<Datum<V>>, next: seq<Datum<V>>, all: seq<Datum<V>>)
    requires heard + next <= all
    ensures heard <= all && (next != [] ==> all[|heard|..] != [] && all[|heard|..][0] == next[0])
  {
  }

  lemma GoesOn<V>(job: Job<V>, place: Chiplet, l: Local<V>, a: Action<V>)
    requires Taken(job, place, l, a).Some? && Taken(job, place, l, a) != Some(Mangled)
    ensures match l
      case AwaitHeader => DataOf(a) != [] && Size(DataOf(a)[0]) == 16
      case AwaitModel(_) => DataOf(a) != [] && Size(DataOf(a)[0]) == 8 * PARAMETERS
      case _ => l != GpuExited && l != GpuFailed
  {
  }
}
