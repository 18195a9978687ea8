/** One complete run of the MLP-DP processes, phase by phase, and what it says about all runs. */
module MlpSchedule {
  import opened Network
  import opened MlpReference
  import opened MlpProtocol

  /** The three processes of a rank. */
  datatype Node<V> = Node(cpu: Local<V>, gpu1: Local<V>, gpu2: Local<V>)
  {
    function At(y: int): Local<V> {
      if y == 0 then cpu else if y == 1 then gpu1 else gpu2
    }

    function Put(y: int, l: Local<V>): Node<V> {
      if y == 0 then this.(cpu := l) else if y == 1 then this.(gpu1 := l) else this.(gpu2 := l)
    }
  }

  ghost function World<V>(nodes: seq<Node<V>>): map<Chiplet, Local<V>> {
    map c | c in Chiplets(|nodes|) :: nodes[c.x].At(c.y)
  }

  ghost predicate Runs<V>(job: Job<V>, a: seq<Node<V>>, b: seq<Node<V>>) {
    Leads(Mlp(job), World(a), World(b))
  }

  lemma RunsThen<V>(job: Job<V>, a: seq<Node<V>>, b: seq<Node<V>>, c: seq<Node<V>>)
    requires Runs(job, a, b) && Runs(job, b, c)
    ensures Runs(job, a, c)
  {
    Then(Mlp(job), World(a), World(b), World(c));
  }

  lemma WorldPut<V>(a: seq<Node<V>>, r: nat, y: int, l: Local<V>)
    requires r < |a| && 0 <= y <= 2
    ensures Chiplet(r, y) in World(a) && World(a)[Chiplet(r, y)] == a[r].At(y)
    ensures World(a[r := a[r].Put(y, l)]) == World(a)[Chiplet(r, y) := l]
  {
  }

  lemma ComputeAt<V>(job: Job<V>, a: seq<Node<V>>, r: nat)
    requires r < |a| && IntentOf(job, Chiplet(r, 0), a[r].cpu).Internal?
    ensures Runs(job, a, a[r := a[r].(cpu := AfterOf(job, Chiplet(r, 0), a[r].cpu))])
  {
    WorldPut(a, r, 0, AfterOf(job, Chiplet(r, 0), a[r].cpu));
    Compute(Mlp(job), World(a), Chiplet(r, 0));
  }

  /** One more message inside rank `r`, from chiplet (r, y) to (r, z), takes it from `n` to `n'`. */
  lemma RankStep<V>(job: Job<V>, a: seq<Node<V>>, r: nat, n: Node<V>, y: int, z: int, m: Message<V>, n': Node<V>)
    requires r < |a| && 0 <= y <= 2 && 0 <= z <= 2 && y != z
    requires Runs(job, a, a[r := n])
    requires IntentOf(job, Chiplet(r, y), n.At(y)) == Send(Chiplet(r, z), m)
    requires IntentOf(job, Chiplet(r, z), n.At(z)) == Receive(Chiplet(r, y), Bytes(m))
    requires n' == n.Put(y, AfterOf(job, Chiplet(r, y), n.At(y))).Put(z, AcceptOf(job, Chiplet(r, z), n.At(z), m))
    ensures Runs(job, a, a[r := n'])
  {
    var b := a[r := n];
    var sent := n.Put(y, AfterOf(job, Chiplet(r, y), n.At(y)));
    WorldPut(b, r, y, AfterOf(job, Chiplet(r, y), n.At(y)));
    WorldPut(b, r, z, n.At(z));
    WorldPut(b[r := sent], r, z, AcceptOf(job, Chiplet(r, z), n.At(z), m));
    assert b[r := sent][r := n'] == a[r := n'];
    Exchange(Mlp(job), World(b), Chiplet(r, y), Chiplet(r, z), m);
    RunsThen(job, a, b, a[r := n']);
  }

  /** A message from the CPU of rank `p` to the CPU of rank `q` takes `a` to `b`. */
  lemma PeerStep<V>(job: Job<V>, a: seq<Node<V>>, p: nat, q: nat, m: Message<V>, b: seq<Node<V>>)
    requires |a| == |b| && p < |a| && q < |a| && p != q
    requires IntentOf(job, Chiplet(p, 0), a[p].cpu) == Send(Chiplet(q, 0), m)
    requires IntentOf(job, Chiplet(q, 0), a[q].cpu) == Receive(Chiplet(p, 0), Bytes(m))
    requires b[p] == a[p].(cpu := AfterOf(job, Chiplet(p, 0), a[p].cpu))
    requires b[q] == a[q].(cpu := AcceptOf(job, Chiplet(q, 0), a[q].cpu, m))
    requires forall r | 0 <= r < |a| && r != p && r != q :: b[r] == a[r]
    ensures Runs(job, a, b)
  {
    var sent := a[p := b[p]];
    WorldPut(a, p, 0, b[p].cpu);
    WorldPut(a, q, 0, a[q].cpu);
    WorldPut(sent, q, 0, b[q].cpu);
    assert sent[q := b[q]] == b;
    Exchange(Mlp(job), World(a), Chiplet(p, 0), Chiplet(q, 0), m);
  }

  lemma ComputeStep<V>(job: Job<V>, a: seq<Node<V>>, r: nat, b: seq<Node<V>>)
    requires |a| == |b| && r < |a| && IntentOf(job, Chiplet(r, 0), a[r].cpu).Internal?
    requires b[r] == a[r].(cpu := AfterOf(job, Chiplet(r, 0), a[r].cpu))
    requires forall q | 0 <= q < |a| && q != r :: b[q] == a[q]
    ensures Runs(job, a, b)
  {
    ComputeAt(job, a, r);
    assert a[r := b[r]] == b;
  }

  /** A phase that treats the ranks in groups of `width`, after its first `g` groups. */
  function Front<V>(before: seq<Node<V>>, after: seq<Node<V>>, width: nat, g: nat): seq<Node<V>>
    requires |before| == |after|
  {
    seq(|before|, r requires 0 <= r < |before| => if r < g * width then after[r] else before[r])
  }

  /** The processes after each group of such a phase. */
  ghost function Fronts<V>(before: seq<Node<V>>, after: seq<Node<V>>, width: nat): (a: nat -> map<Chiplet, Local<V>>)
    requires |before| == |after|
    ensures forall g: nat :: a(g) == World(Front(before, after, width, g))
  {
    (g: nat) => World(Front(before, after, width, g))
  }

  lemma Sweep<V>(job: Job<V>, before: seq<Node<V>>, after: seq<Node<V>>, width: nat, groups: nat)
    requires |before| == |after| == groups * width
    requires forall g: nat | g < groups :: Runs(job, Front(before, after, width, g), Front(before, after, width, g + 1))
    ensures Runs(job, before, after)
  {
    Repeat(Mlp(job), Fronts(before, after, width), groups);
    FrontEnds(before, after, width, groups);
  }

  lemma FrontEnds<V>(before: seq<Node<V>>, after: seq<Node<V>>, width: nat, groups: nat)
    requires |before| == |after| == groups * width
    ensures Front(before, after, width, 0) == before && Front(before, after, width, groups) == after
  {
  }

  // ----- Start barrier

  function Start<V>(job: Job<V>, pc: Pc): Node<V> {
    Node(Cpu(pc, 0, job.training.initial, job.training.initial), AwaitHeader, AwaitHeader)
  }

  /** Rank 0 has collected the tokens of the ranks below `peer`. */
  function Collecting<V>(job: Job<V>, peer: nat): (s: seq<Node<V>>)
    ensures |s| == job.ranks
    ensures forall r | 0 <= r < job.ranks ::
      s[r] == Start(job, if r == 0 then StartCollect(peer) else if r < peer then StartAwait else StartAnnounce)
  {
    seq(job.ranks, r => Start(job, if r == 0 then StartCollect(peer) else if r < peer then StartAwait else StartAnnounce))
  }

  /** Rank 0 has released the ranks below `peer`. */
  function Releasing<V>(job: Job<V>, peer: nat): (s: seq<Node<V>>)
    ensures |s| == job.ranks
    ensures forall r | 0 <= r < job.ranks ::
      s[r] == Start(job, if r == 0 then StartRelease(peer) else if r < peer then LoopHead else StartAwait)
  {
    seq(job.ranks, r => Start(job, if r == 0 then StartRelease(peer) else if r < peer then LoopHead else StartAwait))
  }

  lemma {:induction false} CollectTokens<V>(job: Job<V>, peer: nat)
    requires 1 <= peer <= job.ranks
    ensures Runs(job, Collecting(job, 1), Collecting(job, peer))
    decreases peer
  {
    if peer == 1 {
      Stay(Mlp(job), World(Collecting(job, 1)));
    } else {
      CollectTokens(job, peer - 1);
      CollectToken(job, peer);
      RunsThen(job, Collecting(job, 1), Collecting(job, peer - 1), Collecting(job, peer));
    }
  }

  lemma CollectToken<V>(job: Job<V>, peer: nat)
    requires 1 < peer <= job.ranks
    ensures Runs(job, Collecting(job, peer - 1), Collecting(job, peer))
  {
    PeerStep(job, Collecting(job, peer - 1), peer - 1, 0, Token, Collecting(job, peer));
  }

  lemma {:induction false} ReleaseRanks<V>(job: Job<V>, peer: nat)
    requires 1 <= peer <= job.ranks
    ensures Runs(job, Releasing(job, 1), Releasing(job, peer))
    decreases peer
  {
    if peer == 1 {
      Stay(Mlp(job), World(Releasing(job, 1)));
    } else {
      ReleaseRanks(job, peer - 1);
      ReleaseRank(job, peer);
      RunsThen(job, Releasing(job, 1), Releasing(job, peer - 1), Releasing(job, peer));
    }
  }

  lemma ReleaseRank<V>(job: Job<V>, peer: nat)
    requires 1 < peer <= job.ranks
    ensures Runs(job, Releasing(job, peer - 1), Releasing(job, peer))
  {
    PeerStep(job, Releasing(job, peer - 1), 0, peer - 1, Token, Releasing(job, peer));
  }

  /** Every rank at the head of iteration `i`, with the model of the sequential loop. */
  function AtLoopHead<V>(job: Job<V>, i: nat, gradient: seq<V>): seq<Node<V>>
    requires job.ranks > 0 && |gradient| == job.ranks
  {
    var model := ReferenceModel(job.training, job.ranks, job.samples, i);
    seq(job.ranks, r requires 0 <= r < job.ranks =>
      Node(Cpu(LoopHead, i, model, gradient[r]), AwaitHeader, AwaitHeader))
  }

  lemma StartBarrier<V>(job: Job<V>)
    requires job.ranks > 0
    ensures Runs(job, Collecting(job, 1), AtLoopHead(job, 0, seq(job.ranks, _ => job.training.initial)))
  {
    var n := job.ranks;
    var end := AtLoopHead(job, 0, seq(job.ranks, _ => job.training.initial));
    CollectTokens(job, n);
    ComputeStep(job, Collecting(job, n), 0, Releasing(job, 1));
    RunsThen(job, Collecting(job, 1), Collecting(job, n), Releasing(job, 1));
    ReleaseRanks(job, n);
    RunsThen(job, Collecting(job, 1), Releasing(job, 1), Releasing(job, n));
    ComputeStep(job, Releasing(job, n), 0, end);
    RunsThen(job, Collecting(job, 1), Releasing(job, n), end);
  }

  // ----- One iteration: the GPUs of every rank

  function Busy<V>(pc: Pc, i: nat, model: V, gradient: V, gpu1: Local<V>, gpu2: Local<V>): Node<V> {
    Node(Cpu(pc, i, model, gradient), gpu1, gpu2)
  }

  /** Rank `r` sends the work to its two GPUs and adds the gradients they return. */
  lemma GpuRound<V>(job: Job<V>, a: seq<Node<V>>, r: nat, i: nat, model: V, g0: V)
    requires job.Accepted() && |a| == job.ranks && r < job.ranks && i < job.iterations
    requires a[r] == Busy(LoopHead, i, model, g0, AwaitHeader, AwaitHeader)
    ensures var gradient := RankGradient(job.training, model, r, job.ranks, job.SamplesPerGpu());
            Runs(job, a, a[r := Busy(Reduce(1), i, model, gradient, AwaitHeader, AwaitHeader)])
  {
    var s := job.SamplesPerGpu();
    SamplesInRange(job);
    var left := job.training.gradient(model, r, 0, job.ranks, s);
    var right := job.training.gradient(model, r, 1, job.ranks, s);
    var n1 := Busy(SendHeader(1), i, model, g0, AwaitHeader, AwaitHeader);
    var n2 := Busy(SendModel(1), i, model, g0, AwaitModel(s), AwaitHeader);
    var n3 := Busy(SendHeader(2), i, model, g0, Reply(left), AwaitHeader);
    var n4 := Busy(SendModel(2), i, model, g0, Reply(left), AwaitModel(s));
    var n5 := Busy(AwaitGradient(1), i, model, g0, Reply(left), Reply(right));
    ComputeAt(job, a, r);
    RankStep(job, a, r, n1, 0, 1, Header(i, s), n2);
    RankStep(job, a, r, n2, 0, 1, Model(model), n3);
    RankStep(job, a, r, n3, 0, 2, Header(i, s), n4);
    RankStep(job, a, r, n4, 0, 2, Model(model), n5);
    GpuReplies(job, a, r, i, model, g0, left, right);
  }

  /** The gradients of both GPUs come back and are added. */
  lemma GpuReplies<V>(job: Job<V>, a: seq<Node<V>>, r: nat, i: nat, model: V, g0: V, left: V, right: V)
    requires job.ranks > 0 && r < |a|
    requires Runs(job, a, a[r := Busy(AwaitGradient(1), i, model, g0, Reply(left), Reply(right))])
    ensures Runs(job, a, a[r := Busy(Reduce(1), i, model, job.training.add(left, right), AwaitHeader, AwaitHeader)])
  {
    var n5 := Busy(AwaitGradient(1), i, model, g0, Reply(left), Reply(right));
    var n6 := Busy(AwaitGradient(2), i, model, left, AwaitHeader, Reply(right));
    var n7 := Busy(Reduce(1), i, model, job.training.add(left, right), AwaitHeader, AwaitHeader);
    RankStep(job, a, r, n5, 1, 0, Gradient(left), n6);
    RankStep(job, a, r, n6, 2, 0, Gradient(right), n7);
  }

  /** The checks on the sample count leave every GPU a valid share. */
  lemma SamplesInRange<V>(job: Job<V>)
    requires job.Accepted()
    ensures 0 < job.SamplesPerGpu() <= MAXIMUM_SAMPLES
  {
    var d := job.ranks * 2;
    var q := job.samples / d;
    assert job.samples == q * d;
    assert q <= 0 ==> q * d <= 0;
    assert q >= 1 ==> q * d >= q;
  }

  // ----- One iteration: the reduction tree

  /** Every level below `stride` is done: the ranks that are not multiples of it have left. */
  function Reducing<V>(job: Job<V>, i: nat, model: V, partial: seq<V>, stride: nat): (s: seq<Node<V>>)
    requires |partial| == job.ranks && stride > 0
    ensures |s| == job.ranks
    ensures forall r | 0 <= r < job.ranks ::
      s[r] == Busy(if r % stride == 0 then Reduce(stride) else Broadcast(job.ranks / 2), i, model, partial[r], AwaitHeader, AwaitHeader)
  {
    seq(job.ranks, r requires 0 <= r < job.ranks =>
      Busy(if r % stride == 0 then Reduce(stride) else Broadcast(job.ranks / 2), i, model, partial[r], AwaitHeader, AwaitHeader))
  }

  /** Positions inside group `g` of width `2 * stride`. */
  lemma GroupPosition(g: nat, stride: nat, r: nat)
    requires stride > 0 && g * (2 * stride) <= r < (g + 1) * (2 * stride)
    ensures r % (2 * stride) == r - g * (2 * stride)
    ensures r % stride == 0 <==> r == g * (2 * stride) || r == g * (2 * stride) + stride
  {
    var k := g * (2 * stride);
    ModuloUnique(r, g, r - k, 2 * stride);
    assert k == (2 * g) * stride && k + stride == (2 * g + 1) * stride;
    if r < k + stride {
      ModuloUnique(r, 2 * g, r - k, stride);
    } else {
      ModuloUnique(r, 2 * g + 1, r - k - stride, stride);
    }
  }

  /** There are whole groups only. */
  lemma WholeGroups(ranks: nat, stride: nat) returns (groups: nat)
    requires IsPowerOfTwo(ranks) && IsPowerOfTwo(stride) && stride < ranks
    ensures ranks == groups * (2 * stride) && 2 * stride <= ranks
  {
    PowersAreFar(stride, ranks);
    groups := ranks / (2 * stride);
  }

  lemma GroupEnds(g: nat, groups: nat, width: nat)
    requires g < groups
    ensures g * width + width == (g + 1) * width <= groups * width
  {
    assert (groups - g - 1) * width >= 0;
    assert groups * width == (g + 1) * width + (groups - g - 1) * width;
  }

  lemma ReduceLevel<V>(job: Job<V>, i: nat, model: V, partial: seq<V>, stride: nat)
    requires IsPowerOfTwo(job.ranks) && IsPowerOfTwo(stride) && stride < job.ranks && |partial| == job.ranks
    ensures Runs(job, Reducing(job, i, model, partial, stride),
                      Reducing(job, i, model, TreeLevel(job.training.add, partial, stride), 2 * stride))
  {
    var level := TreeLevel(job.training.add, partial, stride);
    var before, after := Reducing(job, i, model, partial, stride), Reducing(job, i, model, level, 2 * stride);
    var width := 2 * stride;
    var groups := WholeGroups(job.ranks, stride);
    forall g: nat | g < groups
      ensures Runs(job, Front(before, after, width, g), Front(before, after, width, g + 1))
    {
      ReduceGroup(job, i, model, partial, stride, g, groups);
    }
    Sweep(job, before, after, width, groups);
  }

  lemma ReduceGroup<V>(job: Job<V>, i: nat, model: V, partial: seq<V>, stride: nat, g: nat, groups: nat)
    requires stride > 0 && job.ranks == groups * (2 * stride) && g < groups && |partial| == job.ranks
    ensures var before := Reducing(job, i, model, partial, stride);
            var after := Reducing(job, i, model, TreeLevel(job.training.add, partial, stride), 2 * stride);
            Runs(job, Front(before, after, 2 * stride, g), Front(before, after, 2 * stride, g + 1))
  {
    var before := Reducing(job, i, model, partial, stride);
    var after := Reducing(job, i, model, TreeLevel(job.training.add, partial, stride), 2 * stride);
    var width := 2 * stride;
    var k := g * width;
    PairOfGroup(job, i, model, partial, stride, g, groups);
    OthersWait(job, i, model, partial, stride, g, groups);
    PeerStep(job, Front(before, after, width, g), k + stride, k, Gradient(partial[k + stride]), Front(before, after, width, g + 1));
  }

  /** The two ranks of group `g` that take part in a level: the second one sends its sum to the first. */
  lemma PairOfGroup<V>(job: Job<V>, i: nat, model: V, partial: seq<V>, stride: nat, g: nat, groups: nat)
    requires stride > 0 && job.ranks == groups * (2 * stride) && g < groups && |partial| == job.ranks
    ensures var before := Reducing(job, i, model, partial, stride);
            var after := Reducing(job, i, model, TreeLevel(job.training.add, partial, stride), 2 * stride);
            var first, second := g * (2 * stride), g * (2 * stride) + stride;
            var a, b := Front(before, after, 2 * stride, g), Front(before, after, 2 * stride, g + 1);
      && first < second < job.ranks
      && IntentOf(job, Chiplet(second, 0), a[second].cpu) == Send(Chiplet(first, 0), Gradient(partial[second]))
      && IntentOf(job, Chiplet(first, 0), a[first].cpu) == Receive(Chiplet(second, 0), 8 * PARAMETERS)
      && b[second] == a[second].(cpu := AfterOf(job, Chiplet(second, 0), a[second].cpu))
      && b[first] == a[first].(cpu := AcceptOf(job, Chiplet(first, 0), a[first].cpu, Gradient(partial[second])))
  {
    var k := g * (2 * stride);
    GroupEnds(g, groups, 2 * stride);
    GroupPosition(g, stride, k);
    GroupPosition(g, stride, k + stride);
    var level := TreeLevel(job.training.add, partial, stride);
    var before, after := Reducing(job, i, model, partial, stride), Reducing(job, i, model, level, 2 * stride);
    assert before[k] == Summing(Reduce(stride), i, model, partial[k]);
    assert before[k + stride] == Summing(Reduce(stride), i, model, partial[k + stride]);
    assert after[k] == Summing(Reduce(2 * stride), i, model, job.training.add(partial[k], partial[k + stride]));
    assert after[k + stride] == Summing(Broadcast(job.ranks / 2), i, model, partial[k + stride]);
    PairExchanges(job, i, model, stride, k, k + stride, partial[k], partial[k + stride]);
  }

  function Summing<V>(pc: Pc, i: nat, model: V, gradient: V): Node<V> {
    Busy(pc, i, model, gradient, AwaitHeader, AwaitHeader)
  }

  lemma PairExchanges<V>(job: Job<V>, i: nat, model: V, stride: nat, first: nat, second: nat, x: V, y: V)
    requires stride > 0 && second == first + stride < job.ranks
    requires first % (2 * stride) == 0 && second % (2 * stride) == stride
    ensures var a, b := Summing(Reduce(stride), i, model, x), Summing(Reduce(stride), i, model, y);
      && IntentOf(job, Chiplet(second, 0), b.cpu) == Send(Chiplet(first, 0), Gradient(y))
      && IntentOf(job, Chiplet(first, 0), a.cpu) == Receive(Chiplet(second, 0), 8 * PARAMETERS)
      && b.(cpu := AfterOf(job, Chiplet(second, 0), b.cpu)) == Summing(Broadcast(job.ranks / 2), i, model, y)
      && a.(cpu := AcceptOf(job, Chiplet(first, 0), a.cpu, Gradient(y)))
      == Summing(Reduce(2 * stride), i, model, job.training.add(x, y))
  {
  }

  /** Only two ranks of a group take part in a level of the reduction. */
  lemma OthersWait<V>(job: Job<V>, i: nat, model: V, partial: seq<V>, stride: nat, g: nat, groups: nat)
    requires stride > 0 && job.ranks == groups * (2 * stride) && g < groups && |partial| == job.ranks
    ensures var before := Reducing(job, i, model, partial, stride);
            var after := Reducing(job, i, model, TreeLevel(job.training.add, partial, stride), 2 * stride);
            forall r | 0 <= r < job.ranks && r != g * (2 * stride) && r != g * (2 * stride) + stride ::
              Front(before, after, 2 * stride, g + 1)[r] == Front(before, after, 2 * stride, g)[r]
  {
    var before := Reducing(job, i, model, partial, stride);
    var after := Reducing(job, i, model, TreeLevel(job.training.add, partial, stride), 2 * stride);
    GroupEnds(g, groups, 2 * stride);
    forall r | 0 <= r < job.ranks && r != g * (2 * stride) && r != g * (2 * stride) + stride
      ensures Front(before, after, 2 * stride, g + 1)[r] == Front(before, after, 2 * stride, g)[r]
    {
      if g * (2 * stride) <= r < (g + 1) * (2 * stride) {
        GroupPosition(g, stride, r);
      }
    }
  }

  lemma {:induction false} ReduceTree<V>(job: Job<V>, i: nat, model: V, partial: seq<V>, stride: nat)
    requires IsPowerOfTwo(job.ranks) && IsPowerOfTwo(stride) && stride <= job.ranks && |partial| == job.ranks
    ensures Runs(job, Reducing(job, i, model, partial, stride),
                      Reducing(job, i, model, TreeReduce(job.training.add, partial, stride), job.ranks))
    decreases job.ranks - stride
  {
    var start := Reducing(job, i, model, partial, stride);
    if stride == job.ranks {
      Stay(Mlp(job), World(start));
    } else {
      var level := TreeLevel(job.training.add, partial, stride);
      PowersAreFar(stride, job.ranks);
      ReduceLevel(job, i, model, partial, stride);
      ReduceTree(job, i, model, level, 2 * stride);
      RunsThen(job, start, Reducing(job, i, model, level, 2 * stride),
               Reducing(job, i, model, TreeReduce(job.training.add, partial, stride), job.ranks));
    }
  }

  // ----- One iteration: the broadcast tree

  /** The new model has reached the ranks that are multiples of `reach`. */
  function Broadcasting<V>(job: Job<V>, i: nat, stale: V, updated: V, g: seq<V>, reach: nat): (s: seq<Node<V>>)
    requires |g| == job.ranks && reach > 0
    ensures |s| == job.ranks
    ensures forall r | 0 <= r < job.ranks ::
      s[r] == Busy(Broadcast(reach / 2), i, if r % reach == 0 then updated else stale, g[r], AwaitHeader, AwaitHeader)
  {
    seq(job.ranks, r requires 0 <= r < job.ranks =>
      Busy(Broadcast(reach / 2), i, if r % reach == 0 then updated else stale, g[r], AwaitHeader, AwaitHeader))
  }

  /** The level of `stride` is done by the ranks that send or receive in it, and ahead of the others. */
  function Delivered<V>(job: Job<V>, i: nat, stale: V, updated: V, g: seq<V>, stride: nat): (s: seq<Node<V>>)
    requires |g| == job.ranks && stride > 0
    ensures |s| == job.ranks
    ensures forall r | 0 <= r < job.ranks ::
      s[r] == if r % stride == 0 then Busy(Broadcast(stride / 2), i, updated, g[r], AwaitHeader, AwaitHeader)
              else Busy(Broadcast(stride), i, stale, g[r], AwaitHeader, AwaitHeader)
  {
    seq(job.ranks, r requires 0 <= r < job.ranks =>
      if r % stride == 0 then Busy(Broadcast(stride / 2), i, updated, g[r], AwaitHeader, AwaitHeader)
      else Busy(Broadcast(stride), i, stale, g[r], AwaitHeader, AwaitHeader))
  }

  lemma BroadcastGroup<V>(job: Job<V>, i: nat, stale: V, updated: V, gr: seq<V>, stride: nat, g: nat, groups: nat)
    requires stride > 0 && job.ranks == groups * (2 * stride) && g < groups && |gr| == job.ranks
    ensures var before := Broadcasting(job, i, stale, updated, gr, 2 * stride);
            var after := Delivered(job, i, stale, updated, gr, stride);
            Runs(job, Front(before, after, 2 * stride, g), Front(before, after, 2 * stride, g + 1))
  {
    var before := Broadcasting(job, i, stale, updated, gr, 2 * stride);
    var after := Delivered(job, i, stale, updated, gr, stride);
    var width := 2 * stride;
    var k := g * width;
    GroupEnds(g, groups, width);
    var a, b := Front(before, after, width, g), Front(before, after, width, g + 1);
    GroupPosition(g, stride, k);
    GroupPosition(g, stride, k + stride);
    forall r | 0 <= r < job.ranks && r != k && r != k + stride
      ensures b[r] == a[r]
    {
      if k <= r < k + width {
        GroupPosition(g, stride, r);
      }
    }
    PeerStep(job, a, k, k + stride, Model(updated), b);
  }

  lemma SkipLevel<V>(job: Job<V>, i: nat, stale: V, updated: V, gr: seq<V>, stride: nat, r: nat)
    requires stride > 0 && r < job.ranks && |gr| == job.ranks
    ensures var before := Delivered(job, i, stale, updated, gr, stride);
            var after := Broadcasting(job, i, stale, updated, gr, stride);
            Runs(job, Front(before, after, 1, r), Front(before, after, 1, r + 1))
  {
    var before := Delivered(job, i, stale, updated, gr, stride);
    var after := Broadcasting(job, i, stale, updated, gr, stride);
    var a, b := Front(before, after, 1, r), Front(before, after, 1, r + 1);
    if r % stride == 0 {
      assert a == b;
      Stay(Mlp(job), World(a));
    } else {
      MultipleIsMultiple(r, stride);
      ComputeStep(job, a, r, b);
    }
  }

  lemma MultipleIsMultiple(r: nat, stride: nat)
    requires stride > 0 && r % stride != 0
    ensures r % (2 * stride) != 0 && r % (2 * stride) != stride
  {
    var q, p := r / (2 * stride), r % (2 * stride);
    assert r == q * (2 * stride) + p == (2 * q) * stride + p;
    if p == 0 {
      ModuloUnique(r, 2 * q, 0, stride);
    } else if p == stride {
      ModuloUnique(r, 2 * q + 1, 0, stride);
    }
  }

  lemma BroadcastLevel<V>(job: Job<V>, i: nat, stale: V, updated: V, gr: seq<V>, stride: nat)
    requires IsPowerOfTwo(job.ranks) && IsPowerOfTwo(stride) && stride < job.ranks && |gr| == job.ranks
    ensures Runs(job, Broadcasting(job, i, stale, updated, gr, 2 * stride), Broadcasting(job, i, stale, updated, gr, stride))
  {
    var before, mid := Broadcasting(job, i, stale, updated, gr, 2 * stride), Delivered(job, i, stale, updated, gr, stride);
    var after := Broadcasting(job, i, stale, updated, gr, stride);
    var groups := WholeGroups(job.ranks, stride);
    forall g: nat | g < groups
      ensures Runs(job, Front(before, mid, 2 * stride, g), Front(before, mid, 2 * stride, g + 1))
    {
      BroadcastGroup(job, i, stale, updated, gr, stride, g, groups);
    }
    Sweep(job, before, mid, 2 * stride, groups);
    forall r: nat | r < job.ranks
      ensures Runs(job, Front(mid, after, 1, r), Front(mid, after, 1, r + 1))
    {
      SkipLevel(job, i, stale, updated, gr, stride, r);
    }
    Sweep(job, mid, after, 1, job.ranks);
    RunsThen(job, before, mid, after);
  }

  lemma {:induction false} BroadcastTree<V>(job: Job<V>, i: nat, stale: V, updated: V, gr: seq<V>, reach: nat)
    requires IsPowerOfTwo(job.ranks) && IsPowerOfTwo(reach) && reach <= job.ranks && |gr| == job.ranks
    ensures Runs(job, Broadcasting(job, i, stale, updated, gr, reach), Broadcasting(job, i, stale, updated, gr, 1))
    decreases reach
  {
    if reach == 1 {
      Stay(Mlp(job), World(Broadcasting(job, i, stale, updated, gr, 1)));
    } else {
      var stride := reach / 2;
      var a, b, c := Broadcasting(job, i, stale, updated, gr, reach), Broadcasting(job, i, stale, updated, gr, stride),
                     Broadcasting(job, i, stale, updated, gr, 1);
      assert Runs(job, a, b) by {
        assert reach == 2 * stride;
        BroadcastLevel(job, i, stale, updated, gr, stride);
      }
      assert Runs(job, b, c) by {
        BroadcastTree(job, i, stale, updated, gr, stride);
      }
      RunsThen(job, a, b, c);
    }
  }

  // ----- One iteration as a whole

  lemma DispatchAll<V>(job: Job<V>, i: nat, g: seq<V>)
    requires job.Accepted() && i < job.iterations && |g| == job.ranks
    ensures var model := ReferenceModel(job.training, job.ranks, job.samples, i);
            Runs(job, AtLoopHead(job, i, g),
                 Reducing(job, i, model, RankGradients(job.training, model, job.ranks, job.SamplesPerGpu()), 1))
  {
    var model := ReferenceModel(job.training, job.ranks, job.samples, i);
    var gradients := RankGradients(job.training, model, job.ranks, job.SamplesPerGpu());
    var before, after := AtLoopHead(job, i, g), Reducing(job, i, model, gradients, 1);
    forall r: nat | r < job.ranks
      ensures Runs(job, Front(before, after, 1, r), Front(before, after, 1, r + 1))
    {
      GpuRound(job, Front(before, after, 1, r), r, i, model, g[r]);
      assert Front(before, after, 1, r)[r := after[r]] == Front(before, after, 1, r + 1);
    }
    Sweep(job, before, after, 1, job.ranks);
  }

  lemma UpdateRoot<V>(job: Job<V>, i: nat, stale: V, g: seq<V>)
    requires IsPowerOfTwo(job.ranks) && |g| == job.ranks
    ensures Runs(job, Reducing(job, i, stale, g, job.ranks),
                 Broadcasting(job, i, stale, job.training.update(stale, g[0], job.samples), g, job.ranks))
  {
    var a := Reducing(job, i, stale, g, job.ranks);
    var b := a[0 := Busy(Update, i, stale, g[0], AwaitHeader, AwaitHeader)];
    var c := Broadcasting(job, i, stale, job.training.update(stale, g[0], job.samples), g, job.ranks);
    forall r | 0 <= r < job.ranks ensures r % job.ranks == 0 <==> r == 0 {
      ModuloUnique(r, 0, r, job.ranks);
    }
    assert Runs(job, a, b) by {
      ComputeStep(job, a, 0, b);
    }
    assert Runs(job, b, c) by {
      ComputeStep(job, b, 0, c);
    }
    RunsThen(job, a, b, c);
  }

  lemma NextIteration<V>(job: Job<V>, i: nat, stale: V, g: seq<V>)
    requires job.ranks > 0 && |g| == job.ranks
    ensures Runs(job, Broadcasting(job, i, stale, ReferenceModel(job.training, job.ranks, job.samples, i + 1), g, 1),
                 AtLoopHead(job, i + 1, g))
  {
    var updated := ReferenceModel(job.training, job.ranks, job.samples, i + 1);
    var before, after := Broadcasting(job, i, stale, updated, g, 1), AtLoopHead(job, i + 1, g);
    forall r: nat | r < job.ranks
      ensures Runs(job, Front(before, after, 1, r), Front(before, after, 1, r + 1))
    {
      ComputeStep(job, Front(before, after, 1, r), r, Front(before, after, 1, r + 1));
    }
    Sweep(job, before, after, 1, job.ranks);
  }

  /** A round of the processes is a round of the sequential loop. */
  lemma Iterate<V>(job: Job<V>, i: nat, g: seq<V>)
    requires job.Accepted() && i < job.iterations && |g| == job.ranks
    ensures Runs(job, AtLoopHead(job, i, g), AtLoopHead(job, i + 1, ReducedGradients(job, i)))
  {
    var model := ReferenceModel(job.training, job.ranks, job.samples, i);
    var updated := ReferenceModel(job.training, job.ranks, job.samples, i + 1);
    var start, end := AtLoopHead(job, i, g), AtLoopHead(job, i + 1, ReducedGradients(job, i));
    var gradients := RankGradients(job.training, model, job.ranks, job.SamplesPerGpu());
    var reduced := TreeReduce(job.training.add, gradients, 1);
    assert updated == job.training.update(model, reduced[0], job.samples);
    DispatchAll(job, i, g);
    ReduceTree(job, i, model, gradients, 1);
    RunsThen(job, start, Reducing(job, i, model, gradients, 1), Reducing(job, i, model, reduced, job.ranks));
    UpdateRoot(job, i, model, reduced);
    RunsThen(job, start, Reducing(job, i, model, reduced, job.ranks), Broadcasting(job, i, model, updated, reduced, job.ranks));
    BroadcastTree(job, i, model, updated, reduced, job.ranks);
    RunsThen(job, start, Broadcasting(job, i, model, updated, reduced, job.ranks), Broadcasting(job, i, model, updated, reduced, 1));
    NextIteration(job, i, model, reduced);
    RunsThen(job, start, Broadcasting(job, i, model, updated, reduced, 1), end);
  }

  /** What the ranks hold in their gradients before round `i`. */
  function GradientsBefore<V>(job: Job<V>, begin: seq<V>, i: nat): (g: seq<V>)
    requires job.ranks > 0 && |begin| == job.ranks
    ensures |g| == job.ranks
  {
    if i == 0 then begin else ReducedGradients(job, i - 1)
  }

  /** The processes before each round. */
  ghost function Rounds<V>(job: Job<V>, begin: seq<V>): (a: nat -> map<Chiplet, Local<V>>)
    requires job.ranks > 0 && |begin| == job.ranks
    ensures forall i: nat :: a(i) == World(AtLoopHead(job, i, GradientsBefore(job, begin, i)))
  {
    (i: nat) => World(AtLoopHead(job, i, GradientsBefore(job, begin, i)))
  }

  lemma IterateAll<V>(job: Job<V>, begin: seq<V>)
    requires job.Accepted() && |begin| == job.ranks
    ensures Runs(job, AtLoopHead(job, 0, begin), AtLoopHead(job, job.iterations, ReducedGradients(job, job.iterations - 1)))
  {
    forall i: nat | i < job.iterations ensures Leads(Mlp(job), Rounds(job, begin)(i), Rounds(job, begin)(i + 1)) {
      Iterate(job, i, GradientsBefore(job, begin, i));
    }
    Repeat(Mlp(job), Rounds(job, begin), job.iterations);
  }

  // ----- Finish barrier and shutdown

  function Trained<V>(job: Job<V>, pc: Pc, gradient: V, gpu: Local<V>): Node<V>
    requires job.ranks > 0
  {
    Busy(pc, job.iterations, ReferenceModel(job.training, job.ranks, job.samples, job.iterations), gradient, gpu, gpu)
  }

  function Finishing<V>(job: Job<V>, g: seq<V>, peer: nat): (s: seq<Node<V>>)
    requires job.ranks > 0 && |g| == job.ranks
    ensures |s| == job.ranks
    ensures forall r | 0 <= r < job.ranks ::
      s[r] == Trained(job, if r == 0 then FinishCollect(peer) else if r < peer then Stop(1) else FinishAnnounce, g[r], AwaitHeader)
  {
    seq(job.ranks, r requires 0 <= r < job.ranks =>
      Trained(job, if r == 0 then FinishCollect(peer) else if r < peer then Stop(1) else FinishAnnounce, g[r], AwaitHeader))
  }

  function AllAt<V>(job: Job<V>, g: seq<V>, pc: Pc, gpu: Local<V>): (s: seq<Node<V>>)
    requires job.ranks > 0 && |g| == job.ranks
    ensures |s| == job.ranks
    ensures forall r | 0 <= r < job.ranks :: s[r] == Trained(job, pc, g[r], gpu)
  {
    seq(job.ranks, r requires 0 <= r < job.ranks => Trained(job, pc, g[r], gpu))
  }

  lemma LeaveLoop<V>(job: Job<V>, g: seq<V>)
    requires job.Accepted() && |g| == job.ranks
    ensures Runs(job, AtLoopHead(job, job.iterations, g), Finishing(job, g, 1))
  {
    var before, after := AtLoopHead(job, job.iterations, g), Finishing(job, g, 1);
    forall r: nat | r < job.ranks
      ensures Runs(job, Front(before, after, 1, r), Front(before, after, 1, r + 1))
    {
      ComputeStep(job, Front(before, after, 1, r), r, Front(before, after, 1, r + 1));
    }
    Sweep(job, before, after, 1, job.ranks);
  }

  lemma {:induction false} FinishBarrier<V>(job: Job<V>, g: seq<V>, peer: nat)
    requires job.Accepted() && |g| == job.ranks && 1 <= peer <= job.ranks
    ensures Runs(job, Finishing(job, g, 1), Finishing(job, g, peer))
    decreases peer
  {
    if peer == 1 {
      Stay(Mlp(job), World(Finishing(job, g, 1)));
    } else {
      FinishBarrier(job, g, peer - 1);
      PeerStep(job, Finishing(job, g, peer - 1), peer - 1, 0, Token, Finishing(job, g, peer));
      RunsThen(job, Finishing(job, g, 1), Finishing(job, g, peer - 1), Finishing(job, g, peer));
    }
  }

  lemma StopRank<V>(job: Job<V>, a: seq<Node<V>>, r: nat, g: V)
    requires job.ranks > 0 && r < |a| && a[r] == Trained(job, Stop(1), g, AwaitHeader)
    ensures Runs(job, a, a[r := Trained(job, Exited, g, GpuExited)])
  {
    var n1 := Trained(job, Stop(2), g, AwaitHeader).(gpu1 := GpuExited);
    assert a[r := a[r]] == a;
    Stay(Mlp(job), World(a));
    RankStep(job, a, r, a[r], 0, 1, Header(-1, 0), n1);
    RankStep(job, a, r, n1, 0, 2, Header(-1, 0), Trained(job, Exited, g, GpuExited));
  }

  lemma Shutdown<V>(job: Job<V>, g: seq<V>)
    requires job.Accepted() && |g| == job.ranks
    ensures Runs(job, AtLoopHead(job, job.iterations, g), AllAt(job, g, Exited, GpuExited))
  {
    var start := AtLoopHead(job, job.iterations, g);
    var collected := Finishing(job, g, job.ranks);
    var before, after := AllAt(job, g, Stop(1), AwaitHeader), AllAt(job, g, Exited, GpuExited);
    LeaveLoop(job, g);
    FinishBarrier(job, g, job.ranks);
    RunsThen(job, start, Finishing(job, g, 1), collected);
    ComputeStep(job, collected, 0, before);
    RunsThen(job, start, collected, before);
    forall r: nat | r < job.ranks
      ensures Runs(job, Front(before, after, 1, r), Front(before, after, 1, r + 1))
    {
      StopRank(job, Front(before, after, 1, r), r, g[r]);
      assert Front(before, after, 1, r)[r := after[r]] == Front(before, after, 1, r + 1);
    }
    Sweep(job, before, after, 1, job.ranks);
    RunsThen(job, start, before, after);
  }

  // ----- The main results

  /** There is a complete run. */
  lemma CompleteRun<V>(job: Job<V>) returns (length: nat)
    requires job.Accepted()
    ensures Reaches(Mlp(job), Launched(job), length, Finished(job)) && Terminal(Mlp(job), Finished(job))
  {
    var begin := seq(job.ranks, _ => job.training.initial);
    var gradients := ReducedGradients(job, job.iterations - 1);
    var entry, head := Collecting(job, 1), AtLoopHead(job, 0, begin);
    var last, end := AtLoopHead(job, job.iterations, gradients), AllAt(job, gradients, Exited, GpuExited);
    StartBarrier(job);
    IterateAll(job, begin);
    RunsThen(job, entry, head, last);
    Shutdown(job, gradients);
    RunsThen(job, entry, last, end);
    LaunchedWorld(job);
    FinishedWorld(job);
    length := LeadsReaches(Mlp(job), World(entry), World(end));
    FinishedIsTerminal(job);
  }

  lemma LaunchedWorld<V>(job: Job<V>)
    ensures Launched(job) == Quiet(World(Collecting(job, 1)))
  {
    assert World(Collecting(job, 1)) == map c | c in Chiplets(job.ranks) :: Entry(job, c);
  }

  lemma FinishedWorld<V>(job: Job<V>)
    requires job.Accepted()
    ensures Finished(job) == Quiet(World(AllAt(job, ReducedGradients(job, job.iterations - 1), Exited, GpuExited)))
  {
    assert World(AllAt(job, ReducedGradients(job, job.iterations - 1), Exited, GpuExited)) == Finished(job).locals;
  }

  lemma FinishedIsTerminal<V>(job: Job<V>)
    requires job.Accepted()
    ensures Terminal(Mlp(job), Finished(job))
  {
  }

  /** Safety and termination, for every interleaving: wherever a run has got to, it is a fixed number of
      steps away from the one state in which every rank holds the model of the sequential reference,
      every process has exited and every channel is empty.  So no run gets stuck or runs on, and
      a run that cannot move has trained the reference model. */
  lemma EveryRunTrainsTheReference<V>(job: Job<V>) returns (length: nat)
    requires job.Accepted()
    ensures forall m: nat, s | Reaches(Mlp(job), Launched(job), m, s) ::
      && m <= length
      && Reaches(Mlp(job), s, length - m, Finished(job))
      && (Terminal(Mlp(job), s) <==> s == Finished(job))
  {
    length := CompleteRun(job);
    forall m: nat, s | Reaches(Mlp(job), Launched(job), m, s)
      ensures m <= length && Reaches(Mlp(job), s, length - m, Finished(job))
      ensures Terminal(Mlp(job), s) <==> s == Finished(job)
    {
      EveryRunEndsAlike(Mlp(job), Launched(job), length, Finished(job), m, s);
    }
  }

  /** No process ever ends in an error: no GPU worker rejects a header, and no message is taken for one
      of another kind. */
  lemma NoProcessFails<V>(job: Job<V>, m: nat, s: State<Local<V>, Message<V>>, p: Chiplet, error: Local<V>)
    requires job.Accepted() && Reaches(Mlp(job), Launched(job), m, s) && (error == GpuFailed || error == Mangled)
    ensures p in s.locals ==> s.locals[p] != error
  {
    var length := CompleteRun(job);
    NoHaltOnTheWay(Mlp(job), Launched(job), length, Finished(job), m, s, p, error);
  }

  lemma NoMisfits<V>(job: Job<V>, m: nat, s: State<Local<V>, Message<V>>, p: Chiplet)
    requires job.Accepted() && Reaches(Mlp(job), Launched(job), m, s)
    ensures !Misfit(Mlp(job), s, p)
  {
    var length := CompleteRun(job);
    NoMisfitOnTheWay(Mlp(job), Launched(job), length, Finished(job), m, s, p);
  }

  /** Although barriers and collective share untagged channels, on which models and gradients even have
      the same length: whenever there is a message on the channel that a process waits on, its head has
      the kind and the length that the process asks for. */
  lemma EveryReceiveFits<V>(job: Job<V>, m: nat, s: State<Local<V>, Message<V>>, p: Chiplet, from: Chiplet, bytes: nat)
    requires job.Accepted() && Reaches(Mlp(job), Launched(job), m, s)
    requires p in s.locals && IntentOf(job, p, s.locals[p]) == Receive(from, bytes) && Queue(s.channels, from, p) != []
    ensures Bytes(Queue(s.channels, from, p)[0]) == bytes
    ensures Wants(s.locals[p], Queue(s.channels, from, p)[0])
  {
    NoMisfits(job, m, s, p);
    StepReaches(Mlp(job), Launched(job), m, s, p);
    NoProcessFails(job, m + 1, Step(Mlp(job), s, p), p, Mangled);
  }
}
