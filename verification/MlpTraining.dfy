/** The sequential training loop as it runs, and what the distributed run, the two reductions and
    plain full-batch descent have to do with each other. */
module MlpTraining {
  import opened Network
  import opened MlpReference
  import opened MlpProtocol
  import opened MlpScaling
  import opened MlpSchedule

  /** The model after `iterations` rounds of the sequential loop with the serial reduction. */
  function SerialModel<V>(t: Training<V>, ranks: nat, samples: int, iterations: nat): V
    requires ranks > 0
  {
    if iterations == 0 then t.initial
    else
      var model := SerialModel(t, ranks, samples, iterations - 1);
      t.update(model, Fold(t.add, RankGradients(t, model, ranks, samples / (ranks * 2))), samples)
  }

  /** The sequential loop.  The tree reduction takes a power of two. */
  method Train<V(!new)>(t: Training<V>, ranks: nat, samples: int, iterations: nat, tree: bool) returns (model: V)
    requires ranks > 0 && (tree ==> IsPowerOfTwo(ranks))
    ensures model == if tree then ReferenceModel(t, ranks, samples, iterations) else SerialModel(t, ranks, samples, iterations)
    ensures !tree ==> exists models :: IsSerialTraining(t, ranks, samples, models) && |models| == iterations + 1 && model == models[iterations]
  {
    model := t.initial;
    ghost var models := [model];
    for i := 0 to iterations
      invariant model == if tree then ReferenceModel(t, ranks, samples, i) else SerialModel(t, ranks, samples, i)
      invariant |models| == i + 1 && model == models[i] && (!tree ==> IsSerialTraining(t, ranks, samples, models))
    {
      var gradients := GradientsOfRanks(t, model, ranks, samples / (ranks * 2));
      var total: V;
      if tree {
        total := BinaryTreeReduce(t.add, gradients);
        RootHoldsTreeSum(t.add, gradients);
      } else {
        total := RankOrderedReduce(t.add, gradients);
      }
      model := t.update(model, total, samples);
      models := models + [model];
    }
  }

  /** The models from round to round: each is the one before, updated by a running total of the gradients
      of all ranks, each of which is the sum of its two GPUs'. */
  ghost predicate IsSerialTraining<V(!new)>(t: Training<V>, ranks: nat, samples: int, models: seq<V>)
    requires ranks > 0
  {
    && |models| > 0 && models[0] == t.initial
    && forall i | 0 < i < |models| :: IsSerialRound(t, ranks, samples, models[i - 1], models[i])
  }

  ghost predicate IsSerialRound<V(!new)>(t: Training<V>, ranks: nat, samples: int, before: V, after: V)
    requires ranks > 0
  {
    exists g, p ::
      && AddsBothGpus(t, before, ranks, samples / (ranks * 2), g)
      && IsRunningTotal(t.add, g, p) && after == t.update(before, p[|p| - 1], samples)
  }

  /** The gradient of each rank is that of its first GPU plus that of its second one. */
  ghost predicate AddsBothGpus<V>(t: Training<V>, model: V, ranks: nat, samplesPerGpu: int, g: seq<V>) {
    && |g| == ranks
    && forall r | 0 <= r < ranks ::
         g[r] == t.add(t.gradient(model, r, 0, ranks, samplesPerGpu), t.gradient(model, r, 1, ranks, samplesPerGpu))
  }

  method GradientsOfRanks<V>(t: Training<V>, model: V, ranks: nat, samplesPerGpu: int) returns (gradients: seq<V>)
    ensures gradients == RankGradients(t, model, ranks, samplesPerGpu)
    ensures AddsBothGpus(t, model, ranks, samplesPerGpu, gradients)
  {
    gradients := [];
    for rank := 0 to ranks
      invariant |gradients| == rank
      invariant forall r | 0 <= r < rank :: gradients[r] == RankGradient(t, model, r, ranks, samplesPerGpu)
    {
      var left := t.gradient(model, rank, 0, ranks, samplesPerGpu);
      var right := t.gradient(model, rank, 1, ranks, samplesPerGpu);
      gradients := gradients + [t.add(left, right)];
    }
  }

  lemma RootHoldsTreeSum<V>(add: (V, V) -> V, g: seq<V>)
    requires IsPowerOfTwo(|g|)
    ensures TreeReduce(add, g, 1)[0] == TreeSum(add, g, 0, |g|)
  {
    TreeReduceIsTreeSum(add, g, g, 1, |g|);
  }

  /** With an associative addition, and no other law, both reductions train the same model. */
  lemma {:induction false} ReductionsTrainAlike<V(!new)>(t: Training<V>, ranks: nat, samples: int, iterations: nat)
    requires Associative(t.add) && ranks > 0
    ensures ReferenceModel(t, ranks, samples, iterations) == SerialModel(t, ranks, samples, iterations)
    decreases iterations
  {
    if iterations > 0 {
      ReductionsTrainAlike(t, ranks, samples, iterations - 1);
      var model := SerialModel(t, ranks, samples, iterations - 1);
      TreeAgreesWithSerialOrder(t.add, RankGradients(t, model, ranks, samples / (ranks * 2)));
    }
  }

  /** A worker's loop over its samples. */
  method LocalGradient<V>(
      add: (V, V) -> V, zero: V, part: (V, int) -> V, model: V, rank: int, gpu: int, ranks: int, samples: nat)
    returns (gradient: V)
    ensures gradient == Sum(add, zero, LocalParts(part, model, rank, gpu, ranks), samples)
    ensures exists p :: IsAccumulation(add, zero, part, model, rank, gpu, ranks, p) && |p| == samples + 1 && gradient == p[samples]
  {
    gradient := zero;
    ghost var p := [zero];
    for local := 0 to samples
      invariant gradient == Sum(add, zero, LocalParts(part, model, rank, gpu, ranks), local)
      invariant |p| == local + 1 && gradient == p[local] && IsAccumulation(add, zero, part, model, rank, gpu, ranks, p)
    {
      var sample := rank + ranks * (gpu + 2 * local);
      assert sample == SampleOf(rank, ranks, gpu, local);
      assert LocalParts(part, model, rank, gpu, ranks)(local) == part(model, sample);
      gradient := add(gradient, part(model, sample));
      p := p + [gradient];
    }
  }

  /** The gradient after each sample: first the one of the rank's own number, or of the same place in the
      second half for the second GPU, then every one that is two rank counts further on. */
  ghost predicate IsAccumulation<V>(
      add: (V, V) -> V, zero: V, part: (V, int) -> V, model: V, rank: int, gpu: int, ranks: int, p: seq<V>)
  {
    |p| > 0 && p[0] == zero && forall k | 0 < k < |p| :: p[k] == add(p[k - 1], part(model, rank + ranks * (gpu + 2 * (k - 1))))
  }

  /** Every rank has exited with this model. */
  ghost predicate AllHold<V>(s: State<Local<V>, Message<V>>, ranks: nat, model: V) {
    forall r | 0 <= r < ranks ::
      && Chiplet(r, 0) in s.locals && s.locals[Chiplet(r, 0)].Cpu?
      && s.locals[Chiplet(r, 0)].pc == Exited && s.locals[Chiplet(r, 0)].model == model
  }

  lemma FinishedHolds<V>(job: Job<V>)
    requires job.Accepted()
    ensures AllHold(Finished(job), job.ranks, ReferenceModel(job.training, job.ranks, job.samples, job.iterations))
  {
  }

  /** Whatever the interleaving, a run that has come to rest has trained full-batch gradient descent:
      over exact arithmetic neither the number of ranks nor the order of messages shows in the model. */
  lemma DistributedTrainingIsFullBatch<V(!new)>(
      initial: V, add: (V, V) -> V, zero: V, part: (V, int) -> V, update: (V, V, int) -> V,
      job: Job<V>, m: nat, s: State<Local<V>, Message<V>>)
    requires IsExact(add, zero) && job.training == Exact(initial, add, zero, part, update) && job.Accepted()
    requires Reaches(Mlp(job), Launched(job), m, s) && Terminal(Mlp(job), s)
    ensures AllHold(s, job.ranks, FullBatchModel(job.training, zero, part, job.samples, job.iterations))
  {
    var length := EveryRunTrainsTheReference(job);
    FinishedHolds(job);
    EveryRankCountTrainsTheSameModel(initial, add, zero, part, update, job.ranks, job.samples, job.iterations);
  }

  /** With an associative addition a run at rest has the model of the serial reduction. */
  lemma DistributedTrainingIsSerial<V(!new)>(job: Job<V>, m: nat, s: State<Local<V>, Message<V>>)
    requires Associative(job.training.add) && job.Accepted()
    requires Reaches(Mlp(job), Launched(job), m, s) && Terminal(Mlp(job), s)
    ensures AllHold(s, job.ranks, SerialModel(job.training, job.ranks, job.samples, job.iterations))
  {
    var length := EveryRunTrainsTheReference(job);
    FinishedHolds(job);
    ReductionsTrainAlike(job.training, job.ranks, job.samples, job.iterations);
  }
}
