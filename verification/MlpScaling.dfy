/** Why the checks of `main` are there: the power-of-two test, what the broadcast tree reaches, how the
    samples are sharded, and that over exact arithmetic the rank count does not matter. */
module MlpScaling {
  import opened MlpReference

  // ----- The power-of-two test

  /** Bitwise conjunction of two naturals. */
  function BitAnd(a: nat, b: nat): nat {
    if a == 0 || b == 0 then 0 else 2 * BitAnd(a / 2, b / 2) + (if a % 2 == 1 && b % 2 == 1 then 1 else 0)
  }

  predicate PowerOfTwoTest(value: int) {
    value > 0 && BitAnd(value, value - 1) == 0
  }

  lemma {:induction false} BitAndSelf(a: nat)
    ensures BitAnd(a, a) == a
  {
    if a > 0 {
      BitAndSelf(a / 2);
    }
  }

  lemma {:induction false} TestIsExact(value: int)
    ensures PowerOfTwoTest(value) <==> IsPowerOfTwo(value)
    decreases value
  {
    if value > 1 {
      var half := value / 2;
      if value % 2 == 0 {
        assert (value - 1) / 2 == half - 1 && (value - 1) % 2 == 1;
        TestIsExact(half);
      } else {
        assert (value - 1) / 2 == half && (value - 1) % 2 == 0;
        BitAndSelf(half);
      }
    }
  }

  // ----- What the broadcast tree reaches

  /** One level of the broadcast; `holds[r]` says whether rank `r` has the root's model. */
  function Level(holds: seq<bool>, stride: nat): (after: seq<bool>)
    requires stride > 0
    ensures |after| == |holds|
  {
    seq(|holds|, r requires 0 <= r < |holds| =>
      if r % (2 * stride) == stride && r >= stride then holds[r - stride] else holds[r])
  }

  function Broadcasted(holds: seq<bool>, stride: nat): (after: seq<bool>)
    ensures |after| == |holds|
    decreases stride
  {
    if stride < 1 then holds else Broadcasted(Level(holds, stride), stride / 2)
  }

  /** Only the ranks that are multiples of `reach` have it. */
  function Multiples(ranks: nat, reach: nat): seq<bool>
    requires reach > 0
  {
    seq(ranks, r => r % reach == 0)
  }

  function RootOnly(ranks: nat): seq<bool> {
    seq(ranks, r => r == 0)
  }

  /** The check is exactly what the broadcast needs: the tree brings the root's model to every rank if
      and only if the number of ranks is a power of two. */
  lemma BroadcastReachesEveryRank(ranks: nat)
    requires ranks > 0
    ensures (forall r | 0 <= r < ranks :: Broadcasted(RootOnly(ranks), ranks / 2)[r]) <==> IsPowerOfTwo(ranks)
  {
    if IsPowerOfTwo(ranks) {
      HoldersAreMultiples(ranks, ranks);
      assert forall r | 0 <= r < ranks :: Multiples(ranks, 1)[r];
    } else {
      var top := PowerFrom(ranks);
      NeverServed(RootOnly(ranks), ranks / 2, top / 2);
      assert !Broadcasted(RootOnly(ranks), ranks / 2)[top / 2];
    }
  }

  lemma RootIsMultiple(ranks: nat)
    ensures ranks > 0 ==> RootOnly(ranks) == Multiples(ranks, ranks)
  {
    if ranks > 0 {
      forall r | 0 <= r < ranks ensures r % ranks == 0 <==> r == 0 {
        ModuloUnique(r, 0, r, ranks);
      }
    }
  }

  /** When the level of a stride starts, the holders are the multiples of twice the stride: at first the
      root is the only one, as it is the only multiple of the rank count; if so, then
      after it they are the multiples of the stride, and after all levels that remain all ranks hold. */
  lemma {:induction false} HoldersAreMultiples(ranks: nat, reach: nat)
    requires IsPowerOfTwo(reach)
    ensures ranks > 0 ==> RootOnly(ranks) == Multiples(ranks, ranks)
    ensures reach > 1 ==> Level(Multiples(ranks, reach), reach / 2) == Multiples(ranks, reach / 2)
    ensures Broadcasted(Multiples(ranks, reach), reach / 2) == Multiples(ranks, 1)
    decreases reach
  {
    RootIsMultiple(ranks);
    if reach > 1 {
      var stride := reach / 2;
      forall r | 0 <= r < ranks
        ensures Level(Multiples(ranks, reach), stride)[r] == (r % stride == 0)
      {
        HalfModulo(r, stride);
      }
      assert Level(Multiples(ranks, reach), stride) == Multiples(ranks, stride);
      HoldersAreMultiples(ranks, stride);
    }
  }

  lemma HalfModulo(r: nat, stride: nat)
    requires stride > 0
    ensures r % stride == 0 <==> r % (2 * stride) == 0 || r % (2 * stride) == stride
    ensures r % (2 * stride) == stride ==> r >= stride && (r - stride) % (2 * stride) == 0
  {
    var q, p := r / (2 * stride), r % (2 * stride);
    assert r == q * (2 * stride) + p == (2 * q) * stride + p;
    if p < stride {
      ModuloUnique(r, 2 * q, p, stride);
    } else {
      assert r == (2 * q + 1) * stride + (p - stride);
      ModuloUnique(r, 2 * q + 1, p - stride, stride);
      ModuloUnique(r - stride, q, p - stride, 2 * stride);
    }
  }

  /** A rank that is a power of two above every stride takes part in no level as a receiver. */
  lemma {:induction false} NeverServed(holds: seq<bool>, stride: nat, r: nat)
    requires IsPowerOfTwo(r) && stride < r < |holds| && !holds[r]
    ensures !Broadcasted(holds, stride)[r]
    decreases stride
  {
    if stride >= 1 {
      if r % (2 * stride) == stride {
        var q := r / (2 * stride);
        assert r == q * (2 * stride) + stride == stride * (2 * q + 1);
        OddFactor(r, stride, q);
        assert false;
      }
      NeverServed(Level(holds, stride), stride / 2, r);
    }
  }

  lemma {:induction false} OddFactor(p: nat, s: nat, q: nat)
    requires IsPowerOfTwo(p) && p == s * (2 * q + 1)
    ensures q == 0
    decreases p
  {
    OddMultiple(s, q);
    if p > 1 {
      HalfOfMultiple(s / 2, q);
      OddFactor(p / 2, s / 2, q);
    }
  }

  lemma OddMultiple(s: nat, q: nat)
    ensures var p := s * (2 * q + 1);
      && p % 2 == s % 2
      && (p == 1 ==> q == 0)
  {
    assert s * (2 * q + 1) == 2 * (s * q) + s;
    if q > 0 && s > 0 {
      assert s * q > 0;
    }
  }

  lemma HalfOfMultiple(h: nat, q: nat)
    ensures (2 * h) * (2 * q + 1) == 2 * (h * (2 * q + 1))
  {
  }

  /** How often the broadcast loop of `rank` receives, from the level of `reach / 2` on. */
  function ReceiveCount(rank: nat, reach: nat): nat {
    if reach <= 1 then 0
    else (if rank % (2 * (reach / 2)) == reach / 2 then 1 else 0) + ReceiveCount(rank, reach / 2)
  }

  lemma {:induction false} EveryRankReceivesOnce(rank: nat, reach: nat)
    requires IsPowerOfTwo(reach)
    ensures ReceiveCount(rank, reach) == if rank % reach == 0 then 0 else 1
    decreases reach
  {
    if reach > 1 {
      HalfModulo(rank, reach / 2);
      EveryRankReceivesOnce(rank, reach / 2);
    }
  }

  /** What a level adds to the count. */
  lemma CountOfLevel(rank: nat, stride: nat)
    requires IsPowerOfTwo(stride)
    ensures ReceiveCount(rank, 2 * stride)
         == (if rank % (2 * stride) == stride then 1 else 0) + ReceiveCount(rank, 2 * (stride / 2))
  {
    assert (2 * stride) / 2 == stride;
    assert stride == 1 || 2 * (stride / 2) == stride;
  }

  lemma CountOfBroadcast(rank: nat, ranks: nat)
    requires IsPowerOfTwo(ranks) && rank < ranks
    ensures ReceiveCount(rank, 2 * (ranks / 2)) == if rank == 0 then 0 else 1
  {
    EveryRankReceivesOnce(rank, ranks);
    ModuloUnique(rank, 0, rank, ranks);
    assert ranks == 1 || 2 * (ranks / 2) == ranks;
  }

  // ----- Sharding

  /** The sample that a GPU worker visits in its round `local`. */
  function SampleOf(rank: int, ranks: int, gpu: int, local: int): int {
    rank + ranks * (gpu + 2 * local)
  }

  datatype Place = Place(rank: int, gpu: int, local: int)

  predicate IsPlace(p: Place, ranks: int, perGpu: int) {
    0 <= p.rank < ranks && 0 <= p.gpu < 2 && 0 <= p.local < perGpu
  }

  function PlaceOf(sample: int, ranks: int): Place
    requires ranks > 0
  {
    Place(sample % ranks, sample / ranks % 2, sample / ranks / 2)
  }

  /** The samples of a worker: the first GPU of rank `r` begins with sample `r`, the second one as many samples
      further on as there are ranks, and both go on in steps of twice that many. */
  lemma SamplesOfWorker(rank: int, ranks: int, local: int)
    ensures SampleOf(rank, ranks, 0, 0) == rank && SampleOf(rank, ranks, 1, 0) == rank + ranks
    ensures forall gpu :: SampleOf(rank, ranks, gpu, local + 1) == SampleOf(rank, ranks, gpu, local) + 2 * ranks
  {
    forall gpu ensures SampleOf(rank, ranks, gpu, local + 1) == SampleOf(rank, ranks, gpu, local) + 2 * ranks {
      assert ranks * (gpu + 2 * (local + 1)) == ranks * (gpu + 2 * local) + 2 * ranks;
    }
  }

  /** Every sample has exactly one place, and every place a sample. */
  lemma ShardsPartitionTheSamples(ranks: nat, perGpu: nat)
    requires ranks > 0
    ensures forall p | IsPlace(p, ranks, perGpu) ::
      var s := SampleOf(p.rank, ranks, p.gpu, p.local);
      0 <= s < ranks * (2 * perGpu) && PlaceOf(s, ranks) == p
    ensures forall s | 0 <= s < ranks * (2 * perGpu) ::
      var p := PlaceOf(s, ranks);
      IsPlace(p, ranks, perGpu) && SampleOf(p.rank, ranks, p.gpu, p.local) == s
  {
    forall p | IsPlace(p, ranks, perGpu)
      ensures var s := SampleOf(p.rank, ranks, p.gpu, p.local);
              0 <= s < ranks * (2 * perGpu) && PlaceOf(s, ranks) == p
    {
      PlaceHasSample(p, ranks, perGpu);
    }
    forall s | 0 <= s < ranks * (2 * perGpu)
      ensures var p := PlaceOf(s, ranks);
              IsPlace(p, ranks, perGpu) && SampleOf(p.rank, ranks, p.gpu, p.local) == s
    {
      SampleHasPlace(s, ranks, perGpu);
    }
  }

  lemma PlaceHasSample(p: Place, ranks: nat, perGpu: nat)
    requires ranks > 0 && IsPlace(p, ranks, perGpu)
    ensures var s := SampleOf(p.rank, ranks, p.gpu, p.local);
            0 <= s < ranks * (2 * perGpu) && PlaceOf(s, ranks) == p
  {
    var k, rest := p.gpu + 2 * p.local, 2 * perGpu - 1 - (p.gpu + 2 * p.local);
    ModuloUnique(SampleOf(p.rank, ranks, p.gpu, p.local), k, p.rank, ranks);
    assert ranks * (k + rest + 1) == ranks * k + ranks * rest + ranks;
    assert ranks * k >= 0 && ranks * rest >= 0;
  }

  lemma SampleHasPlace(s: nat, ranks: nat, perGpu: nat)
    requires ranks > 0 && s < ranks * (2 * perGpu)
    ensures var p := PlaceOf(s, ranks);
            IsPlace(p, ranks, perGpu) && SampleOf(p.rank, ranks, p.gpu, p.local) == s
  {
    var q := s / ranks;
    assert s == ranks * q + s % ranks;
    assert q >= 2 * perGpu ==> ranks * q >= ranks * (2 * perGpu);
  }

  // ----- The rank count does not change the gradient

  /** An exact addition with a neutral element: what floating point only approximates.  The laws are
      stated on marked triples, so that a proof names the instances it uses. */
  ghost predicate IsExact<V(!new)>(add: (V, V) -> V, zero: V) {
    && (forall a, b, c {:trigger Marked(a, b, c)} :: Marked(a, b, c) ==> add(add(a, b), c) == add(a, add(b, c)))
    && (forall a, b, c {:trigger Marked(a, b, c)} :: Marked(a, b, c) ==> add(b, c) == add(c, b))
    && (forall a, b, c {:trigger Marked(a, b, c)} :: Marked(a, b, c) ==> add(a, zero) == a)
  }

  ghost predicate Marked<V>(a: V, b: V, c: V) { true }

  lemma ExactIsAssociative<V(!new)>(add: (V, V) -> V, zero: V)
    requires IsExact(add, zero)
    ensures Associative(add)
  {
    forall a, b, c ensures Rebrackets(add, a, b, c) {
      assert Marked(a, b, c);
    }
  }

  /** Accumulation over `f(0), ..., f(n - 1)`, starting from `zero`. */
  function Sum<V>(add: (V, V) -> V, zero: V, f: int -> V, n: nat): V {
    if n == 0 then zero else add(Sum(add, zero, f, n - 1), f(n - 1))
  }

  /** The contributions of the samples of one GPU worker. */
  function LocalParts<V>(part: (V, int) -> V, model: V, rank: int, gpu: int, ranks: int): int -> V {
    local => part(model, SampleOf(rank, ranks, gpu, local))
  }

  /** The benchmark's gradient over exact arithmetic: `part` is the contribution of one sample. */
  function Exact<V>(initial: V, add: (V, V) -> V, zero: V, part: (V, int) -> V, update: (V, V, int) -> V): Training<V> {
    Training(initial, add,
      (model: V, rank: int, gpu: int, ranks: int, samples: int) =>
        Sum(add, zero, LocalParts(part, model, rank, gpu, ranks), if samples < 0 then 0 else samples),
      update)
  }

  /** Gradient descent on one machine, over all samples in order. */
  function FullBatchModel<V>(t: Training<V>, zero: V, part: (V, int) -> V, samples: nat, iterations: nat): V {
    if iterations == 0 then t.initial
    else
      var model := FullBatchModel(t, zero, part, samples, iterations - 1);
      t.update(model, Sum(t.add, zero, i => part(model, i), samples), samples)
  }

  lemma {:induction false} SumCongruent<V>(add: (V, V) -> V, zero: V, f: int -> V, g: int -> V, n: nat)
    requires forall i | 0 <= i < n :: f(i) == g(i)
    ensures Sum(add, zero, f, n) == Sum(add, zero, g, n)
    decreases n
  {
    if n > 0 {
      SumCongruent(add, zero, f, g, n - 1);
    }
  }

  lemma SwapInner<V(!new)>(add: (V, V) -> V, zero: V, a: V, b: V, c: V, d: V)
    requires IsExact(add, zero)
    ensures add(add(a, b), add(c, d)) == add(add(a, c), add(b, d))
  {
    assert Marked(a, b, add(c, d)) && Marked(b, c, d) && Marked(a, b, c) && Marked(c, b, d) && Marked(a, c, add(b, d));
  }

  lemma {:induction false} SumOfSums<V(!new)>(add: (V, V) -> V, zero: V, f: int -> V, g: int -> V, h: int -> V, n: nat)
    requires IsExact(add, zero)
    requires forall i | 0 <= i < n :: h(i) == add(f(i), g(i))
    ensures Sum(add, zero, h, n) == add(Sum(add, zero, f, n), Sum(add, zero, g, n))
    decreases n
  {
    if n > 0 {
      SumOfSums(add, zero, f, g, h, n - 1);
      SwapInner(add, zero, Sum(add, zero, f, n - 1), Sum(add, zero, g, n - 1), f(n - 1), g(n - 1));
    } else {
      assert Marked(zero, zero, zero);
    }
  }

  lemma {:induction false} SumSplits<V(!new)>(add: (V, V) -> V, zero: V, f: int -> V, a: nat, g: int -> V, b: nat)
    requires IsExact(add, zero)
    requires forall i | 0 <= i < b :: g(i) == f(a + i)
    ensures Sum(add, zero, f, a + b) == add(Sum(add, zero, f, a), Sum(add, zero, g, b))
    decreases b
  {
    if b > 0 {
      SumSplits(add, zero, f, a, g, b - 1);
      assert a + b - 1 == a + (b - 1);
      assert Marked(Sum(add, zero, f, a), Sum(add, zero, g, b - 1), g(b - 1));
    } else {
      assert Marked(Sum(add, zero, f, a), zero, zero);
    }
  }

  /** The two GPUs of a rank take alternate items. */
  lemma {:induction false} SumInterleaves<V(!new)>(
      add: (V, V) -> V, zero: V, f: int -> V, even: int -> V, odd: int -> V, n: nat)
    requires IsExact(add, zero)
    requires forall i | 0 <= i < n :: even(i) == f(2 * i) && odd(i) == f(2 * i + 1)
    ensures add(Sum(add, zero, even, n), Sum(add, zero, odd, n)) == Sum(add, zero, f, 2 * n)
    decreases n
  {
    if n > 0 {
      SumInterleaves(add, zero, f, even, odd, n - 1);
      var a, b := Sum(add, zero, even, n - 1), Sum(add, zero, odd, n - 1);
      SwapInner(add, zero, a, even(n - 1), b, odd(n - 1));
      assert Marked(add(a, b), even(n - 1), odd(n - 1));
      assert Sum(add, zero, f, 2 * n) == add(Sum(add, zero, f, 2 * n - 1), f(2 * n - 1));
      assert Sum(add, zero, f, 2 * n - 1) == add(Sum(add, zero, f, 2 * n - 2), f(2 * n - 2));
      assert 2 * (n - 1) == 2 * n - 2;
    } else {
      assert Marked(zero, zero, zero);
    }
  }

  /** The items that rank `r` sees. */
  function Column<V>(f: int -> V, r: int, ranks: int): int -> V {
    i => f(r + ranks * i)
  }

  /** Rank by rank with stride `ranks`, or all samples in order: the same sum. */
  lemma {:induction false} SumByColumns<V(!new)>(
      add: (V, V) -> V, zero: V, f: int -> V, ranks: nat, column: int -> V, k: nat)
    requires IsExact(add, zero)
    requires forall r | 0 <= r < ranks :: column(r) == Sum(add, zero, Column(f, r, ranks), k)
    ensures Sum(add, zero, column, ranks) == Sum(add, zero, f, ranks * k)
    decreases k
  {
    if k == 0 {
      assert Marked(zero, zero, zero);
      SumOfZeros(add, zero, column, ranks);
    } else {
      var shorter := r => Sum(add, zero, Column(f, r, ranks), k - 1);
      SumByColumns(add, zero, f, ranks, shorter, k - 1);
      NextRow(ranks, k);
      OneMoreRow(add, zero, f, ranks, shorter, column, k, ranks * (k - 1));
    }
  }

  lemma OneMoreRow<V(!new)>(
      add: (V, V) -> V, zero: V, f: int -> V, ranks: nat, shorter: int -> V, column: int -> V, k: nat, last: nat)
    requires IsExact(add, zero) && k > 0 && last == ranks * (k - 1) && Sum(add, zero, shorter, ranks) == Sum(add, zero, f, last)
    requires forall r | 0 <= r < ranks ::
      && column(r) == Sum(add, zero, Column(f, r, ranks), k)
      && shorter(r) == Sum(add, zero, Column(f, r, ranks), k - 1)
    ensures Sum(add, zero, column, ranks) == Sum(add, zero, f, last + ranks)
  {
    var row := r => f(last + r);
    forall r | 0 <= r < ranks ensures column(r) == add(shorter(r), row(r)) {
      ColumnGrows(add, zero, f, ranks, r, k, last);
    }
    OneMoreItemEach(add, zero, f, ranks, shorter, row, column, last);
  }

  lemma ColumnGrows<V>(add: (V, V) -> V, zero: V, f: int -> V, ranks: nat, r: int, k: nat, last: nat)
    requires k > 0 && last == ranks * (k - 1)
    ensures Sum(add, zero, Column(f, r, ranks), k) == add(Sum(add, zero, Column(f, r, ranks), k - 1), f(last + r))
  {
  }

  lemma OneMoreItemEach<V(!new)>(
      add: (V, V) -> V, zero: V, f: int -> V, ranks: nat, shorter: int -> V, row: int -> V, column: int -> V, last: nat)
    requires IsExact(add, zero) && Sum(add, zero, shorter, ranks) == Sum(add, zero, f, last)
    requires forall r | 0 <= r < ranks :: column(r) == add(shorter(r), row(r)) && row(r) == f(last + r)
    ensures Sum(add, zero, column, ranks) == Sum(add, zero, f, last + ranks)
  {
    SumOfSums(add, zero, shorter, row, column, ranks);
    SumSplits(add, zero, f, last, row, ranks);
  }

  lemma NextRow(ranks: nat, k: nat)
    requires k > 0
    ensures ranks * (k - 1) >= 0 && ranks * (k - 1) + ranks == ranks * k
  {
  }

  lemma {:induction false} SumOfZeros<V>(add: (V, V) -> V, zero: V, f: int -> V, n: nat)
    requires forall i | 0 <= i < n :: f(i) == zero
    requires add(zero, zero) == zero
    ensures Sum(add, zero, f, n) == zero
    decreases n
  {
    if n > 0 {
      SumOfZeros(add, zero, f, n - 1);
    }
  }

  lemma {:induction false} FoldIsSum<V(!new)>(add: (V, V) -> V, zero: V, g: seq<V>, f: int -> V)
    requires IsExact(add, zero) && |g| > 0
    requires forall i | 0 <= i < |g| :: f(i) == g[i]
    ensures Fold(add, g) == Sum(add, zero, f, |g|)
    decreases |g|
  {
    if |g| == 1 {
      assert Marked(g[0], zero, g[0]);
      assert Sum(add, zero, f, 1) == add(Sum(add, zero, f, 0), f(0));
    } else {
      FoldIsSum(add, zero, g[..|g| - 1], f);
    }
  }

  /** What the ranks reduce is the full-batch gradient. */
  lemma ReducedGradientIsFullBatch<V(!new)>(
      initial: V, add: (V, V) -> V, zero: V, part: (V, int) -> V, update: (V, V, int) -> V,
      model: V, ranks: nat, perGpu: nat)
    requires IsExact(add, zero) && ranks > 0
    ensures TreeReduce(add, RankGradients(Exact(initial, add, zero, part, update), model, ranks, perGpu), 1)[0]
         == Sum(add, zero, i => part(model, i), ranks * (2 * perGpu))
  {
    var t := Exact(initial, add, zero, part, update);
    var g := RankGradients(t, model, ranks, perGpu);
    var f := i => part(model, i);
    var column := r => Sum(add, zero, Column(f, r, ranks), 2 * perGpu);
    forall r | 0 <= r < ranks ensures g[r] == column(r) {
      var whole := Column(f, r, ranks);
      var even, odd := LocalParts(part, model, r, 0, ranks), LocalParts(part, model, r, 1, ranks);
      forall l | 0 <= l < perGpu ensures even(l) == whole(2 * l) && odd(l) == whole(2 * l + 1) {
        assert SampleOf(r, ranks, 0, l) == r + ranks * (2 * l);
        assert SampleOf(r, ranks, 1, l) == r + ranks * (2 * l + 1);
      }
      SumInterleaves(add, zero, whole, even, odd, perGpu);
      assert t.gradient(model, r, 0, ranks, perGpu) == Sum(add, zero, even, perGpu);
      assert t.gradient(model, r, 1, ranks, perGpu) == Sum(add, zero, odd, perGpu);
    }
    ExactIsAssociative(add, zero);
    TreeAgreesWithSerialOrder(add, g);
    FoldIsSum(add, zero, g, column);
    SumByColumns(add, zero, f, ranks, column, 2 * perGpu);
  }

  /** Over exact arithmetic every admissible rank count trains the same model: that of one machine
      working through the whole batch. */
  lemma {:induction false} EveryRankCountTrainsTheSameModel<V(!new)>(
      initial: V, add: (V, V) -> V, zero: V, part: (V, int) -> V, update: (V, V, int) -> V,
      ranks: nat, samples: nat, iterations: nat)
    requires IsExact(add, zero) && ranks > 0 && samples % (ranks * 2) == 0
    ensures var t := Exact(initial, add, zero, part, update);
            ReferenceModel(t, ranks, samples, iterations) == FullBatchModel(t, zero, part, samples, iterations)
    decreases iterations
  {
    if iterations > 0 {
      var t := Exact(initial, add, zero, part, update);
      EveryRankCountTrainsTheSameModel(initial, add, zero, part, update, ranks, samples, iterations - 1);
      var model := ReferenceModel(t, ranks, samples, iterations - 1);
      var perGpu := samples / (ranks * 2);
      assert samples == perGpu * (ranks * 2) == ranks * (2 * perGpu);
      ReducedGradientIsFullBatch(initial, add, zero, part, update, model, ranks, perGpu);
    }
  }
}
