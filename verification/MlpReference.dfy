/** The mathematical contract of MLP-DP: synchronous gradient descent over rank gradients that are
    combined either in rank order or along a binary tree.  All arithmetic is arbitrary. */
module MlpReference {
  /** The arithmetic of the benchmark.  `gradient` takes the model, the rank, the GPU index, the number
      of ranks and the number of samples per GPU; `update` takes the model, the reduced gradient and
      the global sample count. */
  datatype Training<!V> = Training(
    initial: V,
    add: (V, V) -> V,
    gradient: (V, int, int, int, int) -> V,
    update: (V, V, int) -> V)

  predicate IsPowerOfTwo(n: int) {
    n == 1 || (n > 1 && n % 2 == 0 && IsPowerOfTwo(n / 2))
  }

  // ----- Reduction along the tree

  /** One level: the first rank of every group of `2 * stride` takes in the partial result of the
      group's upper half, when there is one. */
  function TreeLevel<V>(add: (V, V) -> V, partial: seq<V>, stride: nat): (r: seq<V>)
    requires stride > 0
    ensures |r| == |partial|
  {
    seq(|partial|, r requires 0 <= r < |partial| =>
      if r % (2 * stride) == 0 && r + stride < |partial| then add(partial[r], partial[r + stride])
      else partial[r])
  }

  function TreeReduce<V>(add: (V, V) -> V, partial: seq<V>, stride: nat): (r: seq<V>)
    requires stride > 0
    ensures |r| == |partial|
    decreases |partial| - stride
  {
    if stride >= |partial| then partial else TreeReduce(add, TreeLevel(add, partial, stride), 2 * stride)
  }

  /** The bracketed sum of the ranks in `[lo, min(lo + width, |g|))`, halves first. */
  function TreeSum<V>(add: (V, V) -> V, g: seq<V>, lo: nat, width: nat): V
    requires lo < |g| && IsPowerOfTwo(width)
    decreases width
  {
    if width == 1 then g[lo]
    else
      var half := width / 2;
      var left := TreeSum(add, g, lo, half);
      if lo + half < |g| then add(left, TreeSum(add, g, lo + half, half)) else left
  }

  // ----- The training loop

  function RankGradient<V>(t: Training<V>, model: V, rank: int, ranks: int, samplesPerGpu: int): V {
    t.add(t.gradient(model, rank, 0, ranks, samplesPerGpu), t.gradient(model, rank, 1, ranks, samplesPerGpu))
  }

  function RankGradients<V>(t: Training<V>, model: V, ranks: nat, samplesPerGpu: int): (g: seq<V>)
    ensures |g| == ranks
  {
    seq(ranks, r requires 0 <= r < ranks => RankGradient(t, model, r, ranks, samplesPerGpu))
  }

  /** The model after `iterations` rounds of the sequential loop with the tree reduction. */
  function ReferenceModel<V>(t: Training<V>, ranks: nat, samples: int, iterations: nat): V
    requires ranks > 0
  {
    if iterations == 0 then t.initial
    else
      var model := ReferenceModel(t, ranks, samples, iterations - 1);
      var gradients := RankGradients(t, model, ranks, samples / (ranks * 2));
      t.update(model, TreeReduce(t.add, gradients, 1)[0], samples)
  }

  // ----- What the tree computes

  /** The tree invariant: a rank still active at a level, being a multiple of its stride, holds the
      bracketed sum of its own group, and the next level doubles the group. */
  ghost predicate HoldsGroupSums<V>(add: (V, V) -> V, g: seq<V>, partial: seq<V>, stride: nat)
    requires IsPowerOfTwo(stride)
  {
    |partial| == |g| &&
    forall r | 0 <= r < |g| && r % stride == 0 :: partial[r] == TreeSum(add, g, r, stride)
  }

  lemma LevelKeepsGroupSums<V>(add: (V, V) -> V, g: seq<V>, partial: seq<V>, stride: nat)
    requires IsPowerOfTwo(stride) && HoldsGroupSums(add, g, partial, stride)
    ensures IsPowerOfTwo(2 * stride)
    ensures HoldsGroupSums(add, g, TreeLevel(add, partial, stride), 2 * stride)
  {
    DoubleIsPower(stride);
    LevelDoubles(add, g, partial, stride, 2 * stride);
  }

  lemma DoubleIsPower(stride: nat)
    requires IsPowerOfTwo(stride)
    ensures IsPowerOfTwo(2 * stride)
  {
    var width := 2 * stride;
    assert width % 2 == 0 && width / 2 == stride;
  }

  lemma LevelDoubles<V>(add: (V, V) -> V, g: seq<V>, partial: seq<V>, stride: nat, width: nat)
    requires IsPowerOfTwo(stride) && IsPowerOfTwo(width) && width == 2 * stride && HoldsGroupSums(add, g, partial, stride)
    ensures HoldsGroupSums(add, g, TreeLevel(add, partial, stride), width)
  {
    forall r | 0 <= r < |g| && r % width == 0
      ensures TreeLevel(add, partial, stride)[r] == TreeSum(add, g, r, width)
    {
      MultipleOfDouble(r, stride);
      GroupSum(add, g, partial, stride, width, r);
    }
  }

  lemma GroupSum<V>(add: (V, V) -> V, g: seq<V>, partial: seq<V>, stride: nat, width: nat, r: nat)
    requires IsPowerOfTwo(stride) && IsPowerOfTwo(width) && width == 2 * stride && HoldsGroupSums(add, g, partial, stride)
    requires r < |g| && r % width == 0 && r % stride == 0 && (r + stride) % stride == 0
    ensures TreeLevel(add, partial, stride)[r] == TreeSum(add, g, r, width)
  {
    assert width / 2 == stride;
    if r + stride < |g| {
      assert partial[r + stride] == TreeSum(add, g, r + stride, stride);
    }
  }

  lemma MultipleOfDouble(r: nat, stride: nat)
    requires stride > 0 && r % (2 * stride) == 0
    ensures r % stride == 0 && (r + stride) % stride == 0
  {
    var q := r / (2 * stride);
    assert r == q * (2 * stride) == (2 * q) * stride;
    ModuloOfMultiple(2 * q, stride);
    ModuloOfMultiple(2 * q + 1, stride);
    assert r + stride == (2 * q + 1) * stride;
  }

  lemma {:induction false} ModuloOfMultiple(q: nat, n: nat)
    requires n > 0
    ensures (q * n) % n == 0 && (q * n) / n == q
  {
    ModuloUnique(q * n, q, 0, n);
  }

  lemma ModuloUnique(a: int, q: int, r: int, n: nat)
    requires n > 0 && a == q * n + r && 0 <= r < n
    ensures a / n == q && a % n == r
  {
    var d := a / n - q;
    Difference(a / n, q, n);
    assert d * n == r - a % n;
    FarMultiple(d, n);
  }

  lemma Difference(x: int, y: int, n: int)
    ensures (x - y) * n == x * n - y * n
  {
  }

  lemma FarMultiple(d: int, n: nat)
    ensures d >= 1 ==> d * n >= n
    ensures d <= -1 ==> d * n <= -(n as int)
  {
    if d >= 1 {
      Difference(d, 1, n);
      assert (d - 1) * n >= 0;
    } else if d <= -1 {
      Difference(-1, d, n);
      assert (-1 - d) * n >= 0;
    }
  }

  lemma {:induction false} TreeReduceIsTreeSum<V>(add: (V, V) -> V, g: seq<V>, partial: seq<V>, stride: nat, top: nat)
    requires |g| > 0 && IsPowerOfTwo(stride) && IsPowerOfTwo(top) && HoldsGroupSums(add, g, partial, stride)
    requires top >= |g| && stride <= top && (top == 1 || top / 2 < |g|)
    ensures TreeReduce(add, partial, stride)[0] == TreeSum(add, g, 0, top)
    decreases top - stride
  {
    if stride >= |g| {
      if stride < top {
        PowersAreFar(stride, top);
        assert false;
      }
    } else {
      LevelKeepsGroupSums(add, g, partial, stride);
      PowersAreFar(stride, top);
      TreeReduceIsTreeSum(add, g, TreeLevel(add, partial, stride), 2 * stride, top);
    }
  }

  /** Between a power of two and its double there is no other one. */
  lemma {:induction false} PowersAreFar(a: nat, b: nat)
    requires IsPowerOfTwo(a) && IsPowerOfTwo(b) && a < b
    ensures 2 * a <= b && b % (2 * a) == 0
    decreases b
  {
    if a == 1 {
    } else {
      PowersAreFar(a / 2, b / 2);
      var q := (b / 2) / a;
      assert b / 2 == q * a;
      assert b == q * (2 * a);
      ModuloOfMultiple(q, 2 * a);
    }
  }

  // ----- The two reductions compared

  ghost predicate Associative<V(!new)>(add: (V, V) -> V) {
    forall a, b, c :: Rebrackets(add, a, b, c)
  }

  ghost predicate Rebrackets<V>(add: (V, V) -> V, a: V, b: V, c: V) {
    add(add(a, b), c) == add(a, add(b, c))
  }

  /** The totals of rank 0 after each rank, in the order of the ranks. */
  ghost predicate IsRunningTotal<V>(add: (V, V) -> V, g: seq<V>, p: seq<V>) {
    |p| == |g| > 0 && p[0] == g[0] && forall k | 0 < k < |g| :: p[k] == add(p[k - 1], g[k])
  }

  /** There is only one way to run through the ranks, and it ends with the fold. */
  lemma {:induction false} RunningTotalIsFold<V>(add: (V, V) -> V, g: seq<V>, p: seq<V>)
    requires IsRunningTotal(add, g, p)
    ensures p[|p| - 1] == Fold(add, g)
    decreases |g|
  {
    if |g| > 1 {
      RunningTotalIsFold(add, g[..|g| - 1], p[..|p| - 1]);
    }
  }

  /** The serial order of rank 0. */
  function Fold<V>(add: (V, V) -> V, g: seq<V>): V
    requires |g| > 0
  {
    if |g| == 1 then g[0] else add(Fold(add, g[..|g| - 1]), g[|g| - 1])
  }

  lemma {:induction false} FoldOfConcatenation<V(!new)>(add: (V, V) -> V, a: seq<V>, b: seq<V>)
    requires Associative(add) && |a| > 0 && |b| > 0
    ensures Fold(add, a + b) == add(Fold(add, a), Fold(add, b))
    decreases |b|
  {
    var front, last := b[..|b| - 1], b[|b| - 1];
    assert (a + b)[..|a + b| - 1] == a + front;
    if |b| > 1 {
      FoldOfConcatenation(add, a, front);
      assert Rebrackets(add, Fold(add, a), Fold(add, front), last);
    } else {
      assert a + front == a;
    }
  }

  function Min(a: int, b: int): int { if a < b then a else b }

  lemma {:induction false} TreeSumIsFold<V(!new)>(add: (V, V) -> V, g: seq<V>, lo: nat, width: nat)
    requires Associative(add) && lo < |g| && IsPowerOfTwo(width)
    ensures TreeSum(add, g, lo, width) == Fold(add, g[lo..Min(lo + width, |g|)])
    decreases width
  {
    if width == 1 {
      assert g[lo..lo + 1] == [g[lo]];
    } else {
      var mid, hi := lo + width / 2, Min(lo + width, |g|);
      TreeSumIsFold(add, g, lo, width / 2);
      if mid < |g| {
        TreeSumIsFold(add, g, mid, width / 2);
        FoldOfParts(add, g, lo, mid, hi);
      }
    }
  }

  lemma FoldOfParts<V(!new)>(add: (V, V) -> V, g: seq<V>, lo: nat, mid: nat, hi: nat)
    requires Associative(add) && lo < mid < hi <= |g|
    ensures Fold(add, g[lo..hi]) == add(Fold(add, g[lo..mid]), Fold(add, g[mid..hi]))
  {
    assert g[lo..hi] == g[lo..mid] + g[mid..hi];
    FoldOfConcatenation(add, g[lo..mid], g[mid..hi]);
  }

  /** Associativity is all it takes for the tree to give the serial result: the operands are never
      reordered.  This holds for every rank count, power of two or not. */
  lemma TreeAgreesWithSerialOrder<V(!new)>(add: (V, V) -> V, g: seq<V>)
    requires Associative(add) && |g| > 0
    ensures TreeReduce(add, g, 1)[0] == Fold(add, g)
  {
    var top := PowerFrom(|g|);
    TreeReduceIsTreeSum(add, g, g, 1, top);
    TreeSumIsFold(add, g, 0, top);
    assert g[0..|g|] == g;
  }

  lemma PowerFrom(n: nat) returns (top: nat)
    requires n > 0
    ensures IsPowerOfTwo(top) && top >= n && (top == 1 || top / 2 < n)
  {
    top := 1;
    while top < n
      invariant IsPowerOfTwo(top) && (top == 1 || top / 2 < n)
    {
      assert (2 * top) / 2 == top;
      top := 2 * top;
    }
  }

  // ----- The reductions as they run

  /** The serial reduction. */
  method RankOrderedReduce<V>(add: (V, V) -> V, gradients: seq<V>) returns (total: V)
    requires |gradients| > 0
    ensures total == Fold(add, gradients)
    ensures exists p :: IsRunningTotal(add, gradients, p) && total == p[|p| - 1]
  {
    total := gradients[0];
    ghost var p := [gradients[0]];
    for rank := 1 to |gradients|
      invariant total == Fold(add, gradients[..rank])
      invariant IsRunningTotal(add, gradients[..rank], p) && total == p[rank - 1]
    {
      assert gradients[..rank + 1][..rank] == gradients[..rank];
      total := add(total, gradients[rank]);
      p := p + [total];
    }
    assert gradients[..|gradients|] == gradients;
  }

  /** The tree reduction in place.  It indexes a child for every parent, so it needs full groups. */
  method BinaryTreeReduce<V>(add: (V, V) -> V, gradients: seq<V>) returns (total: V)
    requires IsPowerOfTwo(|gradients|)
    ensures total == TreeSum(add, gradients, 0, |gradients|)
  {
    var n := |gradients|;
    var partial := new V[n](i requires 0 <= i < n => gradients[i]);
    assert partial[..] == gradients;
    var stride := 1;
    while stride < n
      invariant IsPowerOfTwo(stride) && stride <= n
      invariant HoldsGroupSums(add, gradients, partial[..], stride)
    {
      PowersAreFar(stride, n);
      ghost var before, level := partial[..], TreeLevel(add, partial[..], stride);
      var parent := 0;
      while parent < n
        invariant 0 <= parent <= n && parent % (2 * stride) == 0
        invariant LevelSoFar(before, level, parent, partial[..])
      {
        GroupFits(parent, 2 * stride, n);
        LevelStep(add, before, stride, parent, partial[..]);
        partial[parent] := add(partial[parent], partial[parent + stride]);
        parent := parent + 2 * stride;
      }
      assert partial[..] == level;
      LevelKeepsGroupSums(add, gradients, before, stride);
      stride := 2 * stride;
    }
    total := partial[0];
  }

  /** The parents below `parent` have taken in their children. */
  ghost predicate LevelSoFar<V>(before: seq<V>, level: seq<V>, parent: nat, partial: seq<V>) {
    |before| == |level| == |partial| && forall r | 0 <= r < |partial| :: partial[r] == if r < parent then level[r] else before[r]
  }

  lemma LevelStep<V>(add: (V, V) -> V, before: seq<V>, stride: nat, parent: nat, partial: seq<V>)
    requires stride > 0 && parent % (2 * stride) == 0 && parent + 2 * stride <= |partial|
    requires forall r | parent < r < parent + 2 * stride :: r % (2 * stride) != 0
    requires LevelSoFar(before, TreeLevel(add, before, stride), parent, partial)
    ensures LevelSoFar(before, TreeLevel(add, before, stride), parent + 2 * stride,
                       partial[parent := add(partial[parent], partial[parent + stride])])
  {
  }

  lemma GroupFits(k: nat, width: nat, n: nat)
    requires width > 0 && k < n && k % width == 0 && n % width == 0
    ensures k + width <= n && (k + width) % width == 0
    ensures forall r | k < r < k + width :: r % width != 0
  {
    var i, j := k / width, n / width;
    assert k == i * width && n == j * width;
    Difference(j, i, width);
    FarMultiple(j - i, width);
    ModuloUnique(k + width, i + 1, 0, width);
    forall r | k < r < k + width ensures r % width != 0 {
      ModuloUnique(r, i, r - k, width);
    }
  }
}
