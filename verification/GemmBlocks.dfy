/** The matrices of the block GEMM: what is filled in, multiplied, checked and summed. */
module GemmBlocks {
  const GLOBAL_ROWS: nat := 480
  // In index arithmetic these two are written out.
  const INNER: nat := 64
  const COLUMNS: nat := 64

  // ----- Row-major matrices

  /** The first `n` products of row `row` of `a` with column `column` of `b`. */
  function Dot(a: seq<int>, b: seq<int>, row: nat, column: nat, n: nat): int
    requires n <= INNER && (row + 1) * 64 <= |a| && |b| == 64 * 64 && column < COLUMNS
  {
    if n == 0 then 0 else Dot(a, b, row, column, n - 1) + a[row * 64 + n - 1] * b[(n - 1) * 64 + column]
  }

  function Product(a: seq<int>, b: seq<int>, rows: nat): (c: seq<int>)
    requires rows * 64 <= |a| && |b| == 64 * 64
    ensures |c| == rows * 64
    ensures forall i | 0 <= i < rows * 64 :: c[i] == Dot(a, b, i / 64, i % 64, INNER)
  {
    seq(rows * 64, i requires 0 <= i < rows * 64 => Dot(a, b, i / 64, i % 64, INNER))
  }

  function FilledA(rowBegin: int, rows: nat): (a: seq<int>)
    ensures |a| == rows * 64
    ensures forall i | 0 <= i < rows * 64 :: a[i] == rowBegin + i / 64 + 1
  {
    seq(rows * 64, i => rowBegin + i / 64 + 1)
  }

  function FilledB(): (b: seq<int>)
    ensures |b| == 64 * 64
    ensures forall i | 0 <= i < 64 * 64 :: b[i] == i % 64 + 1
  {
    seq(64 * 64, i => i % 64 + 1)
  }

  /** What a worker returns for its block of rows. */
  function Block(rowBegin: int, rows: nat): seq<int> {
    Product(FilledA(rowBegin, rows), FilledB(), rows)
  }

  // ----- The loops of the controller

  method FillB(matrix: array<int>)
    requires matrix.Length == 64 * 64
    modifies matrix
    ensures matrix[..] == FilledB()
  {
    for k := 0 to INNER
      invariant forall i | 0 <= i < k * 64 :: matrix[i] == i % 64 + 1
    {
      for column := 0 to COLUMNS
        invariant forall i | 0 <= i < k * 64 + column :: matrix[i] == i % 64 + 1
      {
        matrix[k * 64 + column] := column + 1;
      }
    }
  }

  method FillA(matrix: array<int>, rowBegin: int, rows: nat)
    requires matrix.Length == rows * 64
    modifies matrix
    ensures matrix[..] == FilledA(rowBegin, rows)
  {
    for row := 0 to rows
      invariant forall i | 0 <= i < row * 64 :: matrix[i] == rowBegin + i / 64 + 1
    {
      for k := 0 to INNER
        invariant forall i | 0 <= i < row * 64 + k :: matrix[i] == rowBegin + i / 64 + 1
      {
        matrix[row * 64 + k] := rowBegin + row + 1;
      }
    }
  }

  /** The controller's closed form is exact: it accepts the product, and nothing else of that size. */
  method CheckBlock(matrix: seq<int>, rowBegin: int, rows: nat) returns (ok: bool)
    requires |matrix| == rows * 64
    ensures ok <==> matrix == Block(rowBegin, rows)
  {
    ghost var block := Block(rowBegin, rows);
    for row := 0 to rows
      invariant SameBetween(matrix, block, 0, row * 64)
    {
      ok := CheckRow(matrix, rowBegin, rows, row);
      if !ok {
        return;
      }
    }
    return true;
  }

  ghost predicate SameBetween(a: seq<int>, b: seq<int>, from: nat, to: nat) {
    to <= |a| && to <= |b| && forall i | from <= i < to :: a[i] == b[i]
  }

  /** The inner loop. */
  method CheckRow(matrix: seq<int>, rowBegin: int, rows: nat, row: nat) returns (ok: bool)
    requires |matrix| == rows * 64 && row < rows
    ensures ok <==> SameBetween(matrix, Block(rowBegin, rows), row * 64, row * 64 + 64)
  {
    ghost var block, begin := Block(rowBegin, rows), row * 64;
    for column := 0 to COLUMNS
      invariant SameBetween(matrix, block, begin, begin + column)
    {
      var expected := ClosedForm(rowBegin, rows, row, column);
      SameUpTo(matrix, block, begin, begin + column, begin + 64);
      if matrix[row * 64 + column] != expected {
        return false;
      }
    }
    return true;
  }

  lemma SameUpTo(a: seq<int>, b: seq<int>, from: nat, to: nat, end: nat)
    requires SameBetween(a, b, from, to) && from <= to < end && end <= |a| && end <= |b|
    ensures SameBetween(a, b, from, to + 1) <==> a[to] == b[to]
    ensures a[to] != b[to] ==> !SameBetween(a, b, from, end)
  {
  }

  method ClosedForm(rowBegin: int, rows: nat, row: nat, column: nat) returns (expected: int)
    requires row < rows && column < COLUMNS
    ensures expected == Block(rowBegin, rows)[row * 64 + column]
  {
    BlockEntry(rowBegin, rows, row, column);
    expected := INNER * (rowBegin + row + 1) * (column + 1);
  }

  method Checksum(matrix: seq<int>) returns (total: int)
    ensures total == Sum(matrix)
  {
    total := 0;
    for n := 0 to |matrix|
      invariant total == Sum(matrix[..n])
    {
      assert matrix[..n + 1][..n] == matrix[..n];
      total := total + matrix[n];
    }
    assert matrix[..|matrix|] == matrix;
  }

  // ----- The kernel

  /** One thread.  Threads outside the block do nothing. */
  method Thread(a: seq<int>, b: seq<int>, c: array<int>, rows: nat, row: nat, column: nat)
    requires rows * 64 <= |a| && |b| == 64 * 64 && rows * 64 <= c.Length
    modifies c
    ensures forall i | 0 <= i < c.Length ::
      c[i] == if row < rows && column < COLUMNS && i == row * 64 + column then Dot(a, b, row, column, INNER) else old(c[i])
  {
    if row >= rows || column >= COLUMNS {
      return;
    }
    var sum := 0;
    for k := 0 to INNER
      invariant sum == Dot(a, b, row, column, k)
    {
      sum := sum + a[row * 64 + k] * b[k * 64 + column];
    }
    c[row * 64 + column] := sum;
  }

  /** The launch over a grid of 8 x 8 thread blocks.  No two threads write the same cell, so their order
      does not matter; buffers may be larger than the block. */
  method BlockGemm(a: seq<int>, b: seq<int>, c: array<int>, rows: nat)
    requires rows * 64 <= |a| && |b| == 64 * 64 && rows * 64 <= c.Length
    modifies c
    ensures c[..rows * 64] == Product(a, b, rows)
  {
    var width, height := (COLUMNS + 7) / 8 * 8, (rows + 7) / 8 * 8;
    ghost var product := Product(a, b, rows);
    for row := 0 to height
      invariant Written(c, product, row * 64)
    {
      for column := 0 to width
        invariant Written(c, product, row * 64 + column)
      {
        assert (row * 64 + column) / 64 == row && (row * 64 + column) % 64 == column;
        Thread(a, b, c, rows, row, column);
      }
    }
  }

  ghost predicate Written(c: array<int>, product: seq<int>, n: nat)
    reads c
  {
    |product| <= c.Length && forall i | 0 <= i < n && i < |product| :: c[i] == product[i]
  }

  /** What one thread adds up: `totals[k]` is its sum in front of round `k`. */
  ghost predicate IsTally(totals: seq<int>, a: seq<int>, b: seq<int>, row: nat, column: nat)
    requires (row + 1) * 64 <= |a| && |b| == 64 * 64 && column < COLUMNS
  {
    && |totals| == INNER + 1 && totals[0] == 0
    && forall k | 0 <= k < INNER :: totals[k + 1] == totals[k] + a[row * 64 + k] * b[k * 64 + column]
  }

  ghost predicate IsEntry(a: seq<int>, b: seq<int>, row: nat, column: nat, x: int) {
    && (row + 1) * 64 <= |a| && |b| == 64 * 64 && column < COLUMNS
    && exists totals | IsTally(totals, a, b, row, column) :: x == totals[INNER]
  }

  lemma {:induction false} DotHistory(a: seq<int>, b: seq<int>, row: nat, column: nat, n: nat) returns (totals: seq<int>)
    requires n <= INNER && (row + 1) * 64 <= |a| && |b| == 64 * 64 && column < COLUMNS
    ensures |totals| == n + 1 && totals[0] == 0 && totals[n] == Dot(a, b, row, column, n)
    ensures forall k | 0 <= k < n :: totals[k + 1] == totals[k] + a[row * 64 + k] * b[k * 64 + column]
    decreases n
  {
    if n == 0 {
      totals := [0];
    } else {
      var before := DotHistory(a, b, row, column, n - 1);
      totals := before + [Dot(a, b, row, column, n)];
    }
  }

  /** Row by column: every entry of the product is the last of these sums. */
  lemma EntryOfProduct(a: seq<int>, b: seq<int>, rows: nat, row: nat, column: nat)
    requires rows * 64 <= |a| && |b| == 64 * 64 && row < rows && column < COLUMNS
    ensures IsEntry(a, b, row, column, Product(a, b, rows)[row * 64 + column])
  {
    ProductEntry(a, b, rows, row, column);
    var totals := DotHistory(a, b, row, column, INNER);
    assert IsTally(totals, a, b, row, column);
  }

  // ----- The closed form

  lemma {:induction false} ConstantDot(a: seq<int>, b: seq<int>, row: nat, column: nat, n: nat, x: int)
    requires n <= INNER && (row + 1) * 64 <= |a| && |b| == 64 * 64 && column < COLUMNS
    requires forall k | 0 <= k < n :: a[row * 64 + k] * b[k * 64 + column] == x
    ensures Dot(a, b, row, column, n) == n * x
    decreases n
  {
    if n > 0 {
      ConstantDot(a, b, row, column, n - 1, x);
      OneMore(n, x);
      assert a[row * 64 + (n - 1)] * b[(n - 1) * 64 + column] == x;
    }
  }

  lemma OneMore(n: nat, x: int)
    requires n > 0
    ensures n * x == (n - 1) * x + x
  {
  }

  lemma BlockEntry(rowBegin: int, rows: nat, row: nat, column: nat)
    requires row < rows && column < COLUMNS
    ensures Block(rowBegin, rows)[row * 64 + column] == 64 * (rowBegin + row + 1) * (column + 1)
  {
    BlockEntryIs(rowBegin, rows, row, column, (rowBegin + row + 1) * (column + 1));
    Reassociate(rowBegin + row + 1, column + 1);
  }

  lemma BlockEntryIs(rowBegin: int, rows: nat, row: nat, column: nat, x: int)
    requires row < rows && column < COLUMNS && x == (rowBegin + row + 1) * (column + 1)
    ensures Block(rowBegin, rows)[row * 64 + column] == 64 * x
  {
    ProductEntry(FilledA(rowBegin, rows), FilledB(), rows, row, column);
    FilledProducts(rowBegin, rows, row, column, x);
    ConstantDot(FilledA(rowBegin, rows), FilledB(), row, column, INNER, x);
  }

  lemma ProductEntry(a: seq<int>, b: seq<int>, rows: nat, row: nat, column: nat)
    requires rows * 64 <= |a| && |b| == 64 * 64 && row < rows && column < COLUMNS
    ensures Product(a, b, rows)[row * 64 + column] == Dot(a, b, row, column, INNER)
  {
    assert (row * 64 + column) / 64 == row && (row * 64 + column) % 64 == column;
  }

  lemma FilledProducts(rowBegin: int, rows: nat, row: nat, column: nat, x: int)
    requires row < rows && column < COLUMNS && x == (rowBegin + row + 1) * (column + 1)
    ensures forall k | 0 <= k < INNER :: FilledA(rowBegin, rows)[row * 64 + k] * FilledB()[k * 64 + column] == x
  {
    forall k | 0 <= k < INNER ensures FilledA(rowBegin, rows)[row * 64 + k] * FilledB()[k * 64 + column] == x {
      FilledEntries(rowBegin, rows, row, column, k);
    }
  }

  lemma FilledEntries(rowBegin: int, rows: nat, row: nat, column: nat, k: nat)
    requires row < rows && column < COLUMNS && k < INNER
    ensures FilledA(rowBegin, rows)[row * 64 + k] == rowBegin + row + 1 && FilledB()[k * 64 + column] == column + 1
  {
  }

  lemma Reassociate(a: int, b: int)
    ensures 64 * a * b == 64 * (a * b) == a * (64 * b)
  {
  }

  // ----- Stacking

  lemma {:induction false} DotOfRows(a: seq<int>, first: seq<int>, b: seq<int>, row: nat, column: nat, n: nat)
    requires n <= INNER && (row + 1) * 64 <= |a| && |b| == 64 * 64 && column < COLUMNS && |first| % 64 == 0
    ensures Dot(first + a, b, |first| / 64 + row, column, n) == Dot(a, b, row, column, n)
    decreases n
  {
    if n > 0 {
      DotOfRows(a, first, b, row, column, n - 1);
      assert (first + a)[(|first| / 64 + row) * 64 + n - 1] == a[row * 64 + n - 1];
    }
  }

  lemma {:induction false} DotOfPrefix(a: seq<int>, more: seq<int>, b: seq<int>, row: nat, column: nat, n: nat)
    requires n <= INNER && (row + 1) * 64 <= |a| && |b| == 64 * 64 && column < COLUMNS
    ensures Dot(a + more, b, row, column, n) == Dot(a, b, row, column, n)
    decreases n
  {
    if n > 0 {
      DotOfPrefix(a, more, b, row, column, n - 1);
    }
  }

  /** Multiplying row blocks one by one is multiplying the stacked rows. */
  lemma ProductOfTwo(a: seq<int>, rows: nat, a': seq<int>, rows': nat, b: seq<int>)
    requires |a| == rows * 64 && |a'| == rows' * 64 && |b| == 64 * 64
    ensures Product(a + a', b, rows + rows') == Product(a, b, rows) + Product(a', b, rows')
  {
    var whole, parts := Product(a + a', b, rows + rows'), Product(a, b, rows) + Product(a', b, rows');
    forall i | 0 <= i < (rows + rows') * 64 ensures whole[i] == parts[i] {
      if i < rows * 64 {
        DotOfPrefix(a, a', b, i / 64, i % 64, INNER);
      } else {
        var j := i - rows * 64;
        DotOfRows(a', a, b, j / 64, j % 64, INNER);
        assert i / 64 == rows + j / 64 && i % 64 == j % 64;
      }
    }
  }

  function Stack(blocks: seq<seq<int>>): seq<int> {
    if blocks == [] then [] else Stack(blocks[..|blocks| - 1]) + blocks[|blocks| - 1]
  }

  function Products(blocks: seq<seq<int>>, b: seq<int>, rows: nat): (c: seq<seq<int>>)
    requires |b| == 64 * 64 && forall n | 0 <= n < |blocks| :: |blocks[n]| == rows * 64
    ensures |c| == |blocks| && forall n | 0 <= n < |blocks| :: c[n] == Product(blocks[n], b, rows)
  {
    seq(|blocks|, n requires 0 <= n < |blocks| => Product(blocks[n], b, rows))
  }

  /** Any matrix cut into blocks of `rows` rows: the stacked products are the product of the stack. */
  lemma {:induction false} StackedProducts(blocks: seq<seq<int>>, b: seq<int>, rows: nat)
    requires |b| == 64 * 64 && forall n | 0 <= n < |blocks| :: |blocks[n]| == rows * 64
    ensures |Stack(blocks)| == |blocks| * rows * 64
    ensures Stack(Products(blocks, b, rows)) == Product(Stack(blocks), b, |blocks| * rows)
    decreases |blocks|
  {
    if blocks != [] {
      var last := |blocks| - 1;
      StackedProducts(blocks[..last], b, rows);
      OneMore(|blocks|, rows);
      assert Products(blocks, b, rows)[..last] == Products(blocks[..last], b, rows);
      ProductOfTwo(Stack(blocks[..last]), last * rows, blocks[last], rows, b);
    }
  }

  // ----- Sums

  function Sum(s: seq<int>): int {
    if s == [] then 0 else Sum(s[..|s| - 1]) + s[|s| - 1]
  }

  /** 1 + ... + n */
  function SumTo(n: int): int
    decreases n
  {
    if n <= 0 then 0 else SumTo(n - 1) + n
  }

  lemma {:induction false} SumOfStack(a: seq<int>, b: seq<int>)
    ensures Sum(a + b) == Sum(a) + Sum(b)
    decreases |b|
  {
    if b == [] {
      assert a + b == a;
    } else {
      assert (a + b)[..|a + b| - 1] == a + b[..|b| - 1];
      SumOfStack(a, b[..|b| - 1]);
    }
  }

  lemma {:induction false} SumOfRow(row: seq<int>, x: int)
    requires forall c | 0 <= c < |row| :: row[c] == x * (c + 1)
    ensures Sum(row) == x * SumTo(|row|)
    decreases |row|
  {
    if row != [] {
      SumOfRow(row[..|row| - 1], x);
    }
  }

  lemma Distribute(a: int, b: int, c: int)
    ensures a * c + b * c == (a + b) * c
  {
  }

  /** A block is the block of its upper rows on top of the block of its lower rows. */
  lemma RowsApart(begin: nat, upper: nat, lower: nat)
    ensures Block(begin, upper + lower) == Block(begin, upper) + Block(begin + upper, lower)
  {
    assert FilledA(begin, upper + lower) == FilledA(begin, upper) + FilledA(begin + upper, lower);
    ProductOfTwo(FilledA(begin, upper), upper, FilledA(begin + upper, lower), lower, FilledB());
  }

  /** The checksum of a block. */
  function BlockSum(): (f: (nat, nat) -> int)
    ensures forall begin: nat, rows: nat :: f(begin, rows) == Sum(Block(begin, rows))
  {
    (begin: nat, rows: nat) => Sum(Block(begin, rows))
  }

  /** A measure of row ranges that adds up. */
  ghost predicate Additive(f: (nat, nat) -> int) {
    && f(0, 0) == 0
    && forall begin: nat, upper: nat, lower: nat {:trigger Apart(f, begin, upper, lower)} :: Apart(f, begin, upper, lower)
  }

  predicate Apart(f: (nat, nat) -> int, begin: nat, upper: nat, lower: nat) {
    f(begin, upper + lower) == f(begin, upper) + f(begin + upper, lower)
  }

  lemma BlockSumIsAdditive()
    ensures Additive(BlockSum())
  {
    forall begin: nat, upper: nat, lower: nat ensures Apart(BlockSum(), begin, upper, lower) {
      SumsApart(begin, upper, lower);
    }
    assert Block(0, 0) == [];
  }

  lemma SumsApart(begin: nat, upper: nat, lower: nat)
    ensures Sum(Block(begin, upper + lower)) == Sum(Block(begin, upper)) + Sum(Block(begin + upper, lower))
  {
    RowsApart(begin, upper, lower);
    SumOfStack(Block(begin, upper), Block(begin + upper, lower));
  }

  ghost predicate RowSums(f: (nat, nat) -> int, factor: int) {
    forall k: nat :: f(k, 1) == (k + 1) * factor
  }

  lemma {:induction false} SumRowByRow(f: (nat, nat) -> int, n: nat, factor: int)
    requires Additive(f) && RowSums(f, factor)
    ensures f(0, n) == SumTo(n) * factor
    decreases n
  {
    if n > 0 {
      SumRowByRow(f, n - 1, factor);
      assert Apart(f, 0, n - 1, 1);
      Distribute(SumTo(n - 1), n, factor);
    }
  }

  function RowFactor(): int {
    64 * SumTo(COLUMNS)
  }

  lemma RowSum(n: nat)
    ensures Sum(Block(n, 1)) == (n + 1) * RowFactor()
  {
    var row := Block(n, 1);
    forall c | 0 <= c < COLUMNS ensures row[c] == 64 * (n + 1) * (c + 1) {
      BlockEntry(n, 1, 0, c);
    }
    SumOfRow(row, 64 * (n + 1));
    Reassociate(n + 1, SumTo(COLUMNS));
  }

  lemma BlockSumOfRow(n: nat)
    ensures BlockSum()(n, 1) == (n + 1) * RowFactor()
  {
    RowSum(n);
  }

  lemma RowsSumUp()
    ensures RowSums(BlockSum(), RowFactor())
  {
    forall k: nat ensures BlockSum()(k, 1) == (k + 1) * RowFactor() {
      BlockSumOfRow(k);
    }
  }

  /** The checksum of the first `n` rows: the sum of their numbers, times the inner dimension, times the
      sum of the column numbers. */
  lemma ChecksumOfRows(n: nat)
    ensures BlockSum()(0, n) == SumTo(n) * RowFactor()
  {
    BlockSumIsAdditive();
    RowsSumUp();
    SumRowByRow(BlockSum(), n, RowFactor());
  }

  /** What the ranks return, in their order. */
  function RankBlocks(ranks: nat, rows: nat): (blocks: seq<seq<int>>)
    ensures |blocks| == ranks && forall r | 0 <= r < ranks :: blocks[r] == Block(r * rows, rows)
  {
    seq(ranks, (r: int) => Block(r * rows, rows))
  }

  /** Cutting the rows into equal blocks changes neither the product nor the checksum. */
  lemma {:induction false} BlocksAreTheWhole(ranks: nat, rows: nat)
    ensures Stack(RankBlocks(ranks, rows)) == Block(0, ranks * rows)
    decreases ranks
  {
    if ranks > 0 {
      BlocksAreTheWhole(ranks - 1, rows);
      OneMore(ranks, rows);
      LastRank(ranks, rows);
      RowsApart(0, (ranks - 1) * rows, rows);
    }
  }

  lemma LastRank(ranks: nat, rows: nat)
    requires ranks > 0
    ensures Stack(RankBlocks(ranks, rows)) == Stack(RankBlocks(ranks - 1, rows)) + Block((ranks - 1) * rows, rows)
  {
    assert RankBlocks(ranks, rows)[..ranks - 1] == RankBlocks(ranks - 1, rows);
  }
}
