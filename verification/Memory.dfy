/** Integers as they lie in memory: two's complement, low bytes first. */
module Memory {
  import opened PipeFrame

  /** The lowest `k` bytes. */
  function Little(n: int, k: nat): (b: seq<Byte>)
    ensures |b| == k
    decreases k
  {
    if k == 0 then [] else [n % 0x100] + Little(n / 0x100, k - 1)
  }

  function Signed(b: seq<Byte>): int {
    if b == [] then 0
    else if |b| == 1 then (if b[0] < 0x80 then b[0] as int else b[0] as int - 0x100)
    else b[0] as int + 0x100 * Signed(b[1..])
  }

  /** How many numbers from zero upwards `k` bytes can hold. */
  function Half(k: nat): (h: int)
    requires k > 0
    ensures h > 0
  {
    if k == 1 then 0x80 else 0x100 * Half(k - 1)
  }

  lemma {:induction false} LittleRoundTrip(n: int, k: nat)
    requires k > 0 && -Half(k) <= n < Half(k)
    ensures Signed(Little(n, k)) == n
    decreases k
  {
    if k > 1 {
      LittleRoundTrip(n / 0x100, k - 1);
      assert Little(n, k)[1..] == Little(n / 0x100, k - 1);
    }
  }

  /** The low byte is the first one. */
  lemma {:induction false} LittleIsLowFirst(n: int, k: nat)
    requires 0 <= n < 0x100 && k > 0
    ensures Little(n, k) == [n] + seq(k - 1, _ => 0)
    decreases k
  {
    if k > 1 {
      LittleIsLowFirst(0, k - 1);
      assert [0] + seq(k - 2, _ => 0) == seq(k - 1, _ => 0);
    }
  }

  predicate IsLong(n: int) { -0x8000_0000_0000_0000 <= n < 0x8000_0000_0000_0000 }

  lemma LongRoundTrip(n: int)
    requires IsLong(n)
    ensures Signed(Little(n, 8)) == n
  {
    assert Half(2) == 0x100 * Half(1) && Half(4) == 0x1_0000 * Half(2) && Half(6) == 0x1_0000 * Half(4);
    assert Half(8) == 0x1_0000 * Half(6);
    LittleRoundTrip(n, 8);
  }

  /** An array of 64-bit integers. */
  function Longs(values: seq<int>): (b: seq<Byte>)
    ensures |b| == 8 * |values|
  {
    if values == [] then [] else Little(values[0], 8) + Longs(values[1..])
  }

  function FromLongs(b: seq<Byte>): seq<int> {
    if |b| < 8 then [] else [Signed(b[..8])] + FromLongs(b[8..])
  }

  lemma {:induction false} LongsRoundTrip(values: seq<int>)
    requires forall k | 0 <= k < |values| :: IsLong(values[k])
    ensures FromLongs(Longs(values)) == values
    decreases |values|
  {
    if values != [] {
      var b := Longs(values);
      assert b[..8] == Little(values[0], 8) && b[8..] == Longs(values[1..]);
      LongRoundTrip(values[0]);
      LongsRoundTrip(values[1..]);
    }
  }
}
