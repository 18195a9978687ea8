/** The frame in which one PipeComm write crosses a BaseIf channel: a packed header of 20 bytes, whose
    two lengths are in network byte order (RFC 791, Appendix B), then the pipe name, then the payload. */
module PipeFrame {
  import opened Options

  type Byte = b: int | 0 <= b < 256

  const ENTRY_BYTES := 65536
  const FRAME_BYTES := 20
  const MAX_NAME := 255
  const DATA: Byte := 1
  const NEWLINE: Byte := 10

  /** Room left for a payload when the BaseIf header takes `base` bytes of an entry. */
  function MaxPayload(base: nat): int {
    ENTRY_BYTES - base - FRAME_BYTES - MAX_NAME
  }

  /** What `HandleClient` lets through. */
  predicate Acceptable(base: nat, name: seq<Byte>, bytes: int) {
    0 < |name| <= MAX_NAME && 0 <= bytes <= MaxPayload(base)
  }

  function ToNetwork(n: nat): (b: seq<Byte>)
    requires n < 0x1_0000_0000
    ensures |b| == 4
  {
    [n / 0x100_0000, n / 0x1_0000 % 0x100, n / 0x100 % 0x100, n % 0x100]
  }

  function FromNetwork(b: seq<Byte>): nat
    requires |b| == 4
  {
    b[0] as int * 0x100_0000 + b[1] as int * 0x1_0000 + b[2] as int * 0x100 + b[3] as int
  }

  lemma NetworkRoundTrip(n: nat)
    requires n < 0x1_0000_0000
    ensures FromNetwork(ToNetwork(n)) == n
  {
    var h, l := n / 0x1_0000, n % 0x1_0000;
    assert n / 0x100_0000 == h / 0x100;
    assert n / 0x100 % 0x100 == l / 0x100 && n % 0x100 == l % 0x100;
  }

  lemma FromNetworkRoundTrip(b: seq<Byte>)
    requires |b| == 4
    ensures FromNetwork(b) < 0x1_0000_0000 && ToNetwork(FromNetwork(b)) == b
  {
    var n := FromNetwork(b);
    var three := b[0] as int * 0x1_0000 + b[1] as int * 0x100 + b[2] as int;
    var two := b[0] as int * 0x100 + b[1] as int;
    LastByte(n, three, b[3]);
    LastByte(three, two, b[2]);
    LastByte(two, b[0], b[1]);
    assert n / 0x1_0000 == two && n / 0x100_0000 == b[0] as int;
  }

  lemma LastByte(n: int, high: int, low: Byte)
    requires n == 0x100 * high + low as int
    ensures n / 0x100 == high && n % 0x100 == low as int
  {
  }

  /** The first byte in which they differ tells which sequence is the smaller one. */
  predicate Precedes(a: seq<Byte>, b: seq<Byte>) {
    exists k | 0 <= k < |a| && k < |b| :: a[..k] == b[..k] && a[k] < b[k]
  }

  /** In network byte order the high bytes come first, so that numbers compare as their bytes do. */
  lemma NetworkOrder(m: nat, n: nat)
    requires m < n < 0x1_0000_0000
    ensures Precedes(ToNetwork(m), ToNetwork(n))
  {
    var a, b := ToNetwork(m), ToNetwork(n);
    NetworkRoundTrip(m);
    NetworkRoundTrip(n);
    var k := if a[0] != b[0] then 0 else if a[1] != b[1] then 1 else if a[2] != b[2] then 2 else 3;
    assert a[..k] == b[..k] && a[k] < b[k];
  }

  function Encode(name: seq<Byte>, payload: seq<Byte>): (frame: seq<Byte>)
    requires |name| < 0x1_0000_0000 && |payload| < 0x1_0000_0000
    ensures |frame| == FRAME_BYTES + |name| + |payload|
  {
    [DATA, 0, 0, 0] + [0, 0, 0, 0, 0, 0, 0, 0] + ToNetwork(|name|) + ToNetwork(|payload|) + name + payload
  }

  /** A frame overwrites the front of a ring entry; what an earlier frame left behind it stays. */
  function Place(stale: seq<Byte>, frame: seq<Byte>): (entry: seq<Byte>)
    requires |frame| <= |stale|
    ensures |entry| == |stale|
  {
    frame + stale[|frame|..]
  }

  datatype Write = Write(name: seq<Byte>, payload: seq<Byte>)

  /** What the receiver makes of an entry (without its BaseIf header), with all its checks. */
  function Decode(base: nat, entry: seq<Byte>): Option<Write>
    requires FRAME_BYTES <= |entry| && base + |entry| == ENTRY_BYTES
  {
    var nameBytes := FromNetwork(entry[12..16]);
    var payloadBytes := FromNetwork(entry[16..20]);
    if entry[0] != DATA || nameBytes == 0 || nameBytes > MAX_NAME || payloadBytes > MaxPayload(base)
       || base + FRAME_BYTES + nameBytes + payloadBytes > ENTRY_BYTES
    then None
    else
      var body := entry[FRAME_BYTES..];
      Some(Write(body[..nameBytes], body[nameBytes..nameBytes + payloadBytes]))
  }

  /** Every accepted request fits an entry, passes the receiver's checks and comes out unchanged,
      whatever the entry held before. */
  lemma FrameRoundTrip(base: nat, stale: seq<Byte>, name: seq<Byte>, payload: seq<Byte>)
    requires Acceptable(base, name, |payload|) && base + |stale| == ENTRY_BYTES
    ensures FRAME_BYTES + |name| + |payload| <= |stale|
    ensures Decode(base, Place(stale, Encode(name, payload))) == Some(Write(name, payload))
  {
    var n, p := ToNetwork(|name|), ToNetwork(|payload|);
    var entry := Place(stale, Encode(name, payload));
    NetworkRoundTrip(|name|);
    NetworkRoundTrip(|payload|);
    assert entry[12..16] == n;
    assert entry[16..20] == p;
    var body := entry[FRAME_BYTES..];
    assert body == name + payload + stale[FRAME_BYTES + |name| + |payload|..];
    assert body[..|name|] == name;
    assert body[|name|..|name| + |payload|] == payload;
  }

  /** What the receiver takes is what the frame in the entry says: nothing but frames of acceptable
      writes is taken, except for the bytes that nobody looks at. */
  lemma DecodedIsFrame(base: nat, entry: seq<Byte>)
    requires FRAME_BYTES <= |entry| && base + |entry| == ENTRY_BYTES
    ensures match Decode(base, entry)
      case Some(w) =>
        && Acceptable(base, w.name, |w.payload|) && FRAME_BYTES + |w.name| + |w.payload| <= |entry|
        && entry[0] == DATA && entry[12..FRAME_BYTES + |w.name| + |w.payload|] == Encode(w.name, w.payload)[12..]
      case None => forall name, payload, stale ::
        Acceptable(base, name, |payload|) && base + |stale| == ENTRY_BYTES ==> entry != Place(stale, Encode(name, payload))
  {
    match Decode(base, entry)
    case Some(w) => DecodedFields(base, entry, w);
    case None =>
      forall name, payload, stale | Acceptable(base, name, |payload|) && base + |stale| == ENTRY_BYTES
        ensures entry != Place(stale, Encode(name, payload))
      {
        FrameRoundTrip(base, stale, name, payload);
      }
  }

  lemma DecodedFields(base: nat, entry: seq<Byte>, w: Write)
    requires FRAME_BYTES <= |entry| && base + |entry| == ENTRY_BYTES && Decode(base, entry) == Some(w)
    ensures Acceptable(base, w.name, |w.payload|) && FRAME_BYTES + |w.name| + |w.payload| <= |entry|
    ensures entry[0] == DATA && entry[12..FRAME_BYTES + |w.name| + |w.payload|] == Encode(w.name, w.payload)[12..]
  {
    FromNetworkRoundTrip(entry[12..16]);
    FromNetworkRoundTrip(entry[16..20]);
    var end := FRAME_BYTES + |w.name| + |w.payload|;
    assert entry[20..end] == w.name + w.payload;
    assert entry[12..end] == entry[12..16] + entry[16..20] + entry[20..end];
    assert Encode(w.name, w.payload)[12..] == ToNetwork(|w.name|) + ToNetwork(|w.payload|) + w.name + w.payload;
  }
}
