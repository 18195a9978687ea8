/** How a pipe finds its way: names, placement, topology, and the ports that connect routers with
    gateways on every worker. */
module PipeRouting {
  import opened Options
  import opened PipeFrame
  import opened PipeLink

  const SLASH: Byte := 47
  const UNDERSCORE: Byte := 95
  const MINUS: Byte := 45
  const COMMA: Byte := 44
  const BUFFER: seq<Byte> := [98, 117, 102, 102, 101, 114]   // "buffer"

  /** The text of a coordinate pair, such as "0,1". */
  type Coordinate = seq<Byte>

  // ----- Names

  function Split(s: seq<Byte>, separator: Byte): (fields: seq<seq<Byte>>)
    ensures |fields| > 0
  {
    if s == [] then [[]]
    else
      var rest := Split(s[1..], separator);
      if s[0] == separator then [[]] + rest else [[s[0]] + rest[0]] + rest[1..]
  }

  /** The part after the last slash. */
  function Basename(s: seq<Byte>): seq<Byte> {
    var fields := Split(s, SLASH);
    fields[|fields| - 1]
  }

  predicate IsDigits(s: seq<Byte>) {
    s != [] && forall i | 0 <= i < |s| :: 48 <= s[i] <= 57
  }

  predicate IsInteger(s: seq<Byte>) {
    IsDigits(s) || (s != [] && s[0] == MINUS && IsDigits(s[1..]))
  }

  datatype Pipe = Pipe(source: Coordinate, destination: Coordinate)

  /** The two coordinates in a name of the form `buffer<x>_<y>_<x>_<y>`, if it has this form. */
  function ParsePipe(name: Name): Option<Pipe> {
    if |name| < 6 || name[..6] != BUFFER then None
    else
      var f := Split(name[6..], UNDERSCORE);
      if |f| != 4 || !IsInteger(f[0]) || !IsInteger(f[1]) || !IsInteger(f[2]) || !IsInteger(f[3]) then None
      else Some(Pipe(f[0] + [COMMA] + f[1], f[2] + [COMMA] + f[3]))
  }

  function PipeName(a: seq<Byte>, b: seq<Byte>, c: seq<Byte>, d: seq<Byte>): Name {
    BUFFER + a + [UNDERSCORE] + b + [UNDERSCORE] + c + [UNDERSCORE] + d
  }

  lemma {:induction false} SplitFirst(a: seq<Byte>, separator: Byte, b: seq<Byte>)
    requires separator !in a
    ensures Split(a + [separator] + b, separator) == [a] + Split(b, separator)
    decreases |a|
  {
    var s := a + [separator] + b;
    if a == [] {
      assert s[1..] == b;
    } else {
      SplitFirst(a[1..], separator, b);
      assert s[1..] == a[1..] + [separator] + b;
      assert [a[0]] + a[1..] == a;
    }
  }

  lemma {:induction false} SplitNone(a: seq<Byte>, separator: Byte)
    requires separator !in a
    ensures Split(a, separator) == [a]
    decreases |a|
  {
    if a != [] {
      SplitNone(a[1..], separator);
      assert [a[0]] + a[1..] == a;
    }
  }

  /** A directory in front of a name makes no difference. */
  lemma BasenameDropsDirectories(directory: seq<Byte>, name: seq<Byte>)
    requires SLASH !in name
    ensures Basename(directory + [SLASH] + name) == name && Basename(name) == name
  {
    SplitNone(name, SLASH);
    SplitEnd(directory, SLASH, name);
  }

  lemma {:induction false} SplitEnd(a: seq<Byte>, separator: Byte, b: seq<Byte>)
    ensures var fields, last := Split(a + [separator] + b, separator), Split(b, separator);
      |fields| >= 2 && fields[|fields| - 1] == last[|last| - 1]
    decreases |a|
  {
    var s := a + [separator] + b;
    if a == [] {
      assert s[1..] == b;
    } else {
      assert s[1..] == a[1..] + [separator] + b;
      SplitEnd(a[1..], separator, b);
    }
  }

  lemma NoUnderscore(s: seq<Byte>)
    requires IsInteger(s)
    ensures UNDERSCORE !in s && SLASH !in s
  {
    if IsDigits(s) {
    } else {
      assert s == [s[0]] + s[1..];
    }
  }

  /** The four numbers in a pipe name. */
  lemma PipeFields(a: seq<Byte>, b: seq<Byte>, c: seq<Byte>, d: seq<Byte>)
    requires IsInteger(a) && IsInteger(b) && IsInteger(c) && IsInteger(d)
    ensures Split(PipeName(a, b, c, d)[6..], UNDERSCORE) == [a, b, c, d] && PipeName(a, b, c, d)[..6] == BUFFER
    ensures SLASH !in PipeName(a, b, c, d)
  {
    NoUnderscore(a);
    NoUnderscore(b);
    NoUnderscore(c);
    NoUnderscore(d);
    var name := PipeName(a, b, c, d);
    var cd := c + [UNDERSCORE] + d;
    var bcd := b + [UNDERSCORE] + cd;
    assert name[6..] == a + [UNDERSCORE] + bcd;
    SplitFirst(a, UNDERSCORE, bcd);
    SplitFirst(b, UNDERSCORE, cd);
    SplitFirst(c, UNDERSCORE, d);
    SplitNone(d, UNDERSCORE);
    assert name[..6] == BUFFER;
  }

  /** Names and coordinates correspond. */
  lemma PipeNameRoundTrip(a: seq<Byte>, b: seq<Byte>, c: seq<Byte>, d: seq<Byte>)
    requires IsInteger(a) && IsInteger(b) && IsInteger(c) && IsInteger(d)
    ensures ParsePipe(PipeName(a, b, c, d)) == Some(Pipe(a + [COMMA] + b, c + [COMMA] + d))
  {
    PipeFields(a, b, c, d);
  }

  // ----- Placement

  /** A launched process: service processes have no coordinates. */
  datatype Process = Process(coordinates: Option<Coordinate>, slot: int)

  datatype Placement = Placed(slots: map<Coordinate, int>) | Conflict(coordinate: Coordinate)

  ghost predicate Consistent(processes: seq<Process>) {
    forall i, j | 0 <= i < j < |processes| && processes[i].coordinates.Some? && processes[i].coordinates == processes[j].coordinates ::
      processes[i].slot == processes[j].slot
  }

  /** The coordinate map of the routing file: it exists exactly if no coordinate has two slots, and
      then it says where every process is. */
  method PlaceCoordinates(processes: seq<Process>) returns (r: Placement)
    ensures r.Placed? <==> Consistent(processes)
    ensures r.Placed? ==> forall i | 0 <= i < |processes| && processes[i].coordinates.Some? ::
      processes[i].coordinates.value in r.slots && r.slots[processes[i].coordinates.value] == processes[i].slot
    ensures r.Placed? ==> forall c | c in r.slots :: exists i :: 0 <= i < |processes| && processes[i].coordinates == Some(c)
  {
    var slots: map<Coordinate, int> := map[];
    for n := 0 to |processes|
      invariant Consistent(processes[..n])
      invariant forall i | 0 <= i < n && processes[i].coordinates.Some? ::
        processes[i].coordinates.value in slots && slots[processes[i].coordinates.value] == processes[i].slot
      invariant forall c | c in slots :: exists i :: 0 <= i < n && processes[i].coordinates == Some(c)
    {
      var process := processes[n];
      if process.coordinates.Some? {
        var key := process.coordinates.value;
        if key in slots && slots[key] != process.slot {
          ghost var i :| 0 <= i < n && processes[i].coordinates == Some(key);
          assert !Consistent(processes) by {
            assert processes[i].slot != processes[n].slot;
          }
          return Conflict(key);
        }
        slots := slots[key := process.slot];
      }
      assert processes[..n + 1] == processes[..n] + [process];
    }
    assert processes[..|processes|] == processes;
    r := Placed(slots);
  }

  // ----- Topology

  /** One `net_sockets` channel between two worker slots. */
  datatype Channel = Channel(listener: int, connector: int, port: int)

  predicate Joins(c: Channel, a: int, b: int) {
    c.listener == a && c.connector == b
  }

  ghost predicate Joined(channels: seq<Channel>, a: int, b: int) {
    exists i :: 0 <= i < |channels| && Joins(channels[i], a, b)
  }

  /** What the generator promises: one channel for every unordered pair of workers, each on its own
      port. */
  ghost predicate IsTopology(nodes: nat, basePort: int, channels: seq<Channel>) {
    && (forall i | 0 <= i < |channels| :: 0 <= channels[i].listener < channels[i].connector < nodes)
    && (forall i | 0 <= i < |channels| :: channels[i].port == basePort + i && channels[i].port <= 65535)
    && (forall i, j | 0 <= i < j < |channels| :: !Joins(channels[i], channels[j].listener, channels[j].connector))
    && (forall a, b {:trigger Joined(channels, a, b)} | 0 <= a < b < nodes :: Joined(channels, a, b))
  }

  /** The number of pairs whose smaller worker is below `left`. */
  function Pairs(nodes: nat, left: nat): int
    requires left <= nodes
  {
    if left == 0 then 0 else Pairs(nodes, left - 1) + (nodes - left)
  }

  lemma {:induction false} PairsGrow(nodes: nat, left: nat, more: nat)
    requires left <= more <= nodes
    ensures 0 <= Pairs(nodes, left) <= Pairs(nodes, more)
    decreases more
  {
    if left < more {
      PairsGrow(nodes, left, more - 1);
    } else if left > 0 {
      PairsGrow(nodes, left - 1, left - 1);
    }
  }

  /** The channels whose smaller worker is `left`. */
  method AddRow(nodes: nat, left: nat, basePort: int, before: seq<Channel>) returns (r: Option<seq<Channel>>)
    requires left < nodes
    ensures r.Some? ==> IsRow(before, r.value, nodes, left, basePort)
    ensures r.None? ==> left + 1 < nodes && basePort + |before| + (nodes - left - 1) - 1 > 65535
  {
    var channels := before;
    for right := left + 1 to nodes
      invariant IsRow(before, channels, right, left, basePort)
    {
      var port := basePort + |channels|;
      if port > 65535 {
        return None;
      }
      channels := channels + [Channel(left, right, port)];
    }
    return Some(channels);
  }

  /** `channels` extends `before` by the channels from `left` to the workers between it and `right`. */
  ghost predicate IsRow(before: seq<Channel>, channels: seq<Channel>, right: int, left: nat, basePort: int) {
    && before <= channels && |channels| == |before| + (right - left - 1)
    && forall i | |before| <= i < |channels| ::
      channels[i] == Channel(left, left + 1 + (i - |before|), basePort + i) && basePort + i <= 65535
  }

  /** The channels of a topology; there is none exactly if the ports run out. */
  method WorkerPairChannels(nodes: nat, basePort: int) returns (r: Option<seq<Channel>>)
    ensures r.Some? ==> IsTopology(nodes, basePort, r.value)
    ensures r.Some? <==> Pairs(nodes, nodes) == 0 || basePort + Pairs(nodes, nodes) - 1 <= 65535
  {
    var channels: seq<Channel> := [];
    for left := 0 to nodes
      invariant |channels| == Pairs(nodes, left)
      invariant forall i | 0 <= i < |channels| ::
        0 <= channels[i].listener < left && channels[i].listener < channels[i].connector < nodes
      invariant forall i | 0 <= i < |channels| :: channels[i].port == basePort + i && channels[i].port <= 65535
      invariant forall i, j | 0 <= i < j < |channels| :: !Joins(channels[i], channels[j].listener, channels[j].connector)
      invariant forall a, b {:trigger Joined(channels, a, b)} | 0 <= a < left && a < b < nodes :: Joined(channels, a, b)
    {
      ghost var before := channels;
      PairsGrow(nodes, left + 1, nodes);
      var row := AddRow(nodes, left, basePort, channels);
      if row.None? {
        return None;
      }
      channels := row.value;
      JoinedGrows(nodes, left, before, channels);
    }
    if |channels| > 0 {
      assert channels[|channels| - 1].port <= 65535;
    }
    r := Some(channels);
  }

  lemma JoinedGrows(nodes: nat, left: nat, before: seq<Channel>, channels: seq<Channel>)
    requires left < nodes && before <= channels && |channels| == |before| + (nodes - left - 1)
    requires forall i | |before| <= i < |channels| :: Joins(channels[i], left, left + 1 + (i - |before|))
    requires forall a, b {:trigger Joined(before, a, b)} | 0 <= a < left && a < b < nodes :: Joined(before, a, b)
    ensures forall a, b {:trigger Joined(channels, a, b)} | 0 <= a < left + 1 && a < b < nodes :: Joined(channels, a, b)
  {
    forall a, b {:trigger Joined(channels, a, b)} | 0 <= a < left + 1 && a < b < nodes
      ensures Joined(channels, a, b)
    {
      if a == left {
        assert Joins(channels[|before| + (b - left - 1)], a, b);
      } else {
        assert Joined(before, a, b);
        var i :| 0 <= i < |before| && Joins(before[i], a, b);
        assert Joins(channels[i], a, b);
      }
    }
  }

  // ----- Ports on a worker

  /** A gateway process: the TCP port it serves, and its BaseIf channel. */
  datatype Gateway = Gateway(port: int, channel: Channel, listens: bool)

  /** The gateway that the supervisor of `slot` starts for a channel that ends there. */
  function GatewayFor(slot: int, gatewayBase: int, c: Channel): Gateway {
    if slot == c.listener then Gateway(gatewayBase + c.connector, c, true)
    else Gateway(gatewayBase + c.listener, c, false)
  }

  predicate EndsAt(c: Channel, slot: int) {
    slot == c.listener || slot == c.connector
  }

  ghost predicate Different(channels: seq<Channel>) {
    forall i, j | 0 <= i < j < |channels| :: channels[i] != channels[j]
  }

  /** The supervisor starts all listening gateways of its worker before any connecting one, and in the
      end exactly one gateway for every channel that ends at the worker. */
  method StartGateways(slot: int, channels: seq<Channel>, gatewayBase: int) returns (started: seq<Gateway>)
    requires forall i | 0 <= i < |channels| :: channels[i].listener != channels[i].connector
    ensures forall g | g in started ::
      g.channel in channels && EndsAt(g.channel, slot) && g == GatewayFor(slot, gatewayBase, g.channel)
    ensures forall c | c in channels && EndsAt(c, slot) :: GatewayFor(slot, gatewayBase, c) in started
    ensures forall i, j | 0 <= i < j < |started| :: started[j].listens ==> started[i].listens
    ensures Different(channels) ==> AllApart(started)
  {
    started := [];
    for n := 0 to |channels|
      invariant started == Started(slot, channels, gatewayBase, true, n)
    {
      var c := channels[n];
      if slot == c.listener {
        started := started + [Gateway(gatewayBase + c.connector, c, true)];
      }
    }
    ghost var listeners := started;
    for n := 0 to |channels|
      invariant started == listeners + Started(slot, channels, gatewayBase, false, n)
    {
      var c := channels[n];
      if slot == c.connector {
        started := started + [Gateway(gatewayBase + c.listener, c, false)];
      }
    }
    ListenersFirst(slot, channels, gatewayBase);
  }

  predicate HasEnd(slot: int, c: Channel, listens: bool) {
    slot == if listens then c.listener else c.connector
  }

  /** The gateways that one of the two loops starts for the first `n` channels. */
  function Started(slot: int, channels: seq<Channel>, gatewayBase: int, listens: bool, n: nat): seq<Gateway>
    requires n <= |channels|
  {
    if n == 0 then []
    else
      var c := channels[n - 1];
      Started(slot, channels, gatewayBase, listens, n - 1)
      + if HasEnd(slot, c, listens) then [Gateway(gatewayBase + if listens then c.connector else c.listener, c, listens)] else []
  }

  /** They are gateways for the channels that have this end here, one for each. */
  lemma {:induction false} StartedAre(slot: int, channels: seq<Channel>, gatewayBase: int, listens: bool, n: nat)
    requires n <= |channels| && forall i | 0 <= i < |channels| :: channels[i].listener != channels[i].connector
    ensures forall g | g in Started(slot, channels, gatewayBase, listens, n) ::
      g.channel in channels[..n] && HasEnd(slot, g.channel, listens) && g.listens == listens && g == GatewayFor(slot, gatewayBase, g.channel)
    ensures forall c | c in channels[..n] && HasEnd(slot, c, listens) ::
      GatewayFor(slot, gatewayBase, c) in Started(slot, channels, gatewayBase, listens, n)
    decreases n
  {
    if n > 0 {
      assert channels[..n] == channels[..n - 1] + [channels[n - 1]];
      StartedAre(slot, channels, gatewayBase, listens, n - 1);
    }
  }

  lemma {:induction false} StartedOnce(slot: int, channels: seq<Channel>, gatewayBase: int, listens: bool, n: nat)
    requires n <= |channels| && forall i | 0 <= i < |channels| :: channels[i].listener != channels[i].connector
    requires Different(channels)
    ensures AllApart(Started(slot, channels, gatewayBase, listens, n))
    decreases n
  {
    if n > 0 {
      StartedOnce(slot, channels, gatewayBase, listens, n - 1);
      StartedAre(slot, channels, gatewayBase, listens, n - 1);
      assert channels[n - 1] !in channels[..n - 1];
      Append(Started(slot, channels, gatewayBase, listens, n - 1), channels[n - 1]);
    }
  }

  ghost predicate AllApart(started: seq<Gateway>) {
    forall i, j | 0 <= i < j < |started| :: started[i].channel != started[j].channel
  }

  lemma Append(started: seq<Gateway>, c: Channel)
    requires AllApart(started) && forall g | g in started :: g.channel != c
    ensures forall g: Gateway | g.channel == c :: AllApart(started + [g])
  {
  }

  lemma ListenersFirst(slot: int, channels: seq<Channel>, gatewayBase: int)
    requires forall i | 0 <= i < |channels| :: channels[i].listener != channels[i].connector
    ensures var started := Started(slot, channels, gatewayBase, true, |channels|) + Started(slot, channels, gatewayBase, false, |channels|);
      && (forall g | g in started :: g.channel in channels && EndsAt(g.channel, slot) && g == GatewayFor(slot, gatewayBase, g.channel))
      && (forall c | c in channels && EndsAt(c, slot) :: GatewayFor(slot, gatewayBase, c) in started)
      && (forall i, j | 0 <= i < j < |started| :: started[j].listens ==> started[i].listens)
      && (Different(channels) ==> AllApart(started))
  {
    assert channels[..|channels|] == channels;
    StartedAre(slot, channels, gatewayBase, true, |channels|);
    StartedAre(slot, channels, gatewayBase, false, |channels|);
    if Different(channels) {
      StartedOnce(slot, channels, gatewayBase, true, |channels|);
      StartedOnce(slot, channels, gatewayBase, false, |channels|);
    }
  }

  /** Gateway `g` of `slot` answers when the local router connects to the port for `peer`. */
  predicate Answers(channels: seq<Channel>, gatewayBase: int, slot: int, peer: int, g: Gateway) {
    g.port == gatewayBase + peer && g.channel in channels && EndsAt(g.channel, slot) && g == GatewayFor(slot, gatewayBase, g.channel)
  }

  ghost predicate OnlyAnswer(channels: seq<Channel>, gatewayBase: int, slot: int, peer: int, g: Gateway) {
    forall h :: Answers(channels, gatewayBase, slot, peer, h) <==> h == g
  }

  // ----- The router

  datatype Operation = WriteTo | ReadFrom

  /** The worker at the other end of a pipe, as seen from an operation on it. */
  function PeerFor(slots: map<Coordinate, int>, operation: Operation, name: Name): Option<int> {
    match ParsePipe(name)
    case None => None
    case Some(pipe) =>
      var coordinate := if operation == WriteTo then pipe.destination else pipe.source;
      if coordinate in slots then Some(slots[coordinate]) else None
  }

  /** Writer and reader of a pipe always meet.  If both live on one worker, both operations stay in
      that worker's router; otherwise the port to which the writer's router connects and the port to
      which the reader's router connects belong to the two ends of one and the same channel, and no
      other gateway answers there. */
  lemma WriterAndReaderMeet(
      nodes: nat, basePort: int, channels: seq<Channel>, gatewayBase: int,
      slots: map<Coordinate, int>, name: Name, pipe: Pipe)
    requires IsTopology(nodes, basePort, channels)
    requires ParsePipe(name) == Some(pipe) && pipe.source in slots && pipe.destination in slots
    requires 0 <= slots[pipe.source] < nodes && 0 <= slots[pipe.destination] < nodes
    ensures var w, r := slots[pipe.source], slots[pipe.destination];
      && PeerFor(slots, WriteTo, name) == Some(r) && PeerFor(slots, ReadFrom, name) == Some(w)
      && (w == r || exists i | 0 <= i < |channels| ::
           && (Joins(channels[i], w, r) || Joins(channels[i], r, w))
           && OnlyAnswer(channels, gatewayBase, w, r, GatewayFor(w, gatewayBase, channels[i]))
           && OnlyAnswer(channels, gatewayBase, r, w, GatewayFor(r, gatewayBase, channels[i]))
           && GatewayFor(w, gatewayBase, channels[i]).listens != GatewayFor(r, gatewayBase, channels[i]).listens)
  {
    var w, r := slots[pipe.source], slots[pipe.destination];
    if w != r {
      var a, b := if w < r then w else r, if w < r then r else w;
      assert Joined(channels, a, b);
      var i :| 0 <= i < |channels| && Joins(channels[i], a, b);
      OnlyGateway(nodes, basePort, channels, gatewayBase, w, r, i);
      OnlyGateway(nodes, basePort, channels, gatewayBase, r, w, i);
    }
  }

  lemma OnlyGateway(nodes: nat, basePort: int, channels: seq<Channel>, gatewayBase: int, slot: int, peer: int, i: nat)
    requires IsTopology(nodes, basePort, channels) && i < |channels| && slot != peer
    requires Joins(channels[i], slot, peer) || Joins(channels[i], peer, slot)
    ensures OnlyAnswer(channels, gatewayBase, slot, peer, GatewayFor(slot, gatewayBase, channels[i]))
  {
    forall h | Answers(channels, gatewayBase, slot, peer, h)
      ensures h == GatewayFor(slot, gatewayBase, channels[i])
    {
      var j :| 0 <= j < |channels| && channels[j] == h.channel;
      assert Joins(channels[j], slot, peer) || Joins(channels[j], peer, slot);
    }
  }

  /** The routing file is not checked against the topology: a worker slot outside of it has no gateway,
      and every other pair of distinct workers has one at either end. */
  lemma GatewayExists(nodes: nat, basePort: int, channels: seq<Channel>, gatewayBase: int, slot: int, peer: int)
    requires IsTopology(nodes, basePort, channels) && slot != peer
    ensures (exists g :: Answers(channels, gatewayBase, slot, peer, g)) <==> 0 <= slot < nodes && 0 <= peer < nodes
  {
    if 0 <= slot < nodes && 0 <= peer < nodes {
      var a, b := if slot < peer then slot else peer, if slot < peer then peer else slot;
      assert Joined(channels, a, b);
      var i :| 0 <= i < |channels| && Joins(channels[i], a, b);
      assert Answers(channels, gatewayBase, slot, peer, GatewayFor(slot, gatewayBase, channels[i]));
    }
  }
}
