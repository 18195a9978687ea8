/** The ns-3 adapter's own state machine: fragments of a transaction, completion times, and the
    acknowledgement of special transactions.  ns-3 is the environment that emits events. */
module Phase2 {
  import opened Options

  datatype Bench = Bench(sourceCycle: nat, destinationCycle: nat, source: nat, destination: nat, flits: nat, descriptor: int)

  datatype Config = Config(cycleNs: nat, flitBytes: nat, maxDatagram: nat)
  {
    predicate Positive() { cycleNs > 0 && flitBytes > 0 && maxDatagram > 0 }
  }

  // ----- Descriptors, fragments

  /** Any bit of the mask 0xF0000 is set. */
  predicate IsSpecial(descriptor: int) { descriptor / 0x10000 % 16 != 0 }

  /** Barrier (0x20000), lock (0x40000) and unlock (0x80000) traffic goes to node 0. */
  function RoutingDestination(b: Bench): nat {
    if b.descriptor / 0x20000 % 8 != 0 then 0 else b.destination
  }

  function CeilDivide(n: nat, d: nat): nat
    requires d > 0
  {
    (n + d - 1) / d
  }

  function FragmentCount(c: Config, bytes: nat): nat
    requires c.Positive()
  {
    if CeilDivide(bytes, c.maxDatagram) > 1 then CeilDivide(bytes, c.maxDatagram) else 1
  }

  function FragmentBytes(c: Config, bytes: nat, fragment: nat): int {
    var rest := bytes - fragment * c.maxDatagram;
    if c.maxDatagram < rest then c.maxDatagram else rest
  }

  function TotalBytes(c: Config, bytes: nat, fragments: nat): int {
    if fragments == 0 then 0 else TotalBytes(c, bytes, fragments - 1) + FragmentBytes(c, bytes, fragments - 1)
  }

  /** Fragments are not empty, fit a datagram, and carry all bytes of the transaction. */
  lemma FragmentsCarryAllBytes(c: Config, bytes: nat)
    requires c.Positive() && bytes > 0
    ensures TotalBytes(c, bytes, FragmentCount(c, bytes)) == bytes
    ensures forall f | 0 <= f < FragmentCount(c, bytes) :: 0 < FragmentBytes(c, bytes, f) <= c.maxDatagram
  {
    var n, m := FragmentCount(c, bytes), c.maxDatagram;
    FragmentBounds(bytes, m, CeilDivide(bytes, m));
    forall f | 0 <= f < n ensures 0 < FragmentBytes(c, bytes, f) <= m {
      Earlier(f, n - 1, m);
    }
    FullFragments(c, bytes, n - 1);
  }

  lemma FragmentBounds(bytes: nat, m: nat, q: nat)
    requires m > 0 && bytes > 0 && q == CeilDivide(bytes, m)
    ensures q > 0 && (q - 1) * m < bytes <= q * m
  {
    assert bytes + m - 1 == q * m + (bytes + m - 1) % m;
    assert (q - 1) * m == q * m - m;
    assert q == 0 ==> q * m == 0;
  }

  lemma Earlier(f: nat, last: nat, m: nat)
    requires f <= last
    ensures f * m <= last * m && (f < last ==> f * m + m <= last * m)
  {
    assert last * m == f * m + (last - f) * m;
    if f < last {
      assert (last - f) * m == m + (last - f - 1) * m;
    }
  }

  lemma {:induction false} FullFragments(c: Config, bytes: nat, fragments: nat)
    requires fragments * c.maxDatagram <= bytes
    ensures TotalBytes(c, bytes, fragments) == fragments * c.maxDatagram
    decreases fragments
  {
    if fragments > 0 {
      assert fragments * c.maxDatagram == (fragments - 1) * c.maxDatagram + c.maxDatagram;
      FullFragments(c, bytes, fragments - 1);
    }
  }

  // ----- State

  datatype Direction = Direction(
    source: nat, destination: nat, fragments: nat,
    transmitted: set<nat>, received: set<nat>, transmitFinish: int, arrival: int)

  datatype Trace = Trace(bench: Bench, special: bool, forward: Direction, acknowledgement: Direction, scheduled: bool)
  {
    function Dir(ack: bool): Direction { if ack then acknowledgement else forward }

    function With(ack: bool, d: Direction): Trace {
      if ack then this.(acknowledgement := d) else this.(forward := d)
    }
  }

  const Unused := Direction(0, 0, 0, {}, {}, -1, -1)

  function NewTrace(c: Config, b: Bench): Trace
    requires c.Positive()
  {
    var target := RoutingDestination(b);
    var forward := Direction(b.source, target, FragmentCount(c, b.flits * c.flitBytes), {}, {}, -1, -1);
    if IsSpecial(b.descriptor)
    then Trace(b, true, forward, Direction(target, b.source, FragmentCount(c, c.flitBytes), {}, {}, -1, -1), false)
    else Trace(b, false, forward, Unused, false)
  }

  predicate HasBit(descriptor: int, bit: int)
    requires bit > 0
  {
    descriptor / bit % 2 == 1
  }

  /** A direction has as many fragments as it takes: none is empty or exceeds a datagram, and together they
      have all the bytes. */
  ghost predicate CarriesBytes(c: Config, d: Direction, bytes: nat) {
    && TotalBytes(c, bytes, d.fragments) == bytes
    && forall f | 0 <= f < d.fragments :: 0 < FragmentBytes(c, bytes, f) <= c.maxDatagram
  }

  /** What a trace is to carry for its record: all flits, from the source to the destination, or to node 0 for
      barriers (0x20000), locks (0x40000) and unlocks (0x80000); and for these and for 0x10000 also an
      acknowledgement of one flit, the other way round. */
  ghost predicate CarriesRecord(c: Config, b: Bench, t: Trace) {
    var coordinated := HasBit(b.descriptor, 0x20000) || HasBit(b.descriptor, 0x40000) || HasBit(b.descriptor, 0x80000);
    && t.bench == b && t.forward.source == b.source
    && t.forward.destination == (if coordinated then 0 else b.destination)
    && (b.flits > 0 ==> CarriesBytes(c, t.forward, b.flits * c.flitBytes))
    && (t.special <==> HasBit(b.descriptor, 0x10000) || coordinated)
    && (t.special ==>
         && t.acknowledgement.source == t.forward.destination && t.acknowledgement.destination == t.forward.source
         && CarriesBytes(c, t.acknowledgement, c.flitBytes))
  }

  lemma NewTraceCarriesRecord(c: Config, b: Bench)
    requires c.Positive()
    ensures CarriesRecord(c, b, NewTrace(c, b))
  {
    Bits(b.descriptor);
    FragmentsCarryAllBytes(c, c.flitBytes);
    if b.flits > 0 {
      assert b.flits * c.flitBytes > 0;
      FragmentsCarryAllBytes(c, b.flits * c.flitBytes);
    }
  }

  lemma Bits(descriptor: int)
    ensures descriptor / 0x20000 % 8 != 0 <==>
      HasBit(descriptor, 0x20000) || HasBit(descriptor, 0x40000) || HasBit(descriptor, 0x80000)
    ensures descriptor / 0x10000 % 16 != 0 <==> HasBit(descriptor, 0x10000) || descriptor / 0x20000 % 8 != 0
  {
    Halves(descriptor, 0x10000);
    Halves(descriptor, 0x20000);
    Halves(descriptor, 0x40000);
    SplitEight(descriptor / 0x10000);
    SplitFour(descriptor / 0x20000);
    SplitTwo(descriptor / 0x40000);
  }

  lemma Halves(n: int, d: int)
    requires d == 0x10000 || d == 0x20000 || d == 0x40000
    ensures n / (2 * d) == n / d / 2
  {
  }

  lemma SplitEight(n: int)
    ensures n % 16 != 0 <==> n % 2 == 1 || n / 2 % 8 != 0
  {
    Sixteen(n, n / 2, n % 2, n / 2 / 8, n / 2 % 8);
  }

  lemma Sixteen(n: int, half: int, bit: int, times: int, above: int)
    requires n == 2 * half + bit && half == 8 * times + above && 0 <= above < 8 && 0 <= bit < 2
    ensures n % 16 == 2 * above + bit
  {
    assert n == 16 * times + (2 * above + bit);
  }

  lemma SplitFour(n: int)
    ensures n % 8 != 0 <==> n % 2 == 1 || n / 2 % 4 != 0
  {
    Eight(n, n / 2, n % 2, n / 2 / 4, n / 2 % 4);
  }

  lemma Eight(n: int, half: int, bit: int, times: int, above: int)
    requires n == 2 * half + bit && half == 4 * times + above && 0 <= above < 4 && 0 <= bit < 2
    ensures n % 8 == 2 * above + bit
  {
    assert n == 8 * times + (2 * above + bit);
  }

  lemma SplitTwo(n: int)
    ensures n % 4 != 0 <==> n % 2 == 1 || n / 2 % 2 != 0
  {
    Four(n, n / 2, n % 2, n / 2 / 2, n / 2 % 2);
  }

  lemma Four(n: int, half: int, bit: int, times: int, above: int)
    requires n == 2 * half + bit && half == 2 * times + above && 0 <= above < 2 && 0 <= bit < 2
    ensures n % 4 == 2 * above + bit
  {
    assert n == 4 * times + (2 * above + bit);
  }

  /** An acknowledgement in the simulator's agenda. */
  datatype Ack = Ack(time: int, id: nat)

  function Max(a: int, b: int): int { if a < b then b else a }

  /** When an acknowledgement may leave: after the request has arrived, and not before the
      destination's own cycle. */
  function AckTime(c: Config, t: Trace): (time: int)
    ensures time >= t.forward.arrival && time >= t.bench.destinationCycle * c.cycleNs
    ensures time == t.forward.arrival || time == t.bench.destinationCycle * c.cycleNs
  {
    Max(t.forward.arrival, t.bench.destinationCycle * c.cycleNs)
  }

  // ----- The handlers, on one trace; the second result is the agenda entry, if any

  function ScheduleAcknowledgement(c: Config, id: nat, t: Trace, now: int): (Trace, Option<Ack>) {
    if t.scheduled then (t, None)
    else (t.(scheduled := true), Some(Ack(now + Max(0, AckTime(c, t) - now), id)))
  }

  function SendDirection(c: Config, id: nat, t: Trace, ack: bool, now: int): (Trace, Option<Ack>) {
    var d := t.Dir(ack);
    if d.source != d.destination then (t, None)
    else
      var t' := t.With(ack, d.(transmitFinish := now + c.cycleNs, arrival := now + c.cycleNs));
      if !ack && t.special then ScheduleAcknowledgement(c, id, t', now) else (t', None)
  }

  function Transmitted(d: Direction, node: nat, fragment: nat, now: int): Direction {
    if node != d.source || d.transmitFinish >= 0 then d
    else
      var d' := d.(transmitted := d.transmitted + {fragment});
      if |d'.transmitted| == d.fragments then d'.(transmitFinish := now) else d'
  }

  function OnTransmitEnd(t: Trace, ack: bool, node: nat, fragment: nat, now: int): Trace {
    t.With(ack, Transmitted(t.Dir(ack), node, fragment, now))
  }

  function OnReceive(c: Config, id: nat, t: Trace, ack: bool, node: nat, fragment: nat, now: int): (Trace, Option<Ack>) {
    var d := t.Dir(ack);
    if node != d.destination || d.arrival >= 0 then (t, None)
    else
      var d' := d.(received := d.received + {fragment});
      if |d'.received| != d.fragments then (t.With(ack, d'), None)
      else
        var t' := t.With(ack, d'.(arrival := now));
        if !ack && t.special then ScheduleAcknowledgement(c, id, t', now) else (t', None)
  }

  /** A completion time that is set stays. */
  predicate TimesStay(d: Direction, d': Direction) {
    (d.transmitFinish >= 0 ==> d'.transmitFinish == d.transmitFinish) && (d.arrival >= 0 ==> d'.arrival == d.arrival)
  }

  // ----- The adapter

  function Traces(c: Config, bench: seq<Bench>): (s: seq<Trace>)
    requires c.Positive()
    ensures |s| == |bench|
  {
    seq(|bench|, i requires 0 <= i < |bench| => NewTrace(c, bench[i]))
  }

  function WithAck(agenda: seq<Ack>, a: Option<Ack>): seq<Ack> {
    if a.Some? then agenda + [a.value] else agenda
  }

  class PhaseTwoSimulator {
    const config: Config
    var states: seq<Trace>
    var agenda: seq<Ack>

    constructor (config: Config, bench: seq<Bench>)
      requires config.Positive()
      ensures this.config == config && states == Traces(config, bench) && agenda == []
      ensures |states| == |bench| && forall i | 0 <= i < |bench| :: CarriesRecord(config, bench[i], states[i])
    {
      this.config := config;
      var created: seq<Trace> := [];
      for i := 0 to |bench|
        invariant created == Traces(config, bench)[..i]
      {
        created := created + [NewTrace(config, bench[i])];
      }
      states := created;
      agenda := [];
      forall i | 0 <= i < |bench| ensures CarriesRecord(config, bench[i], Traces(config, bench)[i]) {
        NewTraceCarriesRecord(config, bench[i]);
      }
    }

    method Schedule(id: nat, now: int)
      requires id < |states|
      modifies this
      ensures var (t, a) := ScheduleAcknowledgement(config, id, old(states)[id], now);
              states == old(states)[id := t] && agenda == WithAck(old(agenda), a)
      ensures states[id].scheduled && old(agenda) <= agenda
      ensures |agenda| == |old(agenda)| + (if old(states)[id].scheduled then 0 else 1)
      ensures forall k | |old(agenda)| <= k < |agenda| :: agenda[k].id == id && agenda[k].time == Max(now, AckTime(config, old(states)[id]))
    {
      var t := states[id];
      if t.scheduled {
        return;
      }
      states := states[id := t.(scheduled := true)];
      var target := Max(t.forward.arrival, t.bench.destinationCycle * config.cycleNs);
      agenda := agenda + [Ack(now + Max(0, target - now), id)];
    }

    method Send(id: nat, ack: bool, now: int)
      requires id < |states|
      modifies this
      ensures var (t, a) := SendDirection(config, id, old(states)[id], ack, now);
              states == old(states)[id := t] && agenda == WithAck(old(agenda), a)
      ensures old(states)[id].Dir(ack).source != old(states)[id].Dir(ack).destination ==>
        states == old(states) && agenda == old(agenda)
      ensures old(states)[id].Dir(ack).source == old(states)[id].Dir(ack).destination ==>
        states[id].Dir(ack).transmitFinish == states[id].Dir(ack).arrival == now + config.cycleNs
      ensures states[id].Dir(!ack) == old(states)[id].Dir(!ack)
      ensures agenda == old(agenda) || (!ack && states[id].special && !old(states)[id].scheduled && states[id].scheduled
        && agenda == old(agenda) + [Ack(Max(now, AckTime(config, states[id])), id)])
    {
      var t := states[id];
      var d := t.Dir(ack);
      if d.source == d.destination {
        var completion := now + config.cycleNs;
        states := states[id := t.With(ack, d.(transmitFinish := completion, arrival := completion))];
        if !ack && t.special {
          Schedule(id, now);
        }
      }
    }

    method TransmitEnd(id: nat, ack: bool, node: nat, fragment: nat, now: int)
      requires id < |states|
      modifies this`states
      ensures states == old(states)[id := OnTransmitEnd(old(states)[id], ack, node, fragment, now)]
      ensures TimesStay(old(states)[id].Dir(ack), states[id].Dir(ack)) && states[id].Dir(!ack) == old(states)[id].Dir(!ack)
      ensures node != old(states)[id].Dir(ack).source ==> states == old(states)
    {
      var t := states[id];
      var d := t.Dir(ack);
      if node != d.source || d.transmitFinish >= 0 {
        return;
      }
      d := d.(transmitted := d.transmitted + {fragment});
      if |d.transmitted| == d.fragments {
        d := d.(transmitFinish := now);
      }
      states := states[id := t.With(ack, d)];
    }

    method Receive(id: nat, ack: bool, node: nat, fragment: nat, now: int)
      requires id < |states|
      modifies this
      ensures var (t, a) := OnReceive(config, id, old(states)[id], ack, node, fragment, now);
              states == old(states)[id := t] && agenda == WithAck(old(agenda), a)
      ensures TimesStay(old(states)[id].Dir(ack), states[id].Dir(ack)) && states[id].Dir(!ack) == old(states)[id].Dir(!ack)
      ensures node != old(states)[id].Dir(ack).destination ==> states == old(states) && agenda == old(agenda)
      ensures agenda != old(agenda) ==> !ack && states[id].special && old(states)[id].forward.arrival < 0 && states[id].forward.arrival == now
    {
      var t := states[id];
      var d := t.Dir(ack);
      if node != d.destination || d.arrival >= 0 {
        return;
      }
      d := d.(received := d.received + {fragment});
      if |d.received| != d.fragments {
        states := states[id := t.With(ack, d)];
        return;
      }
      states := states[id := t.With(ack, d.(arrival := now))];
      if !ack && t.special {
        Schedule(id, now);
      }
    }
  }
}
