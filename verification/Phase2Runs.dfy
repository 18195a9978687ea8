/** Every run of the adapter: the network may duplicate and reorder, as long as a fragment is received
    only after it has left its source and time does not go backwards. */
module Phase2Runs {
  import opened Options
  import opened Phase2

  datatype Event =
    | Send(id: nat, ack: bool, time: int)
    | TxEnd(id: nat, ack: bool, node: nat, fragment: nat, time: int)
    | Rx(id: nat, ack: bool, node: nat, fragment: nat, time: int)

  type Key = (nat, bool)

  /** The adapter, and what the environment knows: the time, which directions have been sent, and which
      fragments have left their source. */
  datatype World = World(states: seq<Trace>, agenda: seq<Ack>, now: int, sent: set<Key>, wire: map<Key, set<nat>>)

  function Left(w: World, id: nat, ack: bool): set<nat> {
    if (id, ack) in w.wire then w.wire[(id, ack)] else {}
  }

  function Begin(c: Config, bench: seq<Bench>): World
    requires c.Positive()
  {
    World(Traces(c, bench), [], 0, {}, map[])
  }

  /** What the environment may do.  Intermediate nodes report transmissions too. */
  predicate CanHappen(c: Config, w: World, e: Event) {
    && e.id < |w.states| && e.time >= w.now
    && var d := w.states[e.id].Dir(e.ack);
       match e
       case Send(id, ack, time) =>
         (id, ack) !in w.sent && (if ack then Ack(time, id) in w.agenda else time == w.states[id].bench.sourceCycle * c.cycleNs)
       case TxEnd(id, ack, _, fragment, _) => (id, ack) in w.sent && d.source != d.destination && fragment < d.fragments
       case Rx(id, ack, _, fragment, _) => (id, ack) in w.sent && d.source != d.destination && fragment in Left(w, id, ack)
  }

  function Handled(c: Config, w: World, e: Event): (Trace, Option<Ack>)
    requires e.id < |w.states|
  {
    match e
    case Send(id, ack, time) => SendDirection(c, id, w.states[id], ack, time)
    case TxEnd(id, ack, node, fragment, time) => (OnTransmitEnd(w.states[id], ack, node, fragment, time), None)
    case Rx(id, ack, node, fragment, time) => OnReceive(c, id, w.states[id], ack, node, fragment, time)
  }

  function Happen(c: Config, w: World, e: Event): World
    requires CanHappen(c, w, e)
  {
    var (t, a) := Handled(c, w, e);
    var leaves := e.TxEnd? && e.node == w.states[e.id].Dir(e.ack).source;
    World(w.states[e.id := t], WithAck(w.agenda, a), e.time,
          if e.Send? then w.sent + {(e.id, e.ack)} else w.sent,
          if leaves then w.wire[(e.id, e.ack) := Left(w, e.id, e.ack) + {e.fragment}] else w.wire)
  }

  ghost predicate Run(c: Config, w: World, events: seq<Event>, end: World)
    decreases |events|
  {
    if events == [] then w == end
    else CanHappen(c, w, events[0]) && Run(c, Happen(c, w, events[0]), events[1..], end)
  }

  // ----- The invariant

  function Range(n: nat): (s: set<nat>)
    ensures forall f: nat :: f in s <==> f < n
  {
    if n == 0 then {} else Range(n - 1) + {n - 1}
  }

  /** The time from which the delays of a direction are counted. */
  function Base(c: Config, t: Trace, ack: bool): int {
    if ack then AckTime(c, t) else t.bench.sourceCycle * c.cycleNs
  }

  predicate SamePath(d: Direction, e: Direction) {
    d.source == e.source && d.destination == e.destination && d.fragments == e.fragments
  }

  /** The parts of a trace that never change. */
  predicate SameShape(t: Trace, u: Trace) {
    && t.bench == u.bench && t.special == u.special
    && SamePath(t.forward, u.forward) && SamePath(t.acknowledgement, u.acknowledgement)
  }

  /** A direction whose fragments travel: the two completion times are set exactly when all fragments
      have left the source, respectively arrived, in this order. */
  predicate TravelOk(d: Direction, left: set<nat>, base: int, now: int) {
    && d.received <= left <= Range(d.fragments)
    && d.transmitFinish >= -1 && d.arrival >= -1
    && (d.transmitFinish < 0 ==> d.transmitted == left && |left| != d.fragments)
    && (d.transmitFinish >= 0 ==> left == Range(d.fragments) && base <= d.transmitFinish <= now)
    && (d.arrival < 0 ==> |d.received| != d.fragments)
    && (d.arrival >= 0 ==> d.received == Range(d.fragments) && 0 <= d.transmitFinish <= d.arrival <= now)
  }

  predicate DirectionOk(c: Config, d: Direction, isSent: bool, left: set<nat>, base: int, now: int) {
    && d.fragments > 0
    && if !isSent then d.transmitted == {} && d.received == {} && d.transmitFinish == -1 && d.arrival == -1 && left == {}
       else if d.source == d.destination then 0 <= base && d.transmitFinish == d.arrival == base + c.cycleNs
       else 0 <= base <= now && TravelOk(d, left, base, now)
  }

  predicate TraceOk(c: Config, w: World, id: nat, t: Trace) {
    && DirectionOk(c, t.forward, (id, false) in w.sent, Left(w, id, false), Base(c, t, false), w.now)
    && (t.special ==> DirectionOk(c, t.acknowledgement, (id, true) in w.sent, Left(w, id, true), Base(c, t, true), w.now))
    && (t.scheduled <==> t.special && t.forward.arrival >= 0)
    && ((id, true) in w.sent ==> t.scheduled)
  }

  /** The agenda has exactly one entry for every scheduled acknowledgement, with the right time. */
  predicate AgendaOk(c: Config, w: World) {
    && (forall k | 0 <= k < |w.agenda| :: AgendaEntryOk(c, w, w.agenda[k]))
    && (forall k, l | 0 <= k < l < |w.agenda| :: w.agenda[k].id != w.agenda[l].id)
    && (forall id | 0 <= id < |w.states| && w.states[id].scheduled :: Ack(AckTime(c, w.states[id]), id) in w.agenda)
  }

  predicate AgendaEntryOk(c: Config, w: World, a: Ack) {
    a.id < |w.states| && w.states[a.id].scheduled && a.time == AckTime(c, w.states[a.id])
  }

  ghost predicate Inv(c: Config, bench: seq<Bench>, w: World) {
    && c.Positive() && |w.states| == |bench| && w.now >= 0
    && (forall id | 0 <= id < |bench| :: SameShape(w.states[id], NewTrace(c, bench[id])))
    && (forall id | 0 <= id < |bench| :: TraceOk(c, w, id, w.states[id]))
    && AgendaOk(c, w)
  }

  lemma {:induction false} RangeSize(n: nat)
    ensures |Range(n)| == n
  {
    if n > 0 {
      RangeSize(n - 1);
    }
  }

  lemma FullSubset(s: set<nat>, n: nat)
    requires s <= Range(n)
    ensures |s| == n <==> s == Range(n)
  {
    RangeSize(n);
    var rest := Range(n) - s;
    assert s + rest == Range(n) && s !! rest;
    assert |s + rest| == |s| + |rest|;
    assert rest == {} ==> s == Range(n);
  }

  lemma BeginInv(c: Config, bench: seq<Bench>)
    requires c.Positive()
    ensures Inv(c, bench, Begin(c, bench))
  {
  }

  // ----- One event

  /** A transmission end, at the source or on the way. */
  lemma TransmitKeeps(d: Direction, left: set<nat>, base: int, now: int, node: nat, fragment: nat, time: int)
    requires TravelOk(d, left, base, now) && fragment < d.fragments && 0 <= now <= time && base <= now
    ensures var left' := if node == d.source then left + {fragment} else left;
            TravelOk(Transmitted(d, node, fragment, time), left', base, time)
  {
    if node == d.source {
      FullSubset(left + {fragment}, d.fragments);
      FullSubset(left, d.fragments);
    }
  }

  lemma ReceiveKeeps(d: Direction, left: set<nat>, base: int, now: int, node: nat, fragment: nat, time: int)
    requires TravelOk(d, left, base, now) && fragment in left && 0 <= now <= time
    ensures var d' := if node != d.destination || d.arrival >= 0 then d
                      else var e := d.(received := d.received + {fragment});
                           if |e.received| != d.fragments then e else e.(arrival := time);
            TravelOk(d', left, base, time)
  {
    FullSubset(left, d.fragments);
    FullSubset(d.received + {fragment}, d.fragments);
  }

  /** What an event does to its own trace. */
  ghost predicate TraceStep(c: Config, w: World, e: Event)
    requires CanHappen(c, w, e)
  {
    var t, t', a := w.states[e.id], Happen(c, w, e).states[e.id], Handled(c, w, e).1;
    && (t.forward.arrival >= 0 ==> t'.forward.arrival == t.forward.arrival)
    && (t.scheduled ==> t'.scheduled)
    && a == (if t'.scheduled && !t.scheduled then Some(Ack(AckTime(c, t'), e.id)) else None)
  }

  lemma EventOnTrace(c: Config, bench: seq<Bench>, w: World, e: Event)
    requires Inv(c, bench, w) && CanHappen(c, w, e)
    ensures TraceOk(c, Happen(c, w, e), e.id, Happen(c, w, e).states[e.id])
  {
    var t := w.states[e.id];
    assert TraceOk(c, w, e.id, t) && SameShape(t, NewTrace(c, bench[e.id]));
    if e.ack {
      AckEntryScheduled(c, bench, w, e);
    }
    if e.Send? {
      SendOnTrace(c, w, e);
    } else if e.TxEnd? {
      TransmitOnTrace(c, w, e);
    } else {
      ReceiveOnTrace(c, w, e);
    }
  }

  lemma ScheduleStep(c: Config, w: World, e: Event)
    requires CanHappen(c, w, e) && c.Positive() && TraceOk(c, w, e.id, w.states[e.id]) && (e.ack ==> w.states[e.id].scheduled)
    ensures TraceStep(c, w, e)
  {
    if e.Send? {
      SendSchedules(c, w, e);
    } else if e.Rx? {
      ReceiveSchedules(c, w, e);
    }
  }

  lemma SendSchedules(c: Config, w: World, e: Event)
    requires e.Send? && CanHappen(c, w, e) && c.Positive() && TraceOk(c, w, e.id, w.states[e.id]) && (e.ack ==> w.states[e.id].scheduled)
    ensures TraceStep(c, w, e)
  {
  }

  lemma ReceiveSchedules(c: Config, w: World, e: Event)
    requires e.Rx? && CanHappen(c, w, e) && c.Positive() && TraceOk(c, w, e.id, w.states[e.id]) && (e.ack ==> w.states[e.id].scheduled)
    ensures TraceStep(c, w, e)
  {
  }

  lemma ShapeKept(c: Config, w: World, e: Event)
    requires CanHappen(c, w, e)
    ensures SameShape(Happen(c, w, e).states[e.id], w.states[e.id])
  {
  }

  lemma EventStep(c: Config, bench: seq<Bench>, w: World, e: Event)
    requires Inv(c, bench, w) && CanHappen(c, w, e)
    ensures TraceStep(c, w, e)
  {
    assert TraceOk(c, w, e.id, w.states[e.id]) && SameShape(w.states[e.id], NewTrace(c, bench[e.id]));
    if e.ack {
      AckEntryScheduled(c, bench, w, e);
    }
    ScheduleStep(c, w, e);
  }

  lemma SendOnTrace(c: Config, w: World, e: Event)
    requires e.Send? && CanHappen(c, w, e) && c.Positive() && w.now >= 0 && TraceOk(c, w, e.id, w.states[e.id])
    requires e.ack ==> w.states[e.id].scheduled && w.states[e.id].special && e.time == AckTime(c, w.states[e.id])
    ensures TraceOk(c, Happen(c, w, e), e.id, Happen(c, w, e).states[e.id])
  {
    var t, t' := w.states[e.id], Happen(c, w, e).states[e.id];
  }

  lemma TransmitOnTrace(c: Config, w: World, e: Event)
    requires e.TxEnd? && CanHappen(c, w, e) && c.Positive() && w.now >= 0 && TraceOk(c, w, e.id, w.states[e.id])
    requires e.ack ==> w.states[e.id].special
    ensures TraceOk(c, Happen(c, w, e), e.id, Happen(c, w, e).states[e.id])
  {
    var t := w.states[e.id];
    var w' := TransmitEffect(c, w, e);
    TransmittedDirection(c, w, e);
    TransmittedTrace(c, w, w', e.id, e.ack, t, Transmitted(t.Dir(e.ack), e.node, e.fragment, e.time));
  }

  lemma TransmitEffect(c: Config, w: World, e: Event) returns (w': World)
    requires e.TxEnd? && CanHappen(c, w, e)
    ensures w' == Happen(c, w, e) && w'.now == e.time && w'.sent == w.sent
    ensures w'.states[e.id] == w.states[e.id].With(e.ack, Transmitted(w.states[e.id].Dir(e.ack), e.node, e.fragment, e.time))
  {
    w' := Happen(c, w, e);
  }

  lemma TransmittedDirection(c: Config, w: World, e: Event)
    requires e.TxEnd? && CanHappen(c, w, e) && c.Positive() && w.now >= 0 && TraceOk(c, w, e.id, w.states[e.id])
    requires e.ack ==> w.states[e.id].special
    ensures var t, w' := w.states[e.id], Happen(c, w, e);
      && Left(w', e.id, !e.ack) == Left(w, e.id, !e.ack)
      && DirectionOk(c, Transmitted(t.Dir(e.ack), e.node, e.fragment, e.time), true, Left(w', e.id, e.ack), Base(c, t, e.ack), e.time)
  {
    var t := w.states[e.id];
    TransmitKeeps(t.Dir(e.ack), Left(w, e.id, e.ack), Base(c, t, e.ack), w.now, e.node, e.fragment, e.time);
  }

  lemma TransmittedTrace(c: Config, w: World, w': World, id: nat, ack: bool, t: Trace, d: Direction)
    requires TraceOk(c, w, id, t) && (ack ==> t.special) && w.now <= w'.now && w'.sent == w.sent
    requires Left(w', id, !ack) == Left(w, id, !ack)
    requires d.arrival == t.Dir(ack).arrival && DirectionOk(c, d, (id, ack) in w.sent, Left(w', id, ack), Base(c, t, ack), w'.now)
    ensures TraceOk(c, w', id, t.With(ack, d))
  {
  }

  lemma ReceiveOnTrace(c: Config, w: World, e: Event)
    requires e.Rx? && CanHappen(c, w, e) && c.Positive() && w.now >= 0 && TraceOk(c, w, e.id, w.states[e.id])
    requires e.ack ==> w.states[e.id].special
    ensures TraceOk(c, Happen(c, w, e), e.id, Happen(c, w, e).states[e.id])
  {
    if e.ack {
      ReceiveAcknowledgement(c, w, e);
    } else {
      ReceiveForward(c, w, e);
    }
  }

  lemma ReceiveAcknowledgement(c: Config, w: World, e: Event)
    requires e.Rx? && e.ack && CanHappen(c, w, e) && c.Positive() && w.now >= 0 && TraceOk(c, w, e.id, w.states[e.id])
    requires w.states[e.id].special
    ensures TraceOk(c, Happen(c, w, e), e.id, Happen(c, w, e).states[e.id])
  {
    var t := w.states[e.id];
    ReceiveKeeps(t.acknowledgement, Left(w, e.id, true), Base(c, t, true), w.now, e.node, e.fragment, e.time);
  }

  lemma ReceiveForward(c: Config, w: World, e: Event)
    requires e.Rx? && !e.ack && CanHappen(c, w, e) && c.Positive() && w.now >= 0 && TraceOk(c, w, e.id, w.states[e.id])
    ensures TraceOk(c, Happen(c, w, e), e.id, Happen(c, w, e).states[e.id])
  {
    var t := w.states[e.id];
    ReceiveKeeps(t.forward, Left(w, e.id, false), Base(c, t, false), w.now, e.node, e.fragment, e.time);
  }

  /** Events on an acknowledgement only occur after it has been scheduled. */
  lemma AckEntryScheduled(c: Config, bench: seq<Bench>, w: World, e: Event)
    requires Inv(c, bench, w) && CanHappen(c, w, e) && e.ack
    ensures w.states[e.id].scheduled && w.states[e.id].special
    ensures e.Send? ==> e.time == AckTime(c, w.states[e.id])
  {
    assert TraceOk(c, w, e.id, w.states[e.id]);
    if e.Send? {
      var k :| 0 <= k < |w.agenda| && w.agenda[k] == Ack(e.time, e.id);
      assert AgendaEntryOk(c, w, w.agenda[k]);
    }
  }

  lemma OtherTraces(c: Config, bench: seq<Bench>, w: World, e: Event, id: nat)
    requires Inv(c, bench, w) && CanHappen(c, w, e) && id < |bench| && id != e.id
    ensures TraceOk(c, Happen(c, w, e), id, w.states[id])
  {
    assert TraceOk(c, w, id, w.states[id]);
    var w' := Happen(c, w, e);
    assert Left(w', id, false) == Left(w, id, false) && Left(w', id, true) == Left(w, id, true);
  }

  lemma AgendaStep(c: Config, bench: seq<Bench>, w: World, e: Event)
    requires Inv(c, bench, w) && CanHappen(c, w, e) && TraceStep(c, w, e)
    ensures AgendaOk(c, Happen(c, w, e))
  {
    var w', t := Happen(c, w, e), w.states[e.id];
    var t', a := w'.states[e.id], Handled(c, w, e).1;
    assert TraceOk(c, w, e.id, t);
    forall k | 0 <= k < |w'.agenda| ensures AgendaEntryOk(c, w', w'.agenda[k]) {
      if k < |w.agenda| {
        assert AgendaEntryOk(c, w, w.agenda[k]);
      }
    }
    forall k, l | 0 <= k < l < |w'.agenda| ensures w'.agenda[k].id != w'.agenda[l].id {
      assert AgendaEntryOk(c, w, w.agenda[k]);
    }
    forall id | 0 <= id < |w'.states| && w'.states[id].scheduled ensures Ack(AckTime(c, w'.states[id]), id) in w'.agenda {
      if a.Some? && id == e.id {
        assert w'.agenda[|w.agenda|] == a.value;
      }
    }
  }

  lemma StepInv(c: Config, bench: seq<Bench>, w: World, e: Event)
    requires Inv(c, bench, w) && CanHappen(c, w, e)
    ensures Inv(c, bench, Happen(c, w, e))
  {
    var w' := Happen(c, w, e);
    EventOnTrace(c, bench, w, e);
    EventStep(c, bench, w, e);
    ShapeKept(c, w, e);
    AgendaStep(c, bench, w, e);
    forall id | 0 <= id < |bench| ensures TraceOk(c, w', id, w'.states[id]) {
      if id != e.id {
        OtherTraces(c, bench, w, e, id);
      }
    }
  }

  lemma {:induction false} RunInv(c: Config, bench: seq<Bench>, w: World, events: seq<Event>, end: World)
    requires Inv(c, bench, w) && Run(c, w, events, end)
    ensures Inv(c, bench, end)
    decreases |events|
  {
    if events != [] {
      StepInv(c, bench, w, events[0]);
      RunInv(c, bench, Happen(c, w, events[0]), events[1..], end);
    }
  }

  // ----- The main results

  /** In every run, duplicates and reordering included: the transmission of a direction is finished
      exactly when every fragment has left the source, the direction has arrived exactly when every
      fragment has been received, and neither comes before its predecessor or before the base of its
      delays.  A local direction takes exactly one cycle. */
  lemma CompletionTimesAreExact(c: Config, bench: seq<Bench>, events: seq<Event>, end: World, id: nat, ack: bool)
    requires c.Positive() && Run(c, Begin(c, bench), events, end) && id < |bench|
    requires ack ==> IsSpecial(bench[id].descriptor)
    ensures |end.states| == |bench|
    ensures var t := end.states[id];
      var d := t.Dir(ack);
      && d.source == NewTrace(c, bench[id]).Dir(ack).source && d.destination == NewTrace(c, bench[id]).Dir(ack).destination
      && (d.source != d.destination ==>
           && (d.transmitFinish >= 0 <==> Left(end, id, ack) == Range(d.fragments))
           && (d.arrival >= 0 <==> d.received == Range(d.fragments)))
      && (d.arrival >= 0 ==> Base(c, t, ack) <= d.transmitFinish <= d.arrival)
      && (d.source == d.destination && (id, ack) in end.sent ==>
           d.transmitFinish == d.arrival == Base(c, t, ack) + c.cycleNs)
  {
    BeginInv(c, bench);
    RunInv(c, bench, Begin(c, bench), events, end);
    var t := end.states[id];
    assert TraceOk(c, end, id, t) && SameShape(t, NewTrace(c, bench[id]));
    var d := t.Dir(ack);
    assert DirectionOk(c, d, (id, ack) in end.sent, Left(end, id, ack), Base(c, t, ack), end.now);
    if d.source != d.destination {
      assert 0 in Range(d.fragments);
      FullSubset(Left(end, id, ack), d.fragments);
      FullSubset(d.received, d.fragments);
    }
  }

  /** In every run a trace stays what its record asks for: so many fragments, between these nodes, that they
      carry all its bytes, and one flit for the acknowledgement of a special record. */
  lemma EveryTraceCarriesItsRecord(c: Config, bench: seq<Bench>, events: seq<Event>, end: World, id: nat)
    requires c.Positive() && Run(c, Begin(c, bench), events, end) && id < |bench|
    ensures |end.states| == |bench| && CarriesRecord(c, bench[id], end.states[id])
  {
    BeginInv(c, bench);
    RunInv(c, bench, Begin(c, bench), events, end);
    NewTraceCarriesRecord(c, bench[id]);
    assert SameShape(end.states[id], NewTrace(c, bench[id]));
    ShapeCarries(c, bench[id], end.states[id], NewTrace(c, bench[id]));
  }

  lemma ShapeCarries(c: Config, b: Bench, t: Trace, u: Trace)
    requires SameShape(t, u) && CarriesRecord(c, b, u)
    ensures CarriesRecord(c, b, t)
  {
  }

  /** The later one of two times. */
  predicate IsLater(time: int, a: int, b: int) {
    time >= a && time >= b && (time == a || time == b)
  }

  /** An acknowledgement is scheduled exactly once, exactly if the transaction is special and has
      arrived, and for the very time that the reports take as the start of its delays. */
  lemma AcknowledgedExactlyOnce(c: Config, bench: seq<Bench>, events: seq<Event>, end: World, id: nat)
    requires c.Positive() && Run(c, Begin(c, bench), events, end) && id < |bench|
    ensures |end.states| == |bench|
    ensures (exists k :: 0 <= k < |end.agenda| && end.agenda[k].id == id)
            <==> IsSpecial(bench[id].descriptor) && end.states[id].forward.arrival >= 0
    ensures forall k, l | 0 <= k < l < |end.agenda| :: !(end.agenda[k].id == id == end.agenda[l].id)
    ensures forall k | 0 <= k < |end.agenda| && end.agenda[k].id == id :: end.agenda[k].time == AckTime(c, end.states[id])
    ensures forall k | 0 <= k < |end.agenda| && end.agenda[k].id == id ::
      IsLater(end.agenda[k].time, end.states[id].forward.arrival, bench[id].destinationCycle * c.cycleNs)
  {
    BeginInv(c, bench);
    RunInv(c, bench, Begin(c, bench), events, end);
    var t := end.states[id];
    assert TraceOk(c, end, id, t) && SameShape(t, NewTrace(c, bench[id]));
    forall k | 0 <= k < |end.agenda| ensures AgendaEntryOk(c, end, end.agenda[k]) {
    }
    if t.scheduled {
      assert Ack(AckTime(c, t), id) in end.agenda;
    }
  }

  lemma StepKeepsTimes(c: Config, bench: seq<Bench>, w: World, e: Event, id: nat, ack: bool)
    requires Inv(c, bench, w) && CanHappen(c, w, e) && id < |bench| && (ack ==> IsSpecial(bench[id].descriptor))
    ensures TimesStay(w.states[id].Dir(ack), Happen(c, w, e).states[id].Dir(ack))
  {
    assert TraceOk(c, w, id, w.states[id]) && SameShape(w.states[id], NewTrace(c, bench[id]));
    var d := w.states[id].Dir(ack);
    assert DirectionOk(c, d, (id, ack) in w.sent, Left(w, id, ack), Base(c, w.states[id], ack), w.now);
  }

  /** A completion time, once set, stays. */
  lemma {:induction false} CompletionTimesAreWrittenOnce(
      c: Config, bench: seq<Bench>, w: World, events: seq<Event>, end: World, id: nat, ack: bool)
    requires Inv(c, bench, w) && Run(c, w, events, end) && id < |bench| && (ack ==> IsSpecial(bench[id].descriptor))
    ensures |end.states| == |bench|
    ensures TimesStay(w.states[id].Dir(ack), end.states[id].Dir(ack))
    decreases |events|
  {
    if events != [] {
      StepInv(c, bench, w, events[0]);
      StepKeepsTimes(c, bench, w, events[0], id, ack);
      CompletionTimesAreWrittenOnce(c, bench, Happen(c, w, events[0]), events[1..], end, id, ack);
    }
  }

  /** Once scheduled, an acknowledgement stays on the agenda. */
  lemma {:induction false} AgendaGrows(c: Config, w: World, events: seq<Event>, end: World, a: Ack)
    requires Run(c, w, events, end) && a in w.agenda
    ensures a in end.agenda
    decreases |events|
  {
    if events != [] {
      AgendaGrows(c, Happen(c, w, events[0]), events[1..], end, a);
    }
  }

  /** An acknowledgement that has been sent in a run was sent at the time of its entry on the agenda. */
  lemma {:induction false} SentAsScheduled(c: Config, w: World, events: seq<Event>, end: World, id: nat) returns (time: int)
    requires Run(c, w, events, end) && (id, true) !in w.sent && (id, true) in end.sent
    ensures Send(id, true, time) in events && Ack(time, id) in end.agenda
    decreases |events|
  {
    var e := events[0];
    if e.Send? && e.id == id && e.ack {
      time := e.time;
      AgendaGrows(c, Happen(c, w, e), events[1..], end, Ack(time, id));
    } else {
      time := SentAsScheduled(c, Happen(c, w, e), events[1..], end, id);
    }
  }

  /** The same for any one send. */
  lemma {:induction false} EverySendAsScheduled(c: Config, w: World, events: seq<Event>, end: World, id: nat, time: int)
    requires Run(c, w, events, end) && Send(id, true, time) in events
    ensures Ack(time, id) in end.agenda
    decreases |events|
  {
    var e := events[0];
    if e == Send(id, true, time) {
      AgendaGrows(c, Happen(c, w, e), events[1..], end, Ack(time, id));
    } else {
      assert Send(id, true, time) in events[1..];
      EverySendAsScheduled(c, Happen(c, w, e), events[1..], end, id, time);
    }
  }
}
