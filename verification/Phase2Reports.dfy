/** The three outputs of the adapter, and the collector that reads one of them again. */
module Phase2Reports {
  import opened Options
  import opened Phase2
  import opened Phase2Runs

  /** `slots` and `localize` are the counterfactual mode: traffic between workers takes no time. */
  datatype Settings = Settings(config: Config, slots: map<nat, int>, localize: bool)
  {
    predicate Routable(t: Trace) {
      localize ==> t.bench.source in slots && t.bench.destination in slots
    }

    predicate Localized(t: Trace)
      requires Routable(t)
    {
      localize && slots[t.bench.source] != slots[t.bench.destination]
    }
  }

  function CeilCycles(ns: int, cycleNs: nat): nat
    requires cycleNs > 0
  {
    if ns <= 0 then 0 else CeilDivide(ns, cycleNs)
  }

  function StartNs(s: Settings, t: Trace): int { t.bench.sourceCycle * s.config.cycleNs }

  function SourceDelay(s: Settings, t: Trace): nat
    requires s.config.cycleNs > 0
  {
    CeilCycles(t.forward.transmitFinish - StartNs(s, t), s.config.cycleNs)
  }

  function DestinationDelay(s: Settings, t: Trace): nat
    requires s.config.cycleNs > 0
  {
    CeilCycles(t.forward.arrival - StartNs(s, t), s.config.cycleNs)
  }

  // ----- One line of each report

  datatype Row = Row(
    special: bool, payloadBytes: nat, sourceCycle: nat, destinationCycle: nat,
    txFinishCycle: nat, arrivalCycle: nat, sourceDelay: nat, destinationDelay: nat, destinationBlock: nat,
    localized: bool, ackCycles: Option<(nat, nat)>)

  function RowOf(s: Settings, t: Trace): Row
    requires s.config.cycleNs > 0 && s.Routable(t)
  {
    var c, local, b := s.config.cycleNs, s.Localized(t), t.bench;
    var destination := if local then 0 else DestinationDelay(s, t);
    Row(t.special, b.flits * s.config.flitBytes, b.sourceCycle, b.destinationCycle,
        if local then b.sourceCycle else CeilCycles(t.forward.transmitFinish, c),
        if local then b.sourceCycle else CeilCycles(t.forward.arrival, c),
        if local then 0 else SourceDelay(s, t),
        destination,
        if local then 0
        else if b.sourceCycle + destination > b.destinationCycle then b.sourceCycle + destination - b.destinationCycle else 0,
        local,
        if !t.special then None
        else if local then Some((0, 0))
        else Some((CeilCycles(t.acknowledgement.transmitFinish, c), CeilCycles(t.acknowledgement.arrival, c))))
  }

  /** The delays of one line of delayInfo: two for normal records, four for special ones. */
  function DelaysOf(s: Settings, t: Trace): seq<nat>
    requires s.config.cycleNs > 0 && s.Routable(t)
  {
    if s.Localized(t) then if t.special then [0, 0, 0, 0] else [0, 0]
    else if !t.special then [SourceDelay(s, t), DestinationDelay(s, t)]
    else
      var start, c := AckTime(s.config, t), s.config.cycleNs;
      [SourceDelay(s, t), DestinationDelay(s, t),
       CeilCycles(t.acknowledgement.transmitFinish - start, c), CeilCycles(t.acknowledgement.arrival - start, c)]
  }

  // ----- Totals

  datatype Totals = Totals(
    records: nat, normal: nat, special: nat, payload: nat,
    sourceDelay: nat, destinationDelay: nat, destinationBlock: nat)

  const Zero := Totals(0, 0, 0, 0, 0, 0, 0)

  /** The summary adds up over the traces; special and localized ones do not contribute delays. */
  function WithTrace(s: Settings, sum: Totals, t: Trace): Totals
    requires s.config.cycleNs > 0 && s.Routable(t)
  {
    var counted := sum.(records := sum.records + 1, payload := sum.payload + t.bench.flits * s.config.flitBytes,
                        special := sum.special + (if t.special then 1 else 0), normal := sum.normal + (if t.special then 0 else 1));
    if s.Localized(t) || t.special then counted
    else
      var arrival := t.bench.sourceCycle + DestinationDelay(s, t);
      counted.(sourceDelay := sum.sourceDelay + SourceDelay(s, t),
               destinationDelay := sum.destinationDelay + DestinationDelay(s, t),
               destinationBlock := sum.destinationBlock
                 + (if arrival > t.bench.destinationCycle then arrival - t.bench.destinationCycle else 0))
  }

  ghost predicate AllRoutable(s: Settings, states: seq<Trace>) {
    forall i | 0 <= i < |states| :: s.Routable(states[i])
  }

  ghost function SummaryOf(s: Settings, states: seq<Trace>): Totals
    requires s.config.cycleNs > 0 && AllRoutable(s, states)
  {
    if states == [] then Zero else WithTrace(s, SummaryOf(s, states[..|states| - 1]), states[|states| - 1])
  }

  function Rows(s: Settings, states: seq<Trace>): (rows: seq<Row>)
    requires s.config.cycleNs > 0 && AllRoutable(s, states)
    ensures |rows| == |states|
  {
    seq(|states|, i requires 0 <= i < |states| && s.Routable(states[i]) => RowOf(s, states[i]))
  }

  // ----- The writers; a missing worker slot makes them fail

  method WriteSummary(s: Settings, states: seq<Trace>) returns (r: Option<Totals>)
    requires s.config.cycleNs > 0
    ensures r.Some? <==> AllRoutable(s, states)
    ensures r.Some? ==> r.value == SummaryOf(s, states)
  {
    var payload: nat, special: nat, normal: nat := 0, 0, 0;
    var sources: nat, destinations: nat, blocks: nat := 0, 0, 0;
    for i := 0 to |states|
      invariant AllRoutable(s, states[..i])
      invariant Totals(i, normal, special, payload, sources, destinations, blocks) == SummaryOf(s, states[..i])
    {
      var t := states[i];
      assert states[..i + 1][..i] == states[..i] && states[..i + 1][i] == t;
      payload := payload + t.bench.flits * s.config.flitBytes;
      if t.special {
        special := special + 1;
      } else {
        normal := normal + 1;
      }
      if !s.Routable(t) {
        return None;
      }
      if s.Localized(t) || t.special {
        continue;
      }
      sources := sources + SourceDelay(s, t);
      destinations := destinations + DestinationDelay(s, t);
      var arrival := t.bench.sourceCycle + DestinationDelay(s, t);
      if arrival > t.bench.destinationCycle {
        blocks := blocks + (arrival - t.bench.destinationCycle);
      }
    }
    assert states[..|states|] == states;
    r := Some(Totals(|states|, normal, special, payload, sources, destinations, blocks));
  }

  method WriteMetricsCsv(s: Settings, states: seq<Trace>) returns (r: Option<seq<Row>>)
    requires s.config.cycleNs > 0
    ensures r.Some? <==> AllRoutable(s, states)
    ensures r.Some? ==> r.value == Rows(s, states)
  {
    var rows: seq<Row> := [];
    for i := 0 to |states|
      invariant AllRoutable(s, states[..i]) && |rows| == i
      invariant forall k | 0 <= k < i :: s.Routable(states[k]) && rows[k] == RowOf(s, states[k])
    {
      assert states[..i + 1][i] == states[i];
      if !s.Routable(states[i]) {
        return None;
      }
      rows := rows + [RowOf(s, states[i])];
    }
    assert states[..|states|] == states;
    r := Some(rows);
  }

  // ----- The collector

  /** What the collector reads out of the CSV file. */
  datatype Collected = Collected(
    records: nat, normal: nat, special: nat, payload: nat, normalPayload: nat,
    sourceAdvance: nat, destinationDelay: nat, destinationBlock: nat)

  function WithRow(c: Collected, row: Row): Collected {
    var counted := c.(records := c.records + 1, payload := c.payload + row.payloadBytes);
    if row.special then counted.(special := c.special + 1)
    else counted.(normal := c.normal + 1, normalPayload := c.normalPayload + row.payloadBytes,
                  sourceAdvance := c.sourceAdvance + row.sourceDelay,
                  destinationDelay := c.destinationDelay + row.destinationDelay,
                  destinationBlock := c.destinationBlock + row.destinationBlock)
  }

  ghost function CollectedOf(rows: seq<Row>): Collected {
    if rows == [] then Collected(0, 0, 0, 0, 0, 0, 0, 0) else WithRow(CollectedOf(rows[..|rows| - 1]), rows[|rows| - 1])
  }

  method CollectNs3Metrics(rows: seq<Row>) returns (c: Collected)
    ensures c == CollectedOf(rows)
  {
    c := Collected(0, 0, 0, 0, 0, 0, 0, 0);
    for i := 0 to |rows|
      invariant c == CollectedOf(rows[..i])
    {
      var row := rows[i];
      assert rows[..i + 1][..i] == rows[..i];
      c := c.(records := c.records + 1, payload := c.payload + row.payloadBytes);
      if row.special {
        c := c.(special := c.special + 1);
        continue;
      }
      c := c.(normal := c.normal + 1, normalPayload := c.normalPayload + row.payloadBytes,
              sourceAdvance := c.sourceAdvance + row.sourceDelay,
              destinationDelay := c.destinationDelay + row.destinationDelay,
              destinationBlock := c.destinationBlock + row.destinationBlock);
    }
    assert rows[..|rows|] == rows;
  }

  // ----- The outputs agree

  /** Collecting the CSV rows gives the totals of the JSON summary, for every list of traces, in
      ordinary and in counterfactual mode. */
  lemma {:induction false} SummaryAndCollectorAgree(s: Settings, states: seq<Trace>)
    requires s.config.cycleNs > 0 && AllRoutable(s, states)
    ensures var sum, c := SummaryOf(s, states), CollectedOf(Rows(s, states));
      && c.records == sum.records == |states| && c.normal == sum.normal && c.special == sum.special
      && c.normal + c.special == c.records
      && c.payload == sum.payload && c.normalPayload <= c.payload
      && c.sourceAdvance == sum.sourceDelay && c.destinationDelay == sum.destinationDelay
      && c.destinationBlock == sum.destinationBlock
    decreases |states|
  {
    if states != [] {
      var front := states[..|states| - 1];
      SummaryAndCollectorAgree(s, front);
      assert Rows(s, states)[..|states| - 1] == Rows(s, front);
    }
  }

  /** What a finished transaction guarantees, see `Phase2Runs.CompletionTimesAreExact`. */
  predicate Completed(c: Config, t: Trace) {
    && t.bench.sourceCycle * c.cycleNs <= t.forward.transmitFinish <= t.forward.arrival
    && (t.special ==> AckTime(c, t) <= t.acknowledgement.transmitFinish <= t.acknowledgement.arrival)
  }

  /** The check at the end of a simulation: nothing is left incomplete. */
  predicate NothingMissing(states: seq<Trace>) {
    forall i | 0 <= i < |states| ::
      && states[i].forward.transmitFinish >= 0 && states[i].forward.arrival >= 0
      && (states[i].special ==> states[i].acknowledgement.transmitFinish >= 0 && states[i].acknowledgement.arrival >= 0)
  }

  /** A simulation that passes this check leaves traces fit for the reports. */
  lemma FinishedRunsAreReportable(c: Config, bench: seq<Bench>, events: seq<Event>, end: World, id: nat)
    requires c.Positive() && Run(c, Begin(c, bench), events, end) && NothingMissing(end.states) && id < |bench|
    ensures |end.states| == |bench| && end.states[id].bench == bench[id] && end.states[id].special == IsSpecial(bench[id].descriptor)
    ensures Completed(c, end.states[id])
  {
    BeginInv(c, bench);
    RunInv(c, bench, Begin(c, bench), events, end);
    assert SameShape(end.states[id], NewTrace(c, bench[id]));
    CompletionTimesAreExact(c, bench, events, end, id, false);
    if end.states[id].special {
      CompletionTimesAreExact(c, bench, events, end, id, true);
    }
  }

  /** The cycle in which a time falls, or which it ends. */
  predicate IsCycleOf(cycle: int, ns: int, c: nat) {
    (cycle - 1) * c < ns <= cycle * c
  }

  /** What the row of a completed trace says, field by field.  Without localisation, or if both ends are on one
      worker, the absolute cycles are those of the simulated times, that of the transmission before that of
      the arrival; a transfer that is taken as local has no delay at all. */
  lemma RowByFields(s: Settings, t: Trace)
    requires s.config.cycleNs > 0 && s.Routable(t) && Completed(s.config, t)
    ensures var row, b, c := RowOf(s, t), t.bench, s.config.cycleNs;
      && row.special == t.special && row.payloadBytes == b.flits * s.config.flitBytes
      && row.sourceCycle == b.sourceCycle && row.destinationCycle == b.destinationCycle
      && (row.localized <==> s.localize && s.slots[b.source] != s.slots[b.destination])
      && (row.ackCycles.Some? <==> t.special)
      && (row.localized ==>
           && row.txFinishCycle == row.arrivalCycle == b.sourceCycle
           && row.sourceDelay == row.destinationDelay == row.destinationBlock == 0
           && (t.special ==> row.ackCycles == Some((0, 0))))
      && (!row.localized ==>
           && IsCycleOf(row.txFinishCycle, t.forward.transmitFinish, c) && IsCycleOf(row.arrivalCycle, t.forward.arrival, c)
           && (t.special ==>
                && IsCycleOf(row.ackCycles.value.0, t.acknowledgement.transmitFinish, c)
                && IsCycleOf(row.ackCycles.value.1, t.acknowledgement.arrival, c)))
  {
    var c := s.config.cycleNs;
    assert t.bench.sourceCycle * c >= 0 && t.bench.destinationCycle * c >= 0;
    CeilBounds(t.forward.transmitFinish, c);
    CeilBounds(t.forward.arrival, c);
    if t.special {
      CeilBounds(t.acknowledgement.transmitFinish, c);
      CeilBounds(t.acknowledgement.arrival, c);
    }
  }

  /** A field added up over all rows. */
  ghost function AddedUp(rows: seq<Row>, field: Row -> nat): nat {
    if rows == [] then 0 else AddedUp(rows[..|rows| - 1], field) + field(rows[|rows| - 1])
  }

  function OfNormal(field: Row -> nat): Row -> nat {
    (row: Row) => if row.special then 0 else field(row)
  }

  /** The summary adds up the rows: their bytes, and the delays of the normal ones. */
  lemma SummaryAddsUp(s: Settings, states: seq<Trace>)
    requires s.config.cycleNs > 0 && AllRoutable(s, states)
    ensures var sum, rows := SummaryOf(s, states), Rows(s, states);
      && sum.records == |rows| && sum.special == AddedUp(rows, (row: Row) => if row.special then 1 else 0)
      && sum.normal + sum.special == sum.records
      && sum.payload == AddedUp(rows, (row: Row) => row.payloadBytes)
      && sum.sourceDelay == AddedUp(rows, OfNormal((row: Row) => row.sourceDelay))
      && sum.destinationDelay == AddedUp(rows, OfNormal((row: Row) => row.destinationDelay))
      && sum.destinationBlock == AddedUp(rows, OfNormal((row: Row) => row.destinationBlock))
  {
    CountsAddUp(s, states, (row: Row) => if row.special then 1 else 0, (row: Row) => row.payloadBytes);
    DelaysAddUp(s, states, OfNormal((row: Row) => row.sourceDelay), OfNormal((row: Row) => row.destinationDelay), OfNormal((row: Row) => row.destinationBlock));
  }

  lemma {:induction false} CountsAddUp(s: Settings, states: seq<Trace>, special: Row -> nat, bytes: Row -> nat)
    requires s.config.cycleNs > 0 && AllRoutable(s, states)
    requires forall row: Row :: special(row) == (if row.special then 1 else 0) && bytes(row) == row.payloadBytes
    ensures var sum, rows := SummaryOf(s, states), Rows(s, states);
      && sum.records == |rows| && sum.normal + sum.special == sum.records
      && sum.special == AddedUp(rows, special) && sum.payload == AddedUp(rows, bytes)
    decreases |states|
  {
    if states != [] {
      var front := states[..|states| - 1];
      CountsAddUp(s, front, special, bytes);
      assert Rows(s, states)[..|states| - 1] == Rows(s, front);
    }
  }

  lemma {:induction false} DelaysAddUp(s: Settings, states: seq<Trace>, source: Row -> nat, destination: Row -> nat, block: Row -> nat)
    requires s.config.cycleNs > 0 && AllRoutable(s, states)
    requires forall row: Row :: source(row) == if row.special then 0 else row.sourceDelay
    requires forall row: Row :: destination(row) == if row.special then 0 else row.destinationDelay
    requires forall row: Row :: block(row) == if row.special then 0 else row.destinationBlock
    ensures var sum, rows := SummaryOf(s, states), Rows(s, states);
      && sum.sourceDelay == AddedUp(rows, source) && sum.destinationDelay == AddedUp(rows, destination)
      && sum.destinationBlock == AddedUp(rows, block)
    decreases |states|
  {
    if states != [] {
      var front := states[..|states| - 1];
      DelaysAddUp(s, front, source, destination, block);
      assert Rows(s, states)[..|states| - 1] == Rows(s, front);
    }
  }

  /** And the collector finds the bytes of the normal rows. */
  lemma {:induction false} CollectedAddsUp(rows: seq<Row>)
    ensures CollectedOf(rows).normalPayload == AddedUp(rows, OfNormal((row: Row) => row.payloadBytes))
    decreases |rows|
  {
    if rows != [] {
      CollectedAddsUp(rows[..|rows| - 1]);
    }
  }

  /** Delays and absolute cycles of a row fit together, although each is rounded up on its own; the CSV
      row and the delayInfo line report the same delays. */
  lemma RowIsConsistent(s: Settings, t: Trace)
    requires s.config.cycleNs > 0 && s.Routable(t) && Completed(s.config, t)
    ensures var row := RowOf(s, t);
      && row.sourceCycle + row.sourceDelay == row.txFinishCycle
      && row.sourceCycle + row.destinationDelay == row.arrivalCycle
      && row.sourceDelay <= row.destinationDelay
      && (!row.localized ==>
           row.destinationBlock == (if row.arrivalCycle > row.destinationCycle then row.arrivalCycle - row.destinationCycle else 0))
      && DelaysOf(s, t)[..2] == [row.sourceDelay, row.destinationDelay]
  {
    var c := s.config.cycleNs;
    CyclesShift(t.bench.sourceCycle, t.forward.transmitFinish, c);
    CyclesShift(t.bench.sourceCycle, t.forward.arrival, c);
    CeilMonotone(t.forward.transmitFinish - StartNs(s, t), t.forward.arrival - StartNs(s, t), c);
  }

  /** The delays that are reported for an acknowledgement are the cycles, rounded up, from the time at
      which the run has really sent it; it was sent, and at the time of its entry on the agenda. */
  lemma AcknowledgementDelays(s: Settings, bench: seq<Bench>, events: seq<Event>, end: World, id: nat) returns (sent: int)
    requires s.config.Positive() && Run(s.config, Begin(s.config, bench), events, end) && NothingMissing(end.states)
    requires id < |bench| && IsSpecial(bench[id].descriptor)
    ensures |end.states| == |bench|
    ensures Send(id, true, sent) in events && Ack(sent, id) in end.agenda
    ensures forall time | Send(id, true, time) in events :: time == sent
    ensures forall k | 0 <= k < |end.agenda| && end.agenda[k].id == id :: end.agenda[k].time == sent
    ensures var t := end.states[id];
      s.Routable(t) && !s.Localized(t) ==> CountsFrom(s, t, sent)
  {
    var c := s.config;
    FinishedRunsAreReportable(c, bench, events, end, id);
    AcknowledgedExactlyOnce(c, bench, events, end, id);
    AcknowledgementWasSent(c, bench, events, end, id);
    sent := SentAsScheduled(c, Begin(c, bench), events, end, id);
    forall time | Send(id, true, time) in events ensures time == sent {
      EverySendAsScheduled(c, Begin(c, bench), events, end, id, time);
    }
    if s.Routable(end.states[id]) && !s.Localized(end.states[id]) {
      DelaysCountFromBase(s, end.states[id]);
    }
  }

  /** The two acknowledgement delays, in cycles from a time. */
  predicate CountsFrom(s: Settings, t: Trace, sent: int)
    requires s.config.cycleNs > 0 && s.Routable(t)
  {
    var d, c := DelaysOf(s, t), s.config.cycleNs;
    && |d| == 4 && d[2] <= d[3]
    && sent + (d[2] - 1) * c < t.acknowledgement.transmitFinish <= sent + d[2] * c
    && sent + (d[3] - 1) * c < t.acknowledgement.arrival <= sent + d[3] * c
  }

  lemma DelaysCountFromBase(s: Settings, t: Trace)
    requires s.config.cycleNs > 0 && s.Routable(t) && Completed(s.config, t) && t.special && !s.Localized(t)
    ensures CountsFrom(s, t, AckTime(s.config, t))
  {
    var sent, c := AckTime(s.config, t), s.config.cycleNs;
    CeilBounds(t.acknowledgement.transmitFinish - sent, c);
    CeilBounds(t.acknowledgement.arrival - sent, c);
    CeilMonotone(t.acknowledgement.transmitFinish - sent, t.acknowledgement.arrival - sent, c);
  }

  /** A completed special record has had its acknowledgement sent. */
  lemma AcknowledgementWasSent(c: Config, bench: seq<Bench>, events: seq<Event>, end: World, id: nat)
    requires c.Positive() && Run(c, Begin(c, bench), events, end) && NothingMissing(end.states)
    requires id < |bench| && IsSpecial(bench[id].descriptor)
    ensures (id, true) in end.sent
  {
    BeginInv(c, bench);
    RunInv(c, bench, Begin(c, bench), events, end);
    var t := end.states[id];
    assert TraceOk(c, end, id, t) && SameShape(t, NewTrace(c, bench[id]));
    assert DirectionOk(c, t.acknowledgement, (id, true) in end.sent, Left(end, id, true), Base(c, t, true), end.now);
  }

  /** In every completed run a transfer that stays on its node takes one cycle, in either direction. */
  lemma LocalTransferTakesOneCycle(s: Settings, bench: seq<Bench>, events: seq<Event>, end: World, id: nat)
    requires s.config.Positive() && Run(s.config, Begin(s.config, bench), events, end) && NothingMissing(end.states)
    requires id < |bench| && bench[id].source == RoutingDestination(bench[id])
    ensures |end.states| == |bench|
    ensures var t := end.states[id];
      s.Routable(t) && !s.Localized(t) ==> DelaysOf(s, t) == if IsSpecial(bench[id].descriptor) then [1, 1, 1, 1] else [1, 1]
  {
    var c := s.config;
    BeginInv(c, bench);
    RunInv(c, bench, Begin(c, bench), events, end);
    assert SameShape(end.states[id], NewTrace(c, bench[id]));
    LocalCompletion(c, bench, events, end, id, false);
    if IsSpecial(bench[id].descriptor) {
      LocalCompletion(c, bench, events, end, id, true);
    }
    if s.Routable(end.states[id]) && !s.Localized(end.states[id]) {
      OneCycleDelays(s, end.states[id]);
    }
  }

  /** The trace is complete one cycle after its start, in this direction. */
  predicate TookOneCycle(c: Config, t: Trace, ack: bool) {
    t.Dir(ack).transmitFinish == t.Dir(ack).arrival == Base(c, t, ack) + c.cycleNs
  }

  lemma OneCycleDelays(s: Settings, t: Trace)
    requires s.config.cycleNs > 0 && s.Routable(t) && !s.Localized(t)
    requires TookOneCycle(s.config, t, false) && (t.special ==> TookOneCycle(s.config, t, true))
    ensures DelaysOf(s, t) == if t.special then [1, 1, 1, 1] else [1, 1]
  {
    CeilUnique(s.config.cycleNs, s.config.cycleNs, 1);
  }

  lemma LocalCompletion(c: Config, bench: seq<Bench>, events: seq<Event>, end: World, id: nat, ack: bool)
    requires c.Positive() && Run(c, Begin(c, bench), events, end) && NothingMissing(end.states)
    requires id < |bench| && bench[id].source == RoutingDestination(bench[id]) && (ack ==> IsSpecial(bench[id].descriptor))
    ensures |end.states| == |bench|
    ensures TookOneCycle(c, end.states[id], ack)
  {
    BeginInv(c, bench);
    RunInv(c, bench, Begin(c, bench), events, end);
    var t := end.states[id];
    assert TraceOk(c, end, id, t) && SameShape(t, NewTrace(c, bench[id]));
    assert DirectionOk(c, t.Dir(ack), (id, ack) in end.sent, Left(end, id, ack), Base(c, t, ack), end.now);
  }

  lemma CeilBounds(ns: int, c: nat)
    requires c > 0 && ns >= 0
    ensures (CeilCycles(ns, c) - 1) * c < ns <= CeilCycles(ns, c) * c
  {
    var q := CeilCycles(ns, c);
    if ns > 0 {
      assert ns + c - 1 == q * c + (ns + c - 1) % c;
    }
    assert (q - 1) * c == q * c - c;
  }

  lemma CeilUnique(ns: int, c: nat, q: nat)
    requires c > 0 && ns >= 0 && (q - 1) * c < ns <= q * c
    ensures CeilCycles(ns, c) == q
  {
    CeilBounds(ns, c);
    var d, p := CeilCycles(ns, c) - q, CeilCycles(ns, c);
    assert p * c == q * c + d * c;
    assert (p - 1) * c == p * c - c && (q - 1) * c == q * c - c;
    assert d >= 1 ==> d * c >= c;
    assert d <= -1 ==> d * c <= -1 * c;
  }

  lemma CeilMonotone(a: int, b: int, c: nat)
    requires c > 0 && 0 <= a <= b
    ensures CeilCycles(a, c) <= CeilCycles(b, c)
  {
    CeilBounds(a, c);
    CeilBounds(b, c);
    var d := CeilCycles(a, c) - 1 - CeilCycles(b, c);
    assert (CeilCycles(a, c) - 1) * c == CeilCycles(b, c) * c + d * c;
    assert d >= 0 ==> d * c >= 0;
  }

  lemma CyclesShift(cycle: nat, ns: int, c: nat)
    requires c > 0 && cycle * c <= ns
    ensures cycle + CeilCycles(ns - cycle * c, c) == CeilCycles(ns, c)
  {
    var q := CeilCycles(ns - cycle * c, c);
    CeilBounds(ns - cycle * c, c);
    assert (cycle + q) * c == cycle * c + q * c;
    assert (cycle + q - 1) * c == cycle * c + (q - 1) * c;
    assert cycle * c >= 0;
    CeilUnique(ns, c, cycle + q);
  }
}
