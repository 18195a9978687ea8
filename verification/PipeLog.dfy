/** The log that the routers write in a run of the mesh, and what the collector makes of it. */
module PipeLog {
  import opened Options
  import opened PipeFrame
  import opened PipeLink
  import opened PipeRouting
  import opened PipeMesh
  import PipeRouter
  import opened TransferMetrics

  /** The text of a pipe name. */
  function Text(name: Name): (s: string)
    ensures |s| == |name| && forall i | 0 <= i < |s| :: s[i] == name[i] as char
  {
    seq(|name|, i requires 0 <= i < |name| => name[i] as char)
  }

  lemma TextIsUnique(a: Name, b: Name)
    requires Text(a) == Text(b)
    ensures a == b
  {
    forall i | 0 <= i < |a| ensures a[i] == b[i] {
      assert Text(a)[i] == Text(b)[i];
      assert a[i] as char as int == b[i] as char as int;
    }
  }

  /** Start and end of an operation. */
  datatype Stamp = Stamp(started: int, finished: int)

  /** The record of a completed operation; steps of the gateways leave none. */
  function RecordsOf(d: Deployment, physical: map<int, int>, e: Event, stamp: Stamp): seq<Record> {
    match e
    case Write(slot, raw, payload) =>
      (match d.Route(Basename(raw))
       case None => []
       case Some(route) =>
         [PipeRouter.RecordOf(physical, slot, route.1, W, Text(Basename(raw)), |payload|, stamp.started, stamp.finished)])
    case Read(slot, raw, bytes) =>
      (match d.Route(Basename(raw))
       case None => []
       case Some(route) =>
         [PipeRouter.RecordOf(physical, slot, route.0, R, Text(Basename(raw)), bytes, stamp.started, stamp.finished)])
    case _ => []
  }

  function LogOf(d: Deployment, physical: map<int, int>, events: seq<Event>, stamps: seq<Stamp>): seq<Record>
    requires |stamps| == |events|
  {
    if events == [] then []
    else RecordsOf(d, physical, events[0], stamps[0]) + LogOf(d, physical, events[1..], stamps[1..])
  }

  function Sizes(payloads: seq<Payload>): (s: seq<Option<int>>)
    ensures |s| == |payloads| && forall k | 0 <= k < |s| :: s[k] == Some(|payloads[k]|)
  {
    seq(|payloads|, k requires 0 <= k < |payloads| => Some(|payloads[k]|))
  }

  function BytesOf(records: seq<Record>): (s: seq<Option<int>>)
    ensures |s| == |records| && forall k | 0 <= k < |s| :: s[k] == records[k].bytes
  {
    seq(|records|, k requires 0 <= k < |records| => records[k].bytes)
  }

  /** The records of one pipe in a log. */
  function On(log: seq<Record>, op: TransferMetrics.Operation, name: Name): seq<Record> {
    Filter(log, OnPipe(op, Text(name)))
  }

  lemma {:induction false} OnConcatenation(a: seq<Record>, b: seq<Record>, op: TransferMetrics.Operation, name: Name)
    ensures On(a + b, op, name) == On(a, op, name) + On(b, op, name)
    decreases |a|
  {
    if a == [] {
      assert a + b == b;
    } else {
      assert (a + b)[1..] == a[1..] + b;
      OnConcatenation(a[1..], b, op, name);
    }
  }

  /** Records of one end of a pipe: where it is, and where its peer is. */
  ghost predicate Between(records: seq<Record>, op: TransferMetrics.Operation, slot: int, peer: int, name: Name) {
    forall k | 0 <= k < |records| ::
      && records[k].operation == op && records[k].pipe == Text(name) && records[k].bytes.Some?
      && records[k].source == Some(slot) && records[k].peer == Some(peer)
  }

  /** One event adds to the log of a pipe what it adds to its history. */
  lemma EventIsLogged(d: Deployment, physical: map<int, int>, m: Mesh, e: Event, stamp: Stamp, name: Name)
    requires AllValid(d, m) && CanDo(d, m, e) && d.Route(name).Some? && d.base <= 261 && |name| <= MAX_NAME
    ensures var route, records := d.Route(name).value, RecordsOf(d, physical, e, stamp);
      && BytesOf(On(records, W, name)) == Sizes(TakenIn(d, e, route, name))
      && BytesOf(On(records, R, name)) == Sizes(HandedOut(m, e, route, name))
      && Between(On(records, W, name), W, route.0, route.1, name)
      && Between(On(records, R, name), R, route.1, route.0, name)
  {
    var records := RecordsOf(d, physical, e, stamp);
    if e.Write? || e.Read? {
      var written := Basename(e.raw);
      RouteIsPeer(d, written);
      assert records != [] && records[1..] == [];
      assert On(records[1..], W, name) == [] && On(records[1..], R, name) == [];
      if Text(written) == Text(name) {
        TextIsUnique(written, name);
        assert name != [];
      }
    }
  }

  /** What a pipe has taken in, or handed out. */
  function History(m: Mesh, op: TransferMetrics.Operation, name: Name): seq<Payload> {
    Waiting(if op == W then m.accepted else m.delivered, name)
  }

  /** So the log tells the sizes of all that a pipe has taken in and handed out, in their order. */
  lemma {:induction false} RunIsLogged(
      d: Deployment, physical: map<int, int>, m: Mesh, events: seq<Event>, stamps: seq<Stamp>, end: Mesh,
      op: TransferMetrics.Operation, name: Name)
    requires AllValid(d, m) && PipeMesh.Run(d, m, events, end) && |stamps| == |events| && op != Foreign
    requires d.Route(name).Some? && d.base <= 261 && |name| <= MAX_NAME
    ensures Sizes(History(end, op, name)) == Sizes(History(m, op, name)) + BytesOf(On(LogOf(d, physical, events, stamps), op, name))
    decreases |events|
  {
    if events != [] {
      var e, next := events[0], Do(d, m, events[0]);
      var route := d.Route(name).value;
      var records, rest := RecordsOf(d, physical, e, stamps[0]), LogOf(d, physical, events[1..], stamps[1..]);
      var more := if op == W then TakenIn(d, e, route, name) else HandedOut(m, e, route, name);
      EventIsLogged(d, physical, m, e, stamps[0], name);
      StepMoves(d, m, e, name);
      RunIsLogged(d, physical, next, events[1..], stamps[1..], end, op, name);
      OnConcatenation(records, rest, op, name);
      SizesGrow(History(m, op, name), more, On(records, op, name), On(rest, op, name));
    }
  }

  lemma {:induction false} RunIsBetween(
      d: Deployment, physical: map<int, int>, m: Mesh, events: seq<Event>, stamps: seq<Stamp>, end: Mesh,
      op: TransferMetrics.Operation, name: Name)
    requires AllValid(d, m) && PipeMesh.Run(d, m, events, end) && |stamps| == |events| && op != Foreign
    requires d.Route(name).Some? && d.base <= 261 && |name| <= MAX_NAME
    ensures var route := d.Route(name).value;
      var (here, peer) := if op == W then route else (route.1, route.0);
      Between(On(LogOf(d, physical, events, stamps), op, name), op, here, peer, name)
    decreases |events|
  {
    if events != [] {
      EventIsLogged(d, physical, m, events[0], stamps[0], name);
      StepIsValid(d, m, events[0]);
      RunIsBetween(d, physical, Do(d, m, events[0]), events[1..], stamps[1..], end, op, name);
      OnConcatenation(RecordsOf(d, physical, events[0], stamps[0]), LogOf(d, physical, events[1..], stamps[1..]), op, name);
      var route := d.Route(name).value;
      var (here, peer) := if op == W then route else (route.1, route.0);
      BetweenBoth(On(RecordsOf(d, physical, events[0], stamps[0]), op, name),
                  On(LogOf(d, physical, events[1..], stamps[1..]), op, name), op, here, peer, name);
    }
  }

  lemma BetweenBoth(a: seq<Record>, b: seq<Record>, op: TransferMetrics.Operation, slot: int, peer: int, name: Name)
    requires Between(a, op, slot, peer, name) && Between(b, op, slot, peer, name)
    ensures Between(a + b, op, slot, peer, name)
  {
  }

  lemma WholeRunIsLogged(
      d: Deployment, physical: map<int, int>, events: seq<Event>, stamps: seq<Stamp>, end: Mesh,
      op: TransferMetrics.Operation, name: Name)
    requires PipeMesh.Run(d, Start, events, end) && |stamps| == |events| && op != Foreign
    requires d.Route(name).Some? && d.base <= 261 && |name| <= MAX_NAME
    ensures BytesOf(On(LogOf(d, physical, events, stamps), op, name)) == Sizes(History(end, op, name))
  {
    StartInv(d);
    RunIsLogged(d, physical, Start, events, stamps, end, op, name);
    assert Sizes(History(Start, op, name)) == [];
  }

  // ----- The clocks

  predicate Writes(e: Event, name: Name) { e.Write? && Basename(e.raw) == name }

  predicate Reads(e: Event, name: Name) { e.Read? && Basename(e.raw) == name }

  /** The clock of either end ticks: a later write has a later start, and a later read a later end. */
  ghost predicate ClocksTick(events: seq<Event>, stamps: seq<Stamp>, name: Name)
    requires |stamps| == |events|
  {
    && (forall i, j | 0 <= i < j < |events| && Writes(events[i], name) && Writes(events[j], name) :: stamps[i].started < stamps[j].started)
    && (forall i, j | 0 <= i < j < |events| && Reads(events[i], name) && Reads(events[j], name) :: stamps[i].finished < stamps[j].finished)
  }

  /** The records of one event have its stamp. */
  lemma RecordIsStamped(d: Deployment, physical: map<int, int>, e: Event, stamp: Stamp, name: Name)
    ensures var writes := On(RecordsOf(d, physical, e, stamp), W, name);
      |writes| <= 1 && (writes != [] ==> Writes(e, name) && writes[0].started == Some(stamp.started))
    ensures var rs := On(RecordsOf(d, physical, e, stamp), R, name);
      |rs| <= 1 && (rs != [] ==> Reads(e, name) && rs[0].finished == Some(stamp.finished))
  {
    var records := RecordsOf(d, physical, e, stamp);
    if records != [] {
      assert records[1..] == [];
      assert On(records[1..], W, name) == [] && On(records[1..], R, name) == [];
      if Text(Basename(e.raw)) == Text(name) {
        TextIsUnique(Basename(e.raw), name);
      }
    }
  }

  lemma {:induction false} LogIsStamped(
      d: Deployment, physical: map<int, int>, events: seq<Event>, stamps: seq<Stamp>, name: Name, r: Record, op: TransferMetrics.Operation)
    returns (j: nat)
    requires |stamps| == |events| && r in On(LogOf(d, physical, events, stamps), op, name) && op != Foreign
    ensures j < |events|
    ensures op == W ==> Writes(events[j], name) && r.started == Some(stamps[j].started)
    ensures op == R ==> Reads(events[j], name) && r.finished == Some(stamps[j].finished)
    decreases |events|
  {
    var records, rest := RecordsOf(d, physical, events[0], stamps[0]), LogOf(d, physical, events[1..], stamps[1..]);
    OnConcatenation(records, rest, op, name);
    RecordIsStamped(d, physical, events[0], stamps[0], name);
    if r in On(rest, op, name) {
      j := LogIsStamped(d, physical, events[1..], stamps[1..], name, r, op);
      j := j + 1;
    } else {
      assert r in On(records, op, name);
      j := 0;
    }
  }

  /** So the records of either end have their times in the order of the run. */
  lemma {:induction false} LogIsInOrder(d: Deployment, physical: map<int, int>, events: seq<Event>, stamps: seq<Stamp>, name: Name)
    requires |stamps| == |events| && ClocksTick(events, stamps, name)
    ensures StartsRise(On(LogOf(d, physical, events, stamps), W, name))
    ensures EndsRise(On(LogOf(d, physical, events, stamps), R, name))
    decreases |events|
  {
    if events != [] {
      var records, rest := RecordsOf(d, physical, events[0], stamps[0]), LogOf(d, physical, events[1..], stamps[1..]);
      LogIsInOrder(d, physical, events[1..], stamps[1..], name);
      OnConcatenation(records, rest, W, name);
      OnConcatenation(records, rest, R, name);
      RecordIsStamped(d, physical, events[0], stamps[0], name);
      forall k | 0 <= k < |On(rest, W, name)| && On(records, W, name) != []
        ensures stamps[0].started < Clock(On(rest, W, name)[k].started)
      {
        var j := LogIsStamped(d, physical, events[1..], stamps[1..], name, On(rest, W, name)[k], W);
        assert Writes(events[j + 1], name) && stamps[j + 1] == stamps[1..][j];
      }
      forall k | 0 <= k < |On(rest, R, name)| && On(records, R, name) != []
        ensures stamps[0].finished < Clock(On(rest, R, name)[k].finished)
      {
        var j := LogIsStamped(d, physical, events[1..], stamps[1..], name, On(rest, R, name)[k], R);
        assert Reads(events[j + 1], name) && stamps[j + 1] == stamps[1..][j];
      }
      FirstStarts(On(records, W, name), On(rest, W, name));
      FirstEnds(On(records, R, name), On(rest, R, name));
    }
  }

  lemma FirstStarts(a: seq<Record>, b: seq<Record>)
    requires |a| <= 1 && StartsRise(b) && forall k | 0 <= k < |b| && a != [] :: Clock(a[0].started) < Clock(b[k].started)
    ensures StartsRise(a + b)
  {
  }

  lemma FirstEnds(a: seq<Record>, b: seq<Record>)
    requires |a| <= 1 && EndsRise(b) && forall k | 0 <= k < |b| && a != [] :: Clock(a[0].finished) < Clock(b[k].finished)
    ensures EndsRise(a + b)
  {
  }

  // ----- Runs are histories of FIFOs

  lemma SizesGrow(payloads: seq<Payload>, more: seq<Payload>, records: seq<Record>, rest: seq<Record>)
    requires BytesOf(records) == Sizes(more)
    ensures Sizes(payloads + more) + BytesOf(rest) == Sizes(payloads) + BytesOf(records + rest)
  {
    assert Sizes(payloads + more) == Sizes(payloads) + Sizes(more);
    assert BytesOf(records + rest) == BytesOf(records) + BytesOf(rest);
    assert (Sizes(payloads) + Sizes(more)) + BytesOf(rest) == Sizes(payloads) + (Sizes(more) + BytesOf(rest));
  }

  /** A run of the mesh is a history of a FIFO, as the pairing takes it: the k-th read has got the k-th
      write, and each record has the size of its payload.  The clocks of the two ends only have to tell
      the operations of one end apart. */
  lemma RunsAreFifoHistories(
      d: Deployment, physical: map<int, int>, events: seq<Event>, stamps: seq<Stamp>, end: Mesh, name: Name)
    requires PipeMesh.Run(d, Start, events, end) && |stamps| == |events|
    requires d.Route(name).Some? && d.base <= 261 && |name| <= MAX_NAME && ClocksTick(events, stamps, name)
    ensures var route, log := d.Route(name).value, LogOf(d, physical, events, stamps);
      && BytesOf(On(log, W, name)) == Sizes(Waiting(end.accepted, name))
      && BytesOf(On(log, R, name)) == Sizes(Waiting(end.delivered, name))
      && Waiting(end.delivered, name) <= Waiting(end.accepted, name)
      && FifoHistory(On(log, W, name), On(log, R, name), route.0, route.1, Text(name))
  {
    var log := LogOf(d, physical, events, stamps);
    StartInv(d);
    WholeRunIsLogged(d, physical, events, stamps, end, W, name);
    WholeRunIsLogged(d, physical, events, stamps, end, R, name);
    RunIsBetween(d, physical, Start, events, stamps, end, W, name);
    RunIsBetween(d, physical, Start, events, stamps, end, R, name);
    EveryPipeIsAFifo(d, events, end, name);
    LogIsInOrder(d, physical, events, stamps, name);
    HistoryIsFifo(On(log, W, name), On(log, R, name), Waiting(end.accepted, name), Waiting(end.delivered, name),
                  d.Route(name).value, name);
  }

  lemma HistoryIsFifo(
      writes: seq<Record>, rs: seq<Record>, accepted: seq<Payload>, delivered: seq<Payload>, route: (int, int), name: Name)
    requires BytesOf(writes) == Sizes(accepted) && BytesOf(rs) == Sizes(delivered) && delivered <= accepted && name != []
    requires Between(writes, W, route.0, route.1, name) && Between(rs, R, route.1, route.0, name)
    requires StartsRise(writes) && EndsRise(rs)
    ensures FifoHistory(writes, rs, route.0, route.1, Text(name))
  {
    forall k | 0 <= k < |rs| ensures rs[k].bytes == writes[k].bytes {
      assert BytesOf(rs)[k] == Sizes(delivered)[k] && BytesOf(writes)[k] == Sizes(accepted)[k];
    }
  }

  /** The collector's pairing is the truth of every run: whatever the log looks like, as long as it holds
      the records of the run, the pairs under each key are those of the k-th write of a pipe and the k-th
      read, which has got the very payload of that write. */
  lemma PairingIsTheTruthOfRuns(
      d: Deployment, physical: map<int, int>, events: seq<Event>, stamps: seq<Stamp>, end: Mesh, name: Name,
      log: seq<Record>, bytes: int)
    requires PipeMesh.Run(d, Start, events, end) && |stamps| == |events|
    requires d.Route(name).Some? && d.base <= 261 && |name| <= MAX_NAME && ClocksTick(events, stamps, name)
    requires multiset(log) == multiset(LogOf(d, physical, events, stamps))
    ensures var route, written := d.Route(name).value, LogOf(d, physical, events, stamps);
      var writes, rs := On(written, W, name), On(written, R, name);
      && |writes| == |Waiting(end.accepted, name)| && |rs| == |Waiting(end.delivered, name)| <= |writes|
      && (forall k | 0 <= k < |rs| :: Waiting(end.delivered, name)[k] == Waiting(end.accepted, name)[k])
      && Paired(log, Key(route.0, route.1, Text(name), bytes)) == Consumed(writes, rs, bytes)
      && (forall pair :: pair in Paired(log, Key(route.0, route.1, Text(name), bytes)) <==> IsTransfer(writes, rs, bytes, pair))
      && AllDifferent(Paired(log, Key(route.0, route.1, Text(name), bytes)))
  {
    var route, written := d.Route(name).value, LogOf(d, physical, events, stamps);
    RunsAreFifoHistories(d, physical, events, stamps, end, name);
    SameRecords(log, written, W, name);
    SameRecords(log, written, R, name);
    PairingIsTheTruth(log, On(written, W, name), On(written, R, name), route.0, route.1, Text(name), bytes);
  }

  lemma SameRecords(a: seq<Record>, b: seq<Record>, op: TransferMetrics.Operation, name: Name)
    requires multiset(a) == multiset(b)
    ensures multiset(On(a, op, name)) == multiset(On(b, op, name))
  {
    forall x ensures multiset(On(a, op, name))[x] == multiset(On(b, op, name))[x] {
      FilterCount(a, OnPipe(op, Text(name)), x);
      FilterCount(b, OnPipe(op, Text(name)), x);
    }
  }
}
