/** Blocking readers: no reader sleeps while its payload lies ready, and what becomes of a payload of the
    wrong size.  The broker notifies one reader per message; router and gateway notify all readers on every
    message, but none when one is taken. */
module Wakeup {
  type Payload = seq<int>

  function Bytes(n: nat): (p: Payload)
    ensures |p| == n
  {
    seq(n, _ => 0)
  }

  function Min(a: int, b: int): int { if a < b then a else b }

  // ----- The broker: one reader is woken per message

  /** A reader and the size it asks for. */
  datatype Reader = Reader(id: nat, expected: nat)

  /** One pipe of the broker.  A reader that has been notified still has to look at the queue again. */
  datatype BrokerPipe = BrokerPipe(queue: seq<Payload>, asleep: seq<Reader>, notified: seq<Reader>)

  datatype Outcome = Taken(payload: Payload) | Sleeps

  const Silent := BrokerPipe([], [], [])

  function Deposit(b: BrokerPipe, payload: Payload): BrokerPipe {
    if b.asleep == [] then b.(queue := b.queue + [payload])
    else BrokerPipe(b.queue + [payload], b.asleep[1..], b.notified + [b.asleep[0]])
  }

  /** A reader looks at the queue, and takes the first payload whatever its size. */
  function Look(b: BrokerPipe, reader: Reader): (BrokerPipe, Outcome) {
    if b.queue != [] then (b.(queue := b.queue[1..]), Taken(b.queue[0]))
    else (b.(asleep := b.asleep + [reader]), Sleeps)
  }

  /** The `k`-th notified reader runs again. */
  function Resume(b: BrokerPipe, k: nat): (BrokerPipe, Outcome)
    requires k < |b.notified|
  {
    Look(b.(notified := b.notified[..k] + b.notified[k + 1..]), b.notified[k])
  }

  datatype BrokerEvent = Write(payload: Payload) | Read(reader: Reader) | Wake(k: nat)

  /** A payload and the reader that took it. */
  datatype Take = Take(payload: Payload, reader: Reader)
  {
    predicate Fits() { |payload| == reader.expected }
  }

  /** The pipe with the history of all payloads written and taken. */
  datatype BrokerRun = BrokerRun(pipe: BrokerPipe, written: seq<Payload>, taken: seq<Take>)

  const FirstRun := BrokerRun(Silent, [], [])

  predicate CanStep(r: BrokerRun, e: BrokerEvent) {
    e.Wake? ==> e.k < |r.pipe.notified|
  }

  function Step(r: BrokerRun, e: BrokerEvent): BrokerRun
    requires CanStep(r, e)
  {
    match e
    case Write(payload) => r.(pipe := Deposit(r.pipe, payload), written := r.written + [payload])
    case Read(reader) => After(r, Look(r.pipe, reader), reader)
    case Wake(k) => After(r, Resume(r.pipe, k), r.pipe.notified[k])
  }

  function After(r: BrokerRun, step: (BrokerPipe, Outcome), reader: Reader): BrokerRun {
    r.(pipe := step.0, taken := r.taken + (if step.1.Taken? then [Take(step.1.payload, reader)] else []))
  }

  ghost predicate Steps(r: BrokerRun, events: seq<BrokerEvent>, end: BrokerRun)
    decreases |events|
  {
    if events == [] then r == end else CanStep(r, events[0]) && Steps(Step(r, events[0]), events[1..], end)
  }

  function Payloads(taken: seq<Take>): (p: seq<Payload>)
    ensures |p| == |taken| && forall k | 0 <= k < |p| :: p[k] == taken[k].payload
  {
    seq(|taken|, k requires 0 <= k < |taken| => taken[k].payload)
  }

  /** Enough readers are under way for the messages that lie there, as far as readers are blocked. */
  predicate EnoughAwake(b: BrokerPipe) {
    |b.notified| >= |b.queue| || b.asleep == []
  }

  predicate BrokerInv(r: BrokerRun) {
    EnoughAwake(r.pipe) && r.written == Payloads(r.taken) + r.pipe.queue
  }

  lemma BrokerStepKeepsInv(r: BrokerRun, e: BrokerEvent)
    requires BrokerInv(r) && CanStep(r, e)
    ensures BrokerInv(Step(r, e))
  {
    match e {
      case Write(payload) =>
        assert r.written + [payload] == Payloads(r.taken) + (r.pipe.queue + [payload]);
      case _ =>
        var next := Step(r, e);
        assert Payloads(next.taken) + next.pipe.queue == Payloads(r.taken) + r.pipe.queue;
    }
  }

  lemma {:induction false} BrokerRunsKeepInv(r: BrokerRun, events: seq<BrokerEvent>, end: BrokerRun)
    requires BrokerInv(r) && Steps(r, events, end)
    ensures BrokerInv(end)
    decreases |events|
  {
    if events != [] {
      BrokerStepKeepsInv(r, events[0]);
      BrokerRunsKeepInv(Step(r, events[0]), events[1..], end);
    }
  }

  /** In every run, the readers that have been notified and have not run yet are at least as many as the
      waiting messages, or as all blocked readers.  So when no notified reader is left to run, there is
      no message or no reader; and payloads are taken, by whomever, in the order in which they were
      written. */
  lemma BrokerLosesNoWakeup(events: seq<BrokerEvent>, end: BrokerRun)
    requires Steps(FirstRun, events, end)
    ensures var b := end.pipe;
      && |b.notified| >= Min(|b.queue|, |b.asleep| + |b.notified|)
      && (b.notified == [] ==> b.queue == [] || b.asleep == [])
      && end.written == Payloads(end.taken) + b.queue
  {
    BrokerRunsKeepInv(FirstRun, events, end);
  }

  // ----- The broker loses payloads that do not fit

  /** All payloads that were taken went to a reader that had asked for their size; the others are answered
      with an error and are gone. */
  predicate NothingLost(r: BrokerRun) {
    forall k | 0 <= k < |r.taken| :: r.taken[k].Fits()
  }

  /** The sizes that are written, and the sizes that are asked for. */
  predicate HasSizes(events: seq<BrokerEvent>, writes: set<nat>, asks: set<nat>) {
    forall k | 0 <= k < |events| ::
      match events[k]
      case Write(payload) => |payload| in writes
      case Read(reader) => reader.expected in asks
      case Wake(_) => true
  }

  /** A write of one size and a read of another. */
  function UnluckyRead(written: nat, asked: nat): seq<BrokerEvent> {
    [Write(Bytes(written)), Read(Reader(0, asked))]
  }

  lemma UnluckyReadLosesThePayload(written: nat, asked: nat)
    ensures Steps(FirstRun, UnluckyRead(written, asked),
                  BrokerRun(Silent, [Bytes(written)], [Take(Bytes(written), Reader(0, asked))]))
    ensures HasSizes(UnluckyRead(written, asked), {written}, {asked})
    ensures NothingLost(BrokerRun(Silent, [Bytes(written)], [Take(Bytes(written), Reader(0, asked))])) <==> written == asked
  {
    var one := Step(FirstRun, Write(Bytes(written)));
    var two := Step(one, Read(Reader(0, asked)));
    var end := BrokerRun(Silent, [Bytes(written)], [Take(Bytes(written), Reader(0, asked))]);
    assert two == end;
    assert UnluckyRead(written, asked)[1..] == [Read(Reader(0, asked))];
    assert [Read(Reader(0, asked))][1..] == [];
    assert Steps(two, [], end);
    assert Steps(one, [Read(Reader(0, asked))], end);
    assert !end.taken[0].Fits() <==> written != asked;
  }

  predicate SizesIn(b: BrokerPipe, size: nat) {
    && (forall k | 0 <= k < |b.queue| :: |b.queue[k]| == size)
    && (forall k | 0 <= k < |b.asleep| :: b.asleep[k].expected == size)
    && (forall k | 0 <= k < |b.notified| :: b.notified[k].expected == size)
  }

  lemma {:induction false} OneSizeLosesNothing(
      r: BrokerRun, events: seq<BrokerEvent>, end: BrokerRun, writes: set<nat>, asks: set<nat>, size: nat)
    requires NothingLost(r) && SizesIn(r.pipe, size) && Steps(r, events, end) && HasSizes(events, writes, asks)
    requires writes <= {size} && asks <= {size}
    ensures NothingLost(end)
    decreases |events|
  {
    if events != [] {
      OneSizeStep(r, events[0], size);
      OneSizeLosesNothing(Step(r, events[0]), events[1..], end, writes, asks, size);
    }
  }

  lemma OneSizeStep(r: BrokerRun, e: BrokerEvent, size: nat)
    requires NothingLost(r) && SizesIn(r.pipe, size) && CanStep(r, e)
    requires (e.Write? ==> |e.payload| == size) && (e.Read? ==> e.reader.expected == size)
    ensures NothingLost(Step(r, e)) && SizesIn(Step(r, e).pipe, size)
  {
  }

  /** Without a write nothing is taken, and without a read neither. */
  lemma {:induction false} OneSidedTakesNothing(
      r: BrokerRun, events: seq<BrokerEvent>, end: BrokerRun, writes: set<nat>, asks: set<nat>)
    requires Steps(r, events, end) && HasSizes(events, writes, asks) && r.taken == []
    requires (writes == {} && r.pipe.queue == []) || (asks == {} && r.pipe.asleep == r.pipe.notified == [])
    ensures end.taken == []
    decreases |events|
  {
    if events != [] {
      var e := events[0];
      assert e.Write? ==> |e.payload| in writes;
      assert e.Read? ==> e.reader.expected in asks;
      OneSidedTakesNothing(Step(r, e), events[1..], end, writes, asks);
    }
  }

  /** When does a read wait for a payload of its own size?  No run loses a payload if and only if all
      sizes that are written equal all sizes that are asked for. */
  lemma NothingIsLostIfAllSizesAgree(writes: set<nat>, asks: set<nat>)
    ensures (forall events, end | Steps(FirstRun, events, end) && HasSizes(events, writes, asks) :: NothingLost(end))
            <==> forall w, a | w in writes && a in asks :: w == a
  {
    if w, a :| w in writes && a in asks && w != a {
      UnluckyReadLosesThePayload(w, a);
      assert HasSizes(UnluckyRead(w, a), writes, asks);
    } else {
      forall events, end | Steps(FirstRun, events, end) && HasSizes(events, writes, asks) ensures NothingLost(end) {
        AgreeingSizesLoseNothing(writes, asks, events, end);
      }
    }
  }

  lemma AgreeingSizesLoseNothing(writes: set<nat>, asks: set<nat>, events: seq<BrokerEvent>, end: BrokerRun)
    requires forall w, a | w in writes && a in asks :: w == a
    requires Steps(FirstRun, events, end) && HasSizes(events, writes, asks)
    ensures NothingLost(end)
  {
    if writes == {} || asks == {} {
      OneSidedTakesNothing(FirstRun, events, end, writes, asks);
    } else {
      var size :| size in writes;
      var ask :| ask in asks;
      assert ask == size;
      OneSizeLosesNothing(FirstRun, events, end, writes, asks, size);
    }
  }

  // ----- The broker itself: a pipe for every name, and the answers to its clients

  datatype Answer = Accepted | Delivered(payload: Payload) | Mismatch(expected: nat, got: nat) | Refused | Pending

  class PipeBroker {
    const maxPayload: nat
    var pipes: map<string, BrokerPipe>

    constructor (maxPayload: nat)
      ensures this.maxPayload == maxPayload && pipes == map[]
    {
      this.maxPayload := maxPayload;
      pipes := map[];
    }

    function Pipe(name: string): BrokerPipe
      reads this
    {
      if name in pipes then pipes[name] else Silent
    }

    /** A write is queued last and wakes one reader, the one that has slept longest, unless none sleeps. */
    method Put(name: string, payload: Payload) returns (answer: Answer)
      modifies this
      ensures answer == if |payload| <= maxPayload then Accepted else Refused
      ensures pipes == if |payload| <= maxPayload then old(pipes)[name := Deposit(old(Pipe(name)), payload)] else old(pipes)
      ensures answer == Accepted ==>
        && Pipe(name).queue == old(Pipe(name)).queue + [payload]
        && Pipe(name).notified + Pipe(name).asleep == old(Pipe(name)).notified + old(Pipe(name)).asleep
        && |Pipe(name).asleep| == if old(Pipe(name)).asleep == [] then 0 else |old(Pipe(name)).asleep| - 1
    {
      if |payload| > maxPayload {
        return Refused;
      }
      var b := Pipe(name);
      b := b.(queue := b.queue + [payload]);
      if b.asleep != [] {
        b := b.(notified := b.notified + [b.asleep[0]], asleep := b.asleep[1..]);
      }
      pipes := pipes[name := b];
      answer := Accepted;
    }

    /** A request to read; a payload of another size than expected is taken all the same, and lost. */
    method Get(name: string, reader: Reader) returns (answer: Answer)
      modifies this
      ensures reader.expected > maxPayload ==> answer == Refused && pipes == old(pipes)
      ensures reader.expected <= maxPayload ==> pipes == old(pipes)[name := Look(old(Pipe(name)), reader).0]
      ensures reader.expected <= maxPayload ==> IsAnswer(answer, reader.expected, old(Pipe(name)).queue, Pipe(name).queue)
    {
      if reader.expected > maxPayload {
        return Refused;
      }
      answer := Serve(name, Pipe(name), reader);
    }

    /** The `k`-th notified reader of a pipe goes on. */
    method Wake(name: string, k: nat) returns (answer: Answer)
      requires k < |Pipe(name).notified|
      modifies this
      ensures pipes == old(pipes)[name := Resume(old(Pipe(name)), k).0]
      ensures IsAnswer(answer, old(Pipe(name)).notified[k].expected, old(Pipe(name)).queue, Pipe(name).queue)
    {
      var b := Pipe(name);
      var reader := b.notified[k];
      answer := Serve(name, b.(notified := b.notified[..k] + b.notified[k + 1..]), reader);
    }

    method Serve(name: string, b: BrokerPipe, reader: Reader) returns (answer: Answer)
      modifies this
      ensures pipes == old(pipes)[name := Look(b, reader).0]
      ensures IsAnswer(answer, reader.expected, b.queue, Pipe(name).queue)
    {
      if b.queue == [] {
        pipes := pipes[name := b.(asleep := b.asleep + [reader])];
        return Pending;
      }
      pipes := pipes[name := b.(queue := b.queue[1..])];
      answer := if |b.queue[0]| != reader.expected then Mismatch(reader.expected, |b.queue[0]|) else Delivered(b.queue[0]);
    }

    /** A delivered payload has the size that was asked for and was the first in the queue; after a
        mismatch the first one is gone and nobody has it; a reader is kept waiting by an empty queue only. */
    static predicate IsAnswer(answer: Answer, expected: nat, before: seq<Payload>, after: seq<Payload>) {
      match answer
      case Delivered(payload) => |payload| == expected && before == [payload] + after
      case Mismatch(asked, got) => before != [] && asked == expected != got == |before[0]| && after == before[1..]
      case Pending => before == after == []
      case _ => false
    }
  }

  // ----- Router and gateway: all readers are woken by a message, none by a read

  /** A pipe with its blocked readers; `asleep` and `notified` give the size that each one waits for.  The
      gateway notifies after it has released its lock: `pending` counts the notifications to come.  The
      router notifies at once, so its runs are those in which `Notifies` follows every `Arrives`. */
  datatype SizedPipe = SizedPipe(queue: seq<Payload>, asleep: map<nat, nat>, notified: map<nat, nat>, pending: nat)

  datatype SizedEvent = Arrives(payload: Payload) | Notifies | Asks(reader: nat, bytes: nat) | Awakes(reader: nat)

  predicate Ready(queue: seq<Payload>, bytes: nat) {
    queue != [] && |queue[0]| == bytes
  }

  function SizedLook(s: SizedPipe, reader: nat, bytes: nat): SizedPipe {
    if Ready(s.queue, bytes) then s.(queue := s.queue[1..]) else s.(asleep := s.asleep[reader := bytes])
  }

  /** With `alone`, a reader asks only when no other one is blocked on the pipe. */
  predicate SizedCan(alone: bool, s: SizedPipe, e: SizedEvent) {
    match e
    case Arrives(_) => true
    case Notifies => s.pending > 0
    case Asks(reader, _) =>
      reader !in s.asleep && reader !in s.notified && (alone ==> s.asleep == map[] && s.notified == map[])
    case Awakes(reader) => reader in s.notified
  }

  function SizedStep(s: SizedPipe, e: SizedEvent): SizedPipe
    requires SizedCan(false, s, e)
  {
    match e
    case Arrives(payload) => s.(queue := s.queue + [payload], pending := s.pending + 1)
    case Notifies => s.(asleep := map[], notified := s.notified + s.asleep, pending := s.pending - 1)
    case Asks(reader, bytes) => SizedLook(s, reader, bytes)
    case Awakes(reader) => SizedLook(s.(notified := s.notified - {reader}), reader, s.notified[reader])
  }

  ghost predicate SizedSteps(alone: bool, s: SizedPipe, events: seq<SizedEvent>, end: SizedPipe)
    decreases |events|
  {
    if events == [] then s == end
    else SizedCan(alone, s, events[0]) && SizedSteps(alone, SizedStep(s, events[0]), events[1..], end)
  }

  /** Readers ask only for sizes `a` and `b`. */
  predicate AskOnly(events: seq<SizedEvent>, a: nat, b: nat) {
    forall i | 0 <= i < |events| && events[i].Asks? :: events[i].bytes == a || events[i].bytes == b
  }

  /** A reader sleeps although the payload it waits for is at the head, and no notification is on its way. */
  predicate LostWakeup(s: SizedPipe) {
    s.pending == 0 && exists r | r in s.asleep :: Ready(s.queue, s.asleep[r])
  }

  const NoOne := SizedPipe([], map[], map[], 0)

  predicate AtMostOne(m: map<nat, nat>) {
    forall x, y | x in m && y in m :: x == y
  }

  /** There is at most one blocked reader. */
  predicate OneOut(s: SizedPipe) {
    AtMostOne(s.asleep) && AtMostOne(s.notified) && (s.asleep == map[] || s.notified == map[])
  }

  lemma OneOutStep(s: SizedPipe, e: SizedEvent)
    requires OneOut(s) && !LostWakeup(s) && SizedCan(true, s, e)
    ensures OneOut(SizedStep(s, e)) && !LostWakeup(SizedStep(s, e))
  {
    if e.Awakes? {
      assert forall x | x in s.notified :: x == e.reader;
      assert s.notified - {e.reader} == map[];
    }
  }

  lemma {:induction false} OneOutRun(s: SizedPipe, events: seq<SizedEvent>, end: SizedPipe)
    requires OneOut(s) && !LostWakeup(s) && SizedSteps(true, s, events, end)
    ensures !LostWakeup(end)
    decreases |events|
  {
    if events != [] {
      OneOutStep(s, events[0]);
      OneOutRun(SizedStep(s, events[0]), events[1..], end);
    }
  }

  /** With one outstanding reader per pipe, as blocking endpoints have it, no wakeup is lost, whatever the
      sizes of payloads and reads. */
  lemma OneReaderIsSafe(events: seq<SizedEvent>, end: SizedPipe)
    requires SizedSteps(true, NoOne, events, end)
    ensures !LostWakeup(end)
  {
    OneOutRun(NoOne, events, end);
  }

  predicate OneSize(s: SizedPipe, a: nat) {
    (forall r | r in s.asleep :: s.asleep[r] == a) && (forall r | r in s.notified :: s.notified[r] == a)
  }

  lemma OneSizeKeeps(s: SizedPipe, e: SizedEvent, a: nat)
    requires OneSize(s, a) && !LostWakeup(s) && SizedCan(false, s, e) && (e.Asks? ==> e.bytes == a)
    ensures OneSize(SizedStep(s, e), a) && !LostWakeup(SizedStep(s, e))
  {
    if e.Awakes? && Ready(s.queue, a) {
      assert SizedStep(s, e).asleep == s.asleep;
    }
  }

  lemma {:induction false} OneSizeIsSafe(s: SizedPipe, events: seq<SizedEvent>, end: SizedPipe, a: nat)
    requires OneSize(s, a) && !LostWakeup(s) && SizedSteps(false, s, events, end) && AskOnly(events, a, a)
    ensures !LostWakeup(end)
    decreases |events|
  {
    if events != [] {
      OneSizeKeeps(s, events[0], a);
      assert AskOnly(events[1..], a, a);
      OneSizeIsSafe(SizedStep(s, events[0]), events[1..], end, a);
    }
  }

  /** Reader 1 waits for `a` bytes and reader 2 for `b`; a payload of each size arrives, the one for
      reader 2 first.  Reader 1 goes back to sleep in front of it, and nobody wakes it up when reader 2
      has taken it away. */
  function UnluckyRun(a: nat, b: nat): seq<SizedEvent> {
    [Asks(1, a), Asks(2, b), Arrives(Bytes(b)), Notifies, Arrives(Bytes(a)), Notifies, Awakes(1), Awakes(2)]
  }

  lemma UnluckyRunLosesAWakeup(a: nat, b: nat)
    requires a != b
    ensures SizedSteps(false, NoOne, UnluckyRun(a, b), SizedPipe([Bytes(a)], map[1 := a], map[], 0))
    ensures AskOnly(UnluckyRun(a, b), a, b) && LostWakeup(SizedPipe([Bytes(a)], map[1 := a], map[], 0))
  {
    var s6 := SizedPipe([Bytes(b), Bytes(a)], map[], map[1 := a, 2 := b], 0);
    var s8 := SizedPipe([Bytes(a)], map[1 := a], map[], 0);
    BothAsk(a, b);
    BothAwake(a, b);
    StepsThen(NoOne, AskAndArrive(a, b), s6, [Awakes(1), Awakes(2)], s8);
    assert UnluckyRun(a, b) == AskAndArrive(a, b) + [Awakes(1), Awakes(2)];
    assert 1 in s8.asleep;
  }

  function AskAndArrive(a: nat, b: nat): seq<SizedEvent> {
    [Asks(1, a), Asks(2, b)] + [Arrives(Bytes(b)), Notifies] + [Arrives(Bytes(a)), Notifies]
  }

  lemma BothAsk(a: nat, b: nat)
    requires a != b
    ensures SizedSteps(false, NoOne, AskAndArrive(a, b), SizedPipe([Bytes(b), Bytes(a)], map[], map[1 := a, 2 := b], 0))
  {
    var readers := map[1 := a, 2 := b];
    var s2 := SizedPipe([], readers, map[], 0);
    var s4 := SizedPipe([Bytes(b)], map[], readers, 0);
    var s6 := SizedPipe([Bytes(b), Bytes(a)], map[], readers, 0);
    TwoSteps(NoOne, Asks(1, a), SizedPipe([], map[1 := a], map[], 0), Asks(2, b), s2);
    TwoSteps(s2, Arrives(Bytes(b)), SizedPipe([Bytes(b)], readers, map[], 1), Notifies, s4);
    TwoSteps(s4, Arrives(Bytes(a)), SizedPipe([Bytes(b), Bytes(a)], map[], readers, 1), Notifies, s6);
    StepsThen(NoOne, [Asks(1, a), Asks(2, b)], s2, [Arrives(Bytes(b)), Notifies], s4);
    StepsThen(NoOne, [Asks(1, a), Asks(2, b)] + [Arrives(Bytes(b)), Notifies], s4, [Arrives(Bytes(a)), Notifies], s6);
  }

  lemma BothAwake(a: nat, b: nat)
    requires a != b
    ensures SizedSteps(false, SizedPipe([Bytes(b), Bytes(a)], map[], map[1 := a, 2 := b], 0), [Awakes(1), Awakes(2)],
                       SizedPipe([Bytes(a)], map[1 := a], map[], 0))
  {
    var s6 := SizedPipe([Bytes(b), Bytes(a)], map[], map[1 := a, 2 := b], 0);
    var s7 := SizedPipe([Bytes(b), Bytes(a)], map[1 := a], map[2 := b], 0);
    assert s6.notified - {1} == map[2 := b] && s7.notified - {2} == map[];
    TwoSteps(s6, Awakes(1), s7, Awakes(2), SizedPipe([Bytes(a)], map[1 := a], map[], 0));
  }

  lemma TwoSteps(s: SizedPipe, e: SizedEvent, t: SizedPipe, f: SizedEvent, u: SizedPipe)
    requires SizedCan(false, s, e) && SizedStep(s, e) == t && SizedCan(false, t, f) && SizedStep(t, f) == u
    ensures SizedSteps(false, s, [e, f], u)
  {
    assert [e, f][1..] == [f] && [f][1..] == [];
    assert SizedSteps(false, u, [], u);
    assert SizedSteps(false, t, [f], u);
  }

  lemma {:induction false} StepsThen(s: SizedPipe, a: seq<SizedEvent>, t: SizedPipe, b: seq<SizedEvent>, u: SizedPipe)
    requires SizedSteps(false, s, a, t) && SizedSteps(false, t, b, u)
    ensures SizedSteps(false, s, a + b, u)
    decreases |a|
  {
    if a == [] {
      assert a + b == b;
    } else {
      assert (a + b)[1..] == a[1..] + b;
      StepsThen(SizedStep(s, a[0]), a[1..], t, b, u);
    }
  }

  /** Waking by arrivals only is enough exactly if there is one reader at a time, or all readers of a pipe
      ask for the same size. */
  lemma WhenWakeupsSuffice(alone: bool, a: nat, b: nat)
    ensures (forall events, end | SizedSteps(alone, NoOne, events, end) && AskOnly(events, a, b) :: !LostWakeup(end))
            <==> alone || a == b
  {
    if alone {
      forall events, end | SizedSteps(alone, NoOne, events, end) ensures !LostWakeup(end) {
        OneReaderIsSafe(events, end);
      }
    } else if a == b {
      forall events, end | SizedSteps(alone, NoOne, events, end) && AskOnly(events, a, b) ensures !LostWakeup(end) {
        OneSizeIsSafe(NoOne, events, end, a);
      }
    } else {
      UnluckyRunLosesAWakeup(a, b);
    }
  }
}
