/** The collector's transport metrics: which write a read has consumed, how long both ends were ready,
    and what is conserved on the way from the log to the totals. */
module TransferMetrics {
  import opened Options
  import opened Intervals

  datatype Operation = W | R | Foreign

  datatype Scope = SameWorker | SameHost | CrossHost | OtherScope(text: string)

  /** A log record; absent or ill-typed fields are `None`, an absent pipe name is empty. */
  datatype Record = Record(
    operation: Operation, pipe: string, bytes: Option<int>, source: Option<int>, peer: Option<int>,
    scope: Option<Scope>, started: Option<int>, finished: Option<int>)

  datatype Key = Key(writer: int, reader: int, pipe: string, bytes: int)

  /** Names a FIFO item by the workers of its producer and consumer, its pipe and its size. */
  function TransferKey(r: Record): Option<Key> {
    if r.pipe == "" || r.source.None? || r.peer.None? || r.bytes.None? then None
    else
      match r.operation
      case W => Some(Key(r.source.value, r.peer.value, r.pipe, r.bytes.value))
      case R => Some(Key(r.peer.value, r.source.value, r.pipe, r.bytes.value))
      case Foreign => None
  }

  /** Old records carry no scope. */
  function ClassifyScope(r: Record): Scope {
    if r.scope.Some? then r.scope.value
    else if (if r.source.Some? then r.source.value else -1) == (if r.peer.Some? then r.peer.value else -2) then SameWorker
    else SameHost
  }

  datatype Group = All | SameLogicalWorker | CrossLegosim | CrossPhysicalHost

  predicate InGroup(g: Group, scope: Scope) {
    match g
    case All => true
    case SameLogicalWorker => scope == SameWorker
    case CrossLegosim => scope != SameWorker
    case CrossPhysicalHost => scope == CrossHost
  }

  // ----- Filtering and sorting records

  function Filter(s: seq<Record>, p: Record -> bool): seq<Record> {
    if s == [] then [] else (if p(s[0]) then [s[0]] else []) + Filter(s[1..], p)
  }

  function HasKey(op: Operation, key: Key): Record -> bool {
    (r: Record) => r.operation == op && TransferKey(r) == Some(key)
  }

  function OnPipe(op: Operation, pipe: string): Record -> bool {
    (r: Record) => r.operation == op && r.pipe == pipe
  }

  function HasSize(bytes: int): Record -> bool {
    (r: Record) => r.bytes == Some(bytes)
  }

  lemma {:induction false} FilterCount(s: seq<Record>, p: Record -> bool, x: Record)
    ensures multiset(Filter(s, p))[x] == if p(x) then multiset(s)[x] else 0
    decreases |s|
  {
    if s != [] {
      FilterCount(s[1..], p, x);
      assert s == [s[0]] + s[1..];
      assert multiset(Filter(s, p)) == multiset(if p(s[0]) then [s[0]] else []) + multiset(Filter(s[1..], p));
    }
  }

  /** A field with a time; a missing one counts as -1. */
  function Clock(t: Option<int>): (c: int)
    ensures t.Some? ==> c == t.value
    ensures t.None? ==> c == -1
  {
    if t.Some? then t.value else -1
  }

  /** Writes are ordered by their start, reads by their end. */
  function Time(op: Operation, r: Record): int {
    Clock(if op == W then r.started else r.finished)
  }

  /** Stable insertion: behind all records that are not later. */
  function Placed(op: Operation, s: seq<Record>, x: Record): seq<Record> {
    if s != [] && Time(op, s[|s| - 1]) > Time(op, x) then Placed(op, s[..|s| - 1], x) + [s[|s| - 1]] else s + [x]
  }

  function ByTime(op: Operation, s: seq<Record>): seq<Record> {
    if s == [] then [] else Placed(op, ByTime(op, s[..|s| - 1]), s[|s| - 1])
  }

  predicate InOrder(op: Operation, s: seq<Record>) {
    forall i, j | 0 <= i < j < |s| :: Time(op, s[i]) <= Time(op, s[j])
  }

  predicate StrictlyInOrder(op: Operation, s: seq<Record>) {
    forall i, j | 0 <= i < j < |s| :: Time(op, s[i]) < Time(op, s[j])
  }

  lemma {:induction false} PlacedIsPermutation(op: Operation, s: seq<Record>, x: Record)
    ensures multiset(Placed(op, s, x)) == multiset(s) + multiset{x}
    decreases |s|
  {
    if s != [] && Time(op, s[|s| - 1]) > Time(op, x) {
      FrontAndLast(s);
      PlacedIsPermutation(op, s[..|s| - 1], x);
    }
  }

  lemma {:induction false} PlacedIsInOrder(op: Operation, s: seq<Record>, x: Record)
    requires InOrder(op, s)
    ensures InOrder(op, Placed(op, s, x))
    decreases |s|
  {
    if s != [] && Time(op, s[|s| - 1]) > Time(op, x) {
      var front, last := s[..|s| - 1], s[|s| - 1];
      PlacedIsPermutation(op, front, x);
      PlacedIsInOrder(op, front, x);
      LaterThanAll(op, Placed(op, front, x), front, x, last);
    }
  }

  lemma FrontAndLast(s: seq<Record>)
    requires s != []
    ensures s == s[..|s| - 1] + [s[|s| - 1]]
  {
  }

  lemma LaterThanAll(op: Operation, placed: seq<Record>, s: seq<Record>, x: Record, last: Record)
    requires InOrder(op, placed) && multiset(placed) == multiset(s) + multiset{x}
    requires Time(op, x) <= Time(op, last) && forall k | 0 <= k < |s| :: Time(op, s[k]) <= Time(op, last)
    ensures InOrder(op, placed + [last])
  {
    forall k | 0 <= k < |placed| ensures Time(op, placed[k]) <= Time(op, last) {
      assert placed[k] in multiset(placed);
    }
  }

  lemma {:induction false} ByTimeIsInOrder(op: Operation, s: seq<Record>)
    ensures InOrder(op, ByTime(op, s)) && multiset(ByTime(op, s)) == multiset(s)
    decreases |s|
  {
    if s != [] {
      ByTimeIsInOrder(op, s[..|s| - 1]);
      PlacedIsPermutation(op, ByTime(op, s[..|s| - 1]), s[|s| - 1]);
      PlacedIsInOrder(op, ByTime(op, s[..|s| - 1]), s[|s| - 1]);
      assert s == s[..|s| - 1] + [s[|s| - 1]];
    }
  }

  /** The collector's sorting, by the fields of the records: writes by their start and reads by their end,
      and records with one and the same time stay in the order of the log. */
  lemma SortedByFields(s: seq<Record>, t: int)
    ensures forall i, j | 0 <= i < j < |ByTime(W, s)| :: Clock(ByTime(W, s)[i].started) <= Clock(ByTime(W, s)[j].started)
    ensures forall i, j | 0 <= i < j < |ByTime(R, s)| :: Clock(ByTime(R, s)[i].finished) <= Clock(ByTime(R, s)[j].finished)
    ensures multiset(ByTime(W, s)) == multiset(ByTime(R, s)) == multiset(s)
    ensures Filter(ByTime(W, s), (r: Record) => Clock(r.started) == t) == Filter(s, (r: Record) => Clock(r.started) == t)
    ensures Filter(ByTime(R, s), (r: Record) => Clock(r.finished) == t) == Filter(s, (r: Record) => Clock(r.finished) == t)
  {
    ByTimeIsInOrder(W, s);
    ByTimeIsInOrder(R, s);
    ByTimeIsStable(W, s, t, (r: Record) => Clock(r.started) == t);
    ByTimeIsStable(R, s, t, (r: Record) => Clock(r.finished) == t);
  }

  lemma {:induction false} ByTimeIsStable(op: Operation, s: seq<Record>, t: int, p: Record -> bool)
    requires forall r :: p(r) == (Time(op, r) == t)
    ensures Filter(ByTime(op, s), p) == Filter(s, p)
    decreases |s|
  {
    if s != [] {
      var front, last := s[..|s| - 1], s[|s| - 1];
      ByTimeIsStable(op, front, t, p);
      PlacedIsStable(op, ByTime(op, front), last, t, p);
      FilterAppend(front, last, p);
      FrontAndLast(s);
    }
  }

  lemma {:induction false} PlacedIsStable(op: Operation, s: seq<Record>, x: Record, t: int, p: Record -> bool)
    requires forall r :: p(r) == (Time(op, r) == t)
    ensures Filter(Placed(op, s, x), p) == Filter(s, p) + (if p(x) then [x] else [])
    decreases |s|
  {
    if s != [] && Time(op, s[|s| - 1]) > Time(op, x) {
      var front, last := s[..|s| - 1], s[|s| - 1];
      PlacedIsStable(op, front, x, t, p);
      FilterAppend(Placed(op, front, x), last, p);
      FilterAppend(front, last, p);
      FrontAndLast(s);
      assert !(p(x) && p(last));
    } else {
      FilterAppend(s, x, p);
    }
  }

  /** Records with different times have only one order. */
  lemma {:induction false} OrderIsUnique(op: Operation, a: seq<Record>, t: seq<Record>)
    requires InOrder(op, a) && StrictlyInOrder(op, t) && multiset(a) == multiset(t)
    ensures a == t
    decreases |a|
  {
    assert |multiset(a)| == |a| && |multiset(t)| == |t|;
    if a != [] {
      assert a[0] in multiset(t) && t[0] in multiset(a);
      assert a[0] == t[0];
      WithoutFirst(a);
      WithoutFirst(t);
      OrderIsUnique(op, a[1..], t[1..]);
    }
  }

  lemma WithoutFirst(s: seq<Record>)
    requires s != []
    ensures s == [s[0]] + s[1..] && multiset(s[1..]) == multiset(s) - multiset{s[0]}
  {
    assert s == [s[0]] + s[1..];
  }

  lemma {:induction false} FilterMember(s: seq<Record>, p: Record -> bool, x: Record)
    requires x in Filter(s, p)
    ensures x in s && p(x)
    decreases |s|
  {
    if s != [] && x in Filter(s[1..], p) {
      FilterMember(s[1..], p, x);
    }
  }

  lemma {:induction false} FilterKeepsOrder(op: Operation, s: seq<Record>, p: Record -> bool)
    requires StrictlyInOrder(op, s)
    ensures StrictlyInOrder(op, Filter(s, p))
    decreases |s|
  {
    if s != [] {
      FilterKeepsOrder(op, s[1..], p);
      forall k | 0 <= k < |Filter(s[1..], p)| ensures Time(op, s[0]) < Time(op, Filter(s[1..], p)[k]) {
        FilterMember(s[1..], p, Filter(s[1..], p)[k]);
      }
    }
  }

  // ----- Pairing

  function Select(log: seq<Record>, op: Operation, key: Key): seq<Record> {
    Filter(log, HasKey(op, key))
  }

  function Zip(a: seq<Record>, b: seq<Record>): seq<(Record, Record)> {
    if a == [] || b == [] then [] else [(a[0], b[0])] + Zip(a[1..], b[1..])
  }

  /** The pairs that the collector forms under one key: k-th write with k-th read. */
  function Paired(log: seq<Record>, key: Key): seq<(Record, Record)> {
    Zip(ByTime(W, Select(log, W, key)), ByTime(R, Select(log, R, key)))
  }

  /** Each operation starts, or ends, later than the one before. */
  predicate StartsRise(s: seq<Record>) {
    forall i, j | 0 <= i < j < |s| :: Clock(s[i].started) < Clock(s[j].started)
  }

  predicate EndsRise(s: seq<Record>) {
    forall i, j | 0 <= i < j < |s| :: Clock(s[i].finished) < Clock(s[j].finished)
  }

  /** What happened on a pipe that works as a FIFO between one sequential writer and one sequential
      reader: the k-th read has consumed the k-th write, and asked for its size. */
  ghost predicate FifoHistory(writes: seq<Record>, rs: seq<Record>, writer: int, reader: int, pipe: string) {
    && pipe != ""
    && (forall k | 0 <= k < |writes| :: writes[k].operation == W && writes[k].pipe == pipe && writes[k].bytes.Some?
                                        && writes[k].source == Some(writer) && writes[k].peer == Some(reader))
    && (forall k | 0 <= k < |rs| :: rs[k].operation == R && rs[k].pipe == pipe
                                    && rs[k].source == Some(reader) && rs[k].peer == Some(writer))
    && StartsRise(writes) && EndsRise(rs)
    && |rs| <= |writes| && forall k | 0 <= k < |rs| :: rs[k].bytes == writes[k].bytes
  }

  /** The log holds exactly the operations of this history for the pipe, anywhere and in any order. */
  ghost predicate Logged(log: seq<Record>, writes: seq<Record>, rs: seq<Record>, pipe: string) {
    && multiset(Filter(log, OnPipe(W, pipe))) == multiset(writes)
    && multiset(Filter(log, OnPipe(R, pipe))) == multiset(rs)
  }

  /** The true pairs of one size, in the order of the pipe. */
  function Consumed(writes: seq<Record>, rs: seq<Record>, bytes: int): seq<(Record, Record)>
    requires |rs| <= |writes|
  {
    if rs == [] then []
    else (if rs[0].bytes == Some(bytes) then [(writes[0], rs[0])] else []) + Consumed(writes[1..], rs[1..], bytes)
  }

  function OfSize(s: seq<Record>, bytes: int): seq<Record> {
    Filter(s, HasSize(bytes))
  }

  /** The pairing is the truth: under every key it yields exactly the pairs of a write and the read that
      consumed it, whatever else the log contains and however it is ordered. */
  lemma PairingIsTheTruth(log: seq<Record>, writes: seq<Record>, rs: seq<Record>, writer: int, reader: int, pipe: string, bytes: int)
    requires FifoHistory(writes, rs, writer, reader, pipe) && Logged(log, writes, rs, pipe)
    ensures Paired(log, Key(writer, reader, pipe, bytes)) == Consumed(writes, rs, bytes)
    ensures forall pair :: pair in Paired(log, Key(writer, reader, pipe, bytes)) <==> IsTransfer(writes, rs, bytes, pair)
    ensures AllDifferent(Paired(log, Key(writer, reader, pipe, bytes)))
  {
    var key := Key(writer, reader, pipe, bytes);
    forall pair ensures pair in Consumed(writes, rs, bytes) <==> IsTransfer(writes, rs, bytes, pair) {
      ConsumedByIndex(writes, rs, bytes, pair);
    }
    ConsumedOnce(writes, rs, bytes);
    SelectedInOrder(log, W, writes, key);
    SelectedInOrder(log, R, rs, key);
    ZipIsConsumed(writes, rs, bytes);
  }

  /** Some k-th write of this size, and the k-th read. */
  ghost predicate IsTransfer(writes: seq<Record>, rs: seq<Record>, bytes: int, pair: (Record, Record)) {
    exists k :: 0 <= k < |rs| && k < |writes| && rs[k].bytes == Some(bytes) && pair == (writes[k], rs[k])
  }

  lemma {:induction false} ConsumedByIndex(writes: seq<Record>, rs: seq<Record>, bytes: int, pair: (Record, Record))
    requires |rs| <= |writes|
    ensures pair in Consumed(writes, rs, bytes) <==> IsTransfer(writes, rs, bytes, pair)
    decreases |rs|
  {
    if rs != [] {
      ConsumedByIndex(writes[1..], rs[1..], bytes, pair);
      if pair in Consumed(writes[1..], rs[1..], bytes) {
        var k :| 0 <= k < |rs[1..]| && rs[1..][k].bytes == Some(bytes) && pair == (writes[1..][k], rs[1..][k]);
        assert rs[k + 1].bytes == Some(bytes) && pair == (writes[k + 1], rs[k + 1]);
      }
      if k :| 0 < k < |rs| && rs[k].bytes == Some(bytes) && pair == (writes[k], rs[k]) {
        assert rs[1..][k - 1].bytes == Some(bytes) && pair == (writes[1..][k - 1], rs[1..][k - 1]);
      }
    }
  }

  ghost predicate AllDifferent(pairs: seq<(Record, Record)>) {
    forall i, j | 0 <= i < j < |pairs| :: pairs[i] != pairs[j]
  }

  lemma {:induction false} ConsumedOnce(writes: seq<Record>, rs: seq<Record>, bytes: int)
    requires |rs| <= |writes| && StartsRise(writes)
    ensures AllDifferent(Consumed(writes, rs, bytes))
    decreases |rs|
  {
    if rs != [] {
      ConsumedOnce(writes[1..], rs[1..], bytes);
      if (writes[0], rs[0]) in Consumed(writes[1..], rs[1..], bytes) {
        ConsumedByIndex(writes[1..], rs[1..], bytes, (writes[0], rs[0]));
      }
    }
  }

  lemma SelectedInOrder(log: seq<Record>, op: Operation, s: seq<Record>, key: Key)
    requires op != Foreign && key.pipe != "" && StrictlyInOrder(op, s)
    requires multiset(Filter(log, OnPipe(op, key.pipe))) == multiset(s)
    requires forall k | 0 <= k < |s| ::
      && s[k].operation == op && s[k].pipe == key.pipe
      && s[k].source == Some(if op == W then key.writer else key.reader)
      && s[k].peer == Some(if op == W then key.reader else key.writer)
    ensures ByTime(op, Select(log, op, key)) == OfSize(s, key.bytes)
  {
    var selected, own := Select(log, op, key), OfSize(s, key.bytes);
    forall x ensures multiset(selected)[x] == multiset(own)[x] {
      SelectedAlike(log, op, s, key, x);
    }
    assert multiset(selected) == multiset(own);
    ByTimeIsInOrder(op, selected);
    FilterKeepsOrder(op, s, HasSize(key.bytes));
    OrderIsUnique(op, ByTime(op, selected), own);
  }

  lemma SelectedAlike(log: seq<Record>, op: Operation, s: seq<Record>, key: Key, x: Record)
    requires op != Foreign && key.pipe != ""
    requires multiset(Filter(log, OnPipe(op, key.pipe))) == multiset(s)
    requires forall k | 0 <= k < |s| ::
      && s[k].operation == op && s[k].pipe == key.pipe
      && s[k].source == Some(if op == W then key.writer else key.reader)
      && s[k].peer == Some(if op == W then key.reader else key.writer)
    ensures multiset(Select(log, op, key))[x] == multiset(OfSize(s, key.bytes))[x]
  {
    FilterCount(log, HasKey(op, key), x);
    FilterCount(log, OnPipe(op, key.pipe), x);
    FilterCount(s, HasSize(key.bytes), x);
    if x in multiset(s) {
      assert x in s;
    }
  }

  lemma {:induction false} ZipIsConsumed(writes: seq<Record>, rs: seq<Record>, bytes: int)
    requires |rs| <= |writes| && forall k | 0 <= k < |rs| :: rs[k].bytes == writes[k].bytes
    ensures Zip(OfSize(writes, bytes), OfSize(rs, bytes)) == Consumed(writes, rs, bytes)
    decreases |rs|
  {
    if rs != [] {
      assert forall k | 0 <= k < |rs[1..]| :: rs[1..][k].bytes == writes[1..][k].bytes;
      ZipIsConsumed(writes[1..], rs[1..], bytes);
      FirstOfSize(writes, bytes);
      FirstOfSize(rs, bytes);
      if rs[0].bytes == Some(bytes) {
        ZipFirst(writes[0], OfSize(writes[1..], bytes), rs[0], OfSize(rs[1..], bytes));
      }
    } else {
      assert OfSize(rs, bytes) == [];
    }
  }

  lemma FirstOfSize(s: seq<Record>, bytes: int)
    requires s != []
    ensures OfSize(s, bytes) == if s[0].bytes == Some(bytes) then [s[0]] + OfSize(s[1..], bytes) else OfSize(s[1..], bytes)
  {
  }

  lemma ZipFirst(w: Record, writes: seq<Record>, r: Record, rs: seq<Record>)
    ensures Zip([w] + writes, [r] + rs) == [(w, r)] + Zip(writes, rs)
  {
    assert ([w] + writes)[1..] == writes && ([r] + rs)[1..] == rs;
  }

  // ----- What is measured

  /** From the moment both ends are ready to the end of the read; pairs whose clocks disagree, or with
      missing times, are skipped. */
  function Exposure(pair: (Record, Record)): Option<Interval> {
    var (w, r) := pair;
    if w.started.None? || r.started.None? || r.finished.None? then None
    else
      var start := if w.started.value < r.started.value then r.started.value else w.started.value;
      if r.finished.value < start then None else Some(Interval(start, r.finished.value))
  }

  /** The times of a pair can be used: none is missing, and the read does not end before either start. */
  predicate IsUsable(pair: (Record, Record)) {
    && pair.0.started.Some? && pair.1.started.Some? && pair.1.finished.Some?
    && pair.0.started.value <= pair.1.finished.value && pair.1.started.value <= pair.1.finished.value
  }

  /** At this moment the payload has been submitted, and the reader is blocked on it. */
  predicate IsExposed(pair: (Record, Record), x: int) {
    && IsUsable(pair) && pair.0.started.value <= x && pair.1.started.value <= x < pair.1.finished.value
  }

  lemma ExposureByFields(pair: (Record, Record), x: int)
    ensures Exposure(pair).Some? <==> IsUsable(pair)
    ensures IsUsable(pair) ==> (Covers(Exposure(pair).value, x) <==> IsExposed(pair, x))
    ensures IsUsable(pair) ==>
      var i := Exposure(pair).value;
      && i.finish == pair.1.finished.value && i.start >= pair.0.started.value && i.start >= pair.1.started.value
      && (i.start == pair.0.started.value || i.start == pair.1.started.value)
  {
  }

  /** The measured intervals whose write belongs to a group. */
  function Exposures(pairs: seq<(Record, Record)>, g: Group): seq<Interval> {
    if pairs == [] then []
    else
      var pair := pairs[|pairs| - 1];
      Exposures(pairs[..|pairs| - 1], g)
      + (if Exposure(pair).Some? && InGroup(g, ClassifyScope(pair.0)) then [Exposure(pair).value] else [])
  }

  /** At this moment some pair of the group is exposed. */
  ghost predicate ExposedAmong(pairs: seq<(Record, Record)>, g: Group, x: int) {
    exists pair :: pair in pairs && InGroup(g, ClassifyScope(pair.0)) && IsExposed(pair, x)
  }

  lemma OnePairMore(front: seq<(Record, Record)>, last: (Record, Record), g: Group, x: int)
    ensures ExposedAmong(front + [last], g, x) <==> ExposedAmong(front, g, x) || (InGroup(g, ClassifyScope(last.0)) && IsExposed(last, x))
  {
    assert last in front + [last];
    forall pair | pair in front ensures pair in front + [last] {
    }
  }

  lemma {:induction false} ExposedPoints(pairs: seq<(Record, Record)>, g: Group, x: int)
    ensures x in Points(Exposures(pairs, g)) <==> ExposedAmong(pairs, g, x)
    decreases |pairs|
  {
    if pairs != [] {
      var front, last := pairs[..|pairs| - 1], pairs[|pairs| - 1];
      assert pairs == front + [last];
      ExposedPoints(front, g, x);
      OnePairMore(front, last, g, x);
      ExposureByFields(last, x);
      PointsOfBoth(Exposures(front, g),
                   if Exposure(last).Some? && InGroup(g, ClassifyScope(last.0)) then [Exposure(last).value] else [], x);
      if IsUsable(last) {
        PointOfOne(Exposure(last).value, x);
      }
    }
  }

  lemma PointOfOne(i: Interval, x: int)
    ensures x in Points([i]) <==> Covers(i, x)
  {
    PointsAreCovered([i], x);
  }

  /** How many pairs of a group can be used. */
  function UsableIn(pairs: seq<(Record, Record)>, g: Group): set<int> {
    set k | 0 <= k < |pairs| && IsUsable(pairs[k]) && InGroup(g, ClassifyScope(pairs[k].0))
  }

  lemma OneIndexMore(pairs: seq<(Record, Record)>, g: Group)
    requires pairs != []
    ensures var n := |pairs| - 1;
      |UsableIn(pairs, g)| == |UsableIn(pairs[..n], g)| + if IsUsable(pairs[n]) && InGroup(g, ClassifyScope(pairs[n].0)) then 1 else 0
  {
    var n := |pairs| - 1;
    forall k ensures k in UsableIn(pairs[..n], g) <==> k in UsableIn(pairs, g) && k != n {
      if 0 <= k < n {
        assert pairs[..n][k] == pairs[k];
      }
    }
    OneMoreOrNot(UsableIn(pairs[..n], g), UsableIn(pairs, g), n);
  }

  lemma {:induction false} ExposuresAreUsable(pairs: seq<(Record, Record)>, g: Group)
    ensures |Exposures(pairs, g)| == |UsableIn(pairs, g)|
    decreases |pairs|
  {
    if pairs != [] {
      var n := |pairs| - 1;
      ExposuresAreUsable(pairs[..n], g);
      ExposureByFields(pairs[n], 0);
      OneIndexMore(pairs, g);
    }
  }

  /** The raw intervals of blocking reads in a group. */
  function ReadIntervals(log: seq<Record>, g: Group): seq<Interval> {
    if log == [] then [] else ReadIntervals(log[..|log| - 1], g) + ReadInterval(log[|log| - 1], g)
  }

  function ReadInterval(r: Record, g: Group): seq<Interval> {
    if r.operation == R && InGroup(g, ClassifyScope(r)) && r.started.Some? && r.finished.Some? && r.finished.value >= r.started.value
    then [Interval(r.started.value, r.finished.value)] else []
  }

  /** A read with usable times in a group. */
  predicate IsRead(r: Record, g: Group) {
    && r.operation == R && InGroup(g, ClassifyScope(r))
    && r.started.Some? && r.finished.Some? && r.started.value <= r.finished.value
  }

  /** At this moment some read of the group is blocked. */
  ghost predicate BlockedAt(log: seq<Record>, g: Group, x: int) {
    exists r :: r in log && IsRead(r, g) && r.started.value <= x < r.finished.value
  }

  lemma OneReadMore(front: seq<Record>, last: Record, g: Group, x: int)
    ensures BlockedAt(front + [last], g, x)
      <==> BlockedAt(front, g, x) || (IsRead(last, g) && last.started.value <= x < last.finished.value)
  {
    assert last in front + [last];
    forall r | r in front ensures r in front + [last] {
    }
  }

  lemma {:induction false} ReadPoints(log: seq<Record>, g: Group, x: int)
    ensures x in Points(ReadIntervals(log, g)) <==> BlockedAt(log, g, x)
    decreases |log|
  {
    if log != [] {
      var front, last := log[..|log| - 1], log[|log| - 1];
      FrontAndLast(log);
      ReadPoints(front, g, x);
      OneReadMore(front, last, g, x);
      PointsOfBoth(ReadIntervals(front, g), ReadInterval(last, g), x);
      if IsRead(last, g) {
        PointOfOne(Interval(last.started.value, last.finished.value), x);
      }
    }
  }

  /** Where the log has such reads. */
  function ReadsIn(log: seq<Record>, g: Group): set<int> {
    set k | 0 <= k < |log| && IsRead(log[k], g)
  }

  lemma {:induction false} ReadsAreCounted(log: seq<Record>, g: Group)
    ensures |ReadIntervals(log, g)| == |ReadsIn(log, g)|
    decreases |log|
  {
    if log != [] {
      ReadsAreCounted(log[..|log| - 1], g);
      OneReadIndexMore(log, g);
    }
  }

  lemma OneReadIndexMore(log: seq<Record>, g: Group)
    requires log != []
    ensures |ReadsIn(log, g)| == |ReadsIn(log[..|log| - 1], g)| + if IsRead(log[|log| - 1], g) then 1 else 0
  {
    var n := |log| - 1;
    forall k ensures k in ReadsIn(log[..n], g) <==> k in ReadsIn(log, g) && k != n {
      if 0 <= k < n {
        assert log[..n][k] == log[k];
      }
    }
    OneMoreOrNot(ReadsIn(log[..n], g), ReadsIn(log, g), n);
  }

  /** The groups, by the fields of a record: one without a scope counts as local if its slots agree, where a
      missing source stands for -1 and a missing peer for -2, and never as crossing hosts. */
  lemma GroupsByFields(r: Record)
    ensures InGroup(All, ClassifyScope(r))
    ensures InGroup(SameLogicalWorker, ClassifyScope(r)) <==>
      || r.scope == Some(SameWorker)
      || (r.scope.None? && (if r.source.Some? then r.peer == r.source || (r.peer.None? && r.source == Some(-2)) else r.peer == Some(-1)))
    ensures InGroup(CrossLegosim, ClassifyScope(r)) <==> !InGroup(SameLogicalWorker, ClassifyScope(r))
    ensures InGroup(CrossPhysicalHost, ClassifyScope(r)) <==> r.scope == Some(CrossHost)
  {
  }

  function InKeys(op: Operation, keys: set<Key>): Record -> bool {
    (r: Record) => r.operation == op && TransferKey(r).Some? && TransferKey(r).value in keys
  }

  function Keyed(op: Operation): Record -> bool {
    (r: Record) => r.operation == op && TransferKey(r).Some?
  }

  lemma {:induction false} FilterAppend(s: seq<Record>, x: Record, p: Record -> bool)
    ensures Filter(s + [x], p) == Filter(s, p) + (if p(x) then [x] else [])
    decreases |s|
  {
    if s != [] {
      assert (s + [x])[1..] == s[1..] + [x];
      FilterAppend(s[1..], x, p);
    }
  }

  /** Taking one key out of a set of keys takes out its records. */
  lemma {:induction false} SplitCount(log: seq<Record>, op: Operation, keys: set<Key>, key: Key)
    requires key in keys
    ensures |Filter(log, InKeys(op, keys))| == |Filter(log, InKeys(op, keys - {key}))| + |Select(log, op, key)|
    decreases |log|
  {
    if log != [] {
      SplitCount(log[1..], op, keys, key);
    }
  }

  lemma {:induction false} SameCount(log: seq<Record>, p: Record -> bool, q: Record -> bool)
    requires forall r | r in log :: p(r) == q(r)
    ensures Filter(log, p) == Filter(log, q)
    decreases |log|
  {
    if log != [] {
      assert log[0] in log && forall r | r in log[1..] :: r in log;
      SameCount(log[1..], p, q);
    }
  }

  function ItemsAt(m: map<Key, seq<Record>>, key: Key): seq<Record> {
    if key in m then m[key] else []
  }

  /** A record goes to the list of its key. */
  function Extended(op: Operation, m: map<Key, seq<Record>>, r: Record): map<Key, seq<Record>> {
    if r.operation == op && TransferKey(r).Some?
    then m[TransferKey(r).value := ItemsAt(m, TransferKey(r).value) + [r]] else m
  }

  ghost predicate Grouped(log: seq<Record>, op: Operation, m: map<Key, seq<Record>>) {
    && (forall key :: ItemsAt(m, key) == Select(log, op, key))
    && (forall r | r in log && r.operation == op && TransferKey(r).Some? :: TransferKey(r).value in m)
  }

  lemma ExtendedIsGrouped(log: seq<Record>, op: Operation, m: map<Key, seq<Record>>, r: Record)
    requires Grouped(log, op, m)
    ensures Grouped(log + [r], op, Extended(op, m, r))
  {
    forall key ensures ItemsAt(Extended(op, m, r), key) == Select(log + [r], op, key) {
      assert ItemsAt(m, key) == Select(log, op, key);
      FilterAppend(log, r, HasKey(op, key));
    }
  }

  /** The records with a key, by key and in log order. */
  method GroupByKey(log: seq<Record>) returns (writes: map<Key, seq<Record>>, rs: map<Key, seq<Record>>)
    ensures Grouped(log, W, writes) && Grouped(log, R, rs)
  {
    writes, rs := map[], map[];
    for n := 0 to |log|
      invariant Grouped(log[..n], W, writes) && Grouped(log[..n], R, rs)
    {
      assert log[..n + 1] == log[..n] + [log[n]];
      ExtendedIsGrouped(log[..n], W, writes, log[n]);
      ExtendedIsGrouped(log[..n], R, rs, log[n]);
      writes := Extended(W, writes, log[n]);
      rs := Extended(R, rs, log[n]);
    }
    assert log[..|log|] == log;
  }

  datatype Exposed = Exposed(pairs: nat, unmatchedWrites: int, unmatchedReads: int, wall: int, intervals: seq<Interval>)

  const NOTHING := Exposed(0, 0, 0, 0, [])

  /** Items without a partner are charged to the group of the first write, or else of the first read. */
  predicate Charged(writes: seq<Record>, rs: seq<Record>, g: Group) {
    if writes != [] then InGroup(g, ClassifyScope(writes[0]))
    else rs != [] && InGroup(g, ClassifyScope(rs[0]))
  }

  /** The totals of a group with the items of one more key. */
  function Added(e: Exposed, g: Group, writes: seq<Record>, rs: seq<Record>): Exposed {
    var pairs := Zip(writes, rs);
    var own, matched := Exposures(pairs, g), |Exposures(pairs, All)|;
    Exposed(e.pairs + |own|,
            e.unmatchedWrites + (if Charged(writes, rs, g) then |writes| - matched else 0),
            e.unmatchedReads + (if Charged(writes, rs, g) then |rs| - matched else 0),
            e.wall + Lengths(own),
            e.intervals + own)
  }

  function AddedKey(e: Exposed, g: Group, log: seq<Record>, key: Key): Exposed {
    Added(e, g, ByTime(W, Select(log, W, key)), ByTime(R, Select(log, R, key)))
  }

  /** The totals of a group after the keys in `order`. */
  function Totals(log: seq<Record>, g: Group, order: seq<Key>): Exposed {
    if order == [] then NOTHING else AddedKey(Totals(log, g, order[..|order| - 1]), g, log, order[|order| - 1])
  }

  predicate Distinct(order: seq<Key>) {
    forall i, j | 0 <= i < j < |order| :: order[i] != order[j]
  }

  /** Lists every key in the log, and no key twice. */
  ghost predicate Enumerates(log: seq<Record>, order: seq<Key>) {
    && Distinct(order)
    && forall r | r in log && r.operation != Foreign && TransferKey(r).Some? :: TransferKey(r).value in order
  }

  /** The intervals of one key that belong to a group, their total length, and how many pairs matched. */
  method MeasurePairs(pairs: seq<(Record, Record)>, g: Group) returns (own: seq<Interval>, matched: nat, wall: int)
    ensures own == Exposures(pairs, g) && matched == |Exposures(pairs, All)| && wall == Lengths(own)
    ensures forall x :: x in Points(own) <==> ExposedAmong(pairs, g, x)
    ensures |own| == |UsableIn(pairs, g)| && matched == |UsableIn(pairs, All)|
  {
    own, matched, wall := [], 0, 0;
    for n := 0 to |pairs|
      invariant own == Exposures(pairs[..n], g) && matched == |Exposures(pairs[..n], All)| && wall == Lengths(own)
    {
      NextExposure(pairs, n, g);
      NextExposure(pairs, n, All);
      var x := Exposure(pairs[n]);
      if x.None? {
        continue;
      }
      if InGroup(g, ClassifyScope(pairs[n].0)) {
        NextLength(own, x.value);
        wall := wall + x.value.finish - x.value.start;
        own := own + [x.value];
      }
      matched := matched + 1;
    }
    assert pairs[..|pairs|] == pairs;
    forall x ensures x in Points(own) <==> ExposedAmong(pairs, g, x) {
      ExposedPoints(pairs, g, x);
    }
    ExposuresAreUsable(pairs, g);
    ExposuresAreUsable(pairs, All);
  }

  lemma NextExposure(pairs: seq<(Record, Record)>, n: nat, g: Group)
    requires n < |pairs|
    ensures Exposures(pairs[..n + 1], g) == Exposures(pairs[..n], g)
      + (if Exposure(pairs[n]).Some? && InGroup(g, ClassifyScope(pairs[n].0)) then [Exposure(pairs[n]).value] else [])
  {
    assert pairs[..n + 1][..n] == pairs[..n];
  }

  lemma NextLength(s: seq<Interval>, x: Interval)
    ensures Lengths(s + [x]) == Lengths(s) + x.finish - x.start
  {
    assert (s + [x])[..|s|] == s;
  }

  method MeasureKey(e: Exposed, g: Group, writes: seq<Record>, rs: seq<Record>) returns (after: Exposed)
    ensures after == Added(e, g, writes, rs)
  {
    var own, matched, wall := MeasurePairs(Zip(writes, rs), g);
    var charged := Charged(writes, rs, g);
    after := Exposed(e.pairs + |own|,
                     if charged then e.unmatchedWrites + |writes| - matched else e.unmatchedWrites,
                     if charged then e.unmatchedReads + |rs| - matched else e.unmatchedReads,
                     e.wall + wall, e.intervals + own);
  }

  /** The exposed-transport totals of one group, and the length of the union of its intervals. */
  method CollectExposed(log: seq<Record>, g: Group) returns (e: Exposed, union: int, ghost order: seq<Key>)
    ensures Enumerates(log, order) && e == Totals(log, g, order)
    ensures union == |Points(e.intervals)|
    ensures forall x :: x in Points(e.intervals) <==> ExposedUnder(log, order, g, x)
    ensures e.pairs == |e.intervals| && e.wall == Lengths(e.intervals)
  {
    var writes, rs := GroupByKey(log);
    var todo := writes.Keys + rs.Keys;
    e, order := NOTHING, [];
    while todo != {}
      invariant Listing(order, todo, writes.Keys + rs.Keys) && e == Totals(log, g, order)
      decreases |todo|
    {
      var key :| key in todo;
      ListingStep(order, todo, writes.Keys + rs.Keys, key);
      NextTotals(log, g, order, key);
      e := MeasureKey(e, g, ByTime(W, ItemsAt(writes, key)), ByTime(R, ItemsAt(rs, key)));
      todo, order := todo - {key}, order + [key];
    }
    AllListed(log, writes, rs, order);
    TotalsAreForward(log, g, order);
    forall x ensures x in Points(e.intervals) <==> ExposedUnder(log, order, g, x) {
      TotalPoints(log, g, order, x);
    }
    WallIsSum(log, g, order);
    union := IntervalUnion(e.intervals);
  }

  /** At this moment some pair under one of these keys is exposed. */
  ghost predicate ExposedUnder(log: seq<Record>, order: seq<Key>, g: Group, x: int) {
    exists key :: key in order && ExposedAmong(Paired(log, key), g, x)
  }

  lemma {:induction false} TotalPoints(log: seq<Record>, g: Group, order: seq<Key>, x: int)
    ensures x in Points(Totals(log, g, order).intervals) <==> ExposedUnder(log, order, g, x)
    decreases |order|
  {
    if order != [] {
      var front, key := order[..|order| - 1], order[|order| - 1];
      assert order == front + [key];
      TotalPoints(log, g, front, x);
      ExposedPoints(Paired(log, key), g, x);
      PointsOfBoth(Totals(log, g, front).intervals, Exposures(Paired(log, key), g), x);
    }
  }

  lemma PointsOfBoth(a: seq<Interval>, b: seq<Interval>, x: int)
    ensures x in Points(a + b) <==> x in Points(a) || x in Points(b)
  {
    PointsAreCovered(a, x);
    PointsAreCovered(b, x);
    PointsAreCovered(a + b, x);
  }

  function ToSet(order: seq<Key>): set<Key> {
    set k | k in order
  }

  /** The keys are those that are listed, once, and those still to do. */
  ghost predicate Listing(order: seq<Key>, todo: set<Key>, keys: set<Key>) {
    Distinct(order) && ToSet(order) !! todo && keys == todo + ToSet(order)
  }

  lemma ListingStep(order: seq<Key>, todo: set<Key>, keys: set<Key>, key: Key)
    requires Listing(order, todo, keys) && key in todo
    ensures Listing(order + [key], todo - {key}, keys)
  {
    assert ToSet(order + [key]) == ToSet(order) + {key};
    forall n | 0 <= n < |order| ensures order[n] != key {
      assert order[n] in ToSet(order);
    }
  }

  lemma NextTotals(log: seq<Record>, g: Group, order: seq<Key>, key: Key)
    ensures Totals(log, g, order + [key]) == AddedKey(Totals(log, g, order), g, log, key)
  {
    assert (order + [key])[..|order|] == order;
  }

  lemma AllListed(log: seq<Record>, writes: map<Key, seq<Record>>, rs: map<Key, seq<Record>>, order: seq<Key>)
    requires Grouped(log, W, writes) && Grouped(log, R, rs) && Listing(order, {}, writes.Keys + rs.Keys)
    ensures Enumerates(log, order)
  {
    forall r | r in log && r.operation != Foreign && TransferKey(r).Some? ensures TransferKey(r).value in order {
      assert TransferKey(r).value in writes.Keys + rs.Keys;
      assert TransferKey(r).value in ToSet(order);
    }
  }

  lemma {:induction false} ExposuresAreForward(pairs: seq<(Record, Record)>, g: Group)
    ensures forall i | i in Exposures(pairs, g) :: i.start <= i.finish
    decreases |pairs|
  {
    if pairs != [] {
      ExposuresAreForward(pairs[..|pairs| - 1], g);
    }
  }

  lemma {:induction false} TotalsAreForward(log: seq<Record>, g: Group, order: seq<Key>)
    ensures forall i | i in Totals(log, g, order).intervals :: i.start <= i.finish
    decreases |order|
  {
    if order != [] {
      TotalsAreForward(log, g, order[..|order| - 1]);
      ExposuresAreForward(Paired(log, order[|order| - 1]), g);
    }
  }

  // ----- Nothing is counted twice, nothing is dropped

  /** Every keyed write, and every keyed read, is either in a pair or unmatched. */
  lemma TotalsAreConserved(log: seq<Record>, order: seq<Key>)
    requires Enumerates(log, order)
    ensures var e := Totals(log, All, order);
      && e.pairs + e.unmatchedWrites == |Filter(log, Keyed(W))| && e.unmatchedWrites >= 0
      && e.pairs + e.unmatchedReads == |Filter(log, Keyed(R))| && e.unmatchedReads >= 0
      && e.pairs == |e.intervals| && e.wall == Lengths(e.intervals)
  {
    ConservedSoFar(log, order);
    SameCount(log, Keyed(W), InKeys(W, ToSet(order)));
    SameCount(log, Keyed(R), InKeys(R, ToSet(order)));
  }

  lemma {:induction false} ConservedSoFar(log: seq<Record>, order: seq<Key>)
    requires Distinct(order)
    ensures var e := Totals(log, All, order);
      && e.pairs + e.unmatchedWrites == |Filter(log, InKeys(W, ToSet(order)))| && e.unmatchedWrites >= 0
      && e.pairs + e.unmatchedReads == |Filter(log, InKeys(R, ToSet(order)))| && e.unmatchedReads >= 0
      && e.pairs == |e.intervals| && e.wall == Lengths(e.intervals)
    decreases |order|
  {
    if order == [] {
      assert ToSet(order) == {};
      EmptyFilter(log, W);
      EmptyFilter(log, R);
    } else {
      var front, key := order[..|order| - 1], order[|order| - 1];
      ConservedSoFar(log, front);
      WithoutLast(order);
      SplitCount(log, W, ToSet(order), key);
      SplitCount(log, R, ToSet(order), key);
      KeyIsConserved(log, key, Totals(log, All, front));
    }
  }

  lemma WithoutLast(order: seq<Key>)
    requires Distinct(order) && order != []
    ensures ToSet(order) - {order[|order| - 1]} == ToSet(order[..|order| - 1])
  {
    assert order == order[..|order| - 1] + [order[|order| - 1]];
  }

  lemma KeyIsConserved(log: seq<Record>, key: Key, e: Exposed)
    ensures var after := AddedKey(e, All, log, key);
      && after.pairs + after.unmatchedWrites == e.pairs + e.unmatchedWrites + |Select(log, W, key)|
      && after.pairs + after.unmatchedReads == e.pairs + e.unmatchedReads + |Select(log, R, key)|
      && after.unmatchedWrites >= e.unmatchedWrites && after.unmatchedReads >= e.unmatchedReads
      && |after.intervals| - after.pairs == |e.intervals| - e.pairs
      && after.wall - Lengths(after.intervals) == e.wall - Lengths(e.intervals)
  {
    var writes, rs := ByTime(W, Select(log, W, key)), ByTime(R, Select(log, R, key));
    ByTimeIsInOrder(W, Select(log, W, key));
    ByTimeIsInOrder(R, Select(log, R, key));
    SameSize(writes, Select(log, W, key));
    SameSize(rs, Select(log, R, key));
    ZipLength(writes, rs);
    ExposuresAreFew(Zip(writes, rs), All);
    LengthsOfConcatenation(e.intervals, Exposures(Zip(writes, rs), All));
  }

  lemma {:induction false} ExposuresAreFew(pairs: seq<(Record, Record)>, g: Group)
    ensures |Exposures(pairs, g)| <= |pairs|
    decreases |pairs|
  {
    if pairs != [] {
      ExposuresAreFew(pairs[..|pairs| - 1], g);
    }
  }

  lemma SameSize(a: seq<Record>, b: seq<Record>)
    requires multiset(a) == multiset(b)
    ensures |a| == |b|
  {
    assert |multiset(a)| == |a| && |multiset(b)| == |b|;
  }

  lemma {:induction false} ZipLength(a: seq<Record>, b: seq<Record>)
    ensures |Zip(a, b)| == if |a| < |b| then |a| else |b|
    decreases |a|
  {
    if a != [] && b != [] {
      ZipLength(a[1..], b[1..]);
    }
  }

  lemma {:induction false} LengthsOfConcatenation(a: seq<Interval>, b: seq<Interval>)
    ensures Lengths(a + b) == Lengths(a) + Lengths(b)
    decreases |b|
  {
    if b == [] {
      assert a + b == a;
    } else {
      assert (a + b)[..|a + b| - 1] == a + b[..|b| - 1];
      LengthsOfConcatenation(a, b[..|b| - 1]);
    }
  }

  lemma {:induction false} EmptyFilter(log: seq<Record>, op: Operation)
    ensures Filter(log, InKeys(op, {})) == []
    decreases |log|
  {
    if log != [] {
      EmptyFilter(log[1..], op);
    }
  }

  // ----- The order of the keys does not matter

  /** Equal totals, and the same intervals up to their order. */
  ghost predicate SameTotals(a: Exposed, b: Exposed) {
    && a.pairs == b.pairs && a.unmatchedWrites == b.unmatchedWrites && a.unmatchedReads == b.unmatchedReads
    && a.wall == b.wall && multiset(a.intervals) == multiset(b.intervals)
  }

  /** A key may as well come last. */
  lemma {:induction false} MoveToEnd(log: seq<Record>, g: Group, before: seq<Key>, key: Key, after: seq<Key>)
    ensures SameTotals(Totals(log, g, before + [key] + after), AddedKey(Totals(log, g, before + after), g, log, key))
    decreases |after|
  {
    if after == [] {
      assert before + [key] + after == before + [key] && before + after == before;
      NextTotals(log, g, before, key);
    } else {
      var front, last := after[..|after| - 1], after[|after| - 1];
      MoveToEnd(log, g, before, key, front);
      OneMoreBehind(log, g, before + [key] + front, before + front, key, last);
      LastOfThree(before + [key], after);
      LastOfThree(before, after);
    }
  }

  lemma LastOfThree(a: seq<Key>, b: seq<Key>)
    requires b != []
    ensures a + b[..|b| - 1] + [b[|b| - 1]] == a + b
  {
  }

  lemma OneMoreBehind(log: seq<Record>, g: Group, with: seq<Key>, without: seq<Key>, key: Key, last: Key)
    requires SameTotals(Totals(log, g, with), AddedKey(Totals(log, g, without), g, log, key))
    ensures SameTotals(Totals(log, g, with + [last]), AddedKey(Totals(log, g, without + [last]), g, log, key))
  {
    NextTotals(log, g, with, last);
    NextTotals(log, g, without, last);
    KeysCommute(Totals(log, g, with), Totals(log, g, without), g, log, key, last);
  }

  lemma KeysCommute(x: Exposed, y: Exposed, g: Group, log: seq<Record>, first: Key, second: Key)
    requires SameTotals(x, AddedKey(y, g, log, first))
    ensures SameTotals(AddedKey(x, g, log, second), AddedKey(AddedKey(y, g, log, second), g, log, first))
  {
  }

  /** Whatever order the keys are taken in, the totals are the same. */
  lemma {:induction false} AnyOrderOfKeys(log: seq<Record>, g: Group, a: seq<Key>, b: seq<Key>)
    requires multiset(a) == multiset(b)
    ensures SameTotals(Totals(log, g, a), Totals(log, g, b))
    decreases |a|
  {
    if a == [] {
      assert |multiset(b)| == |b|;
    } else {
      var front, key := a[..|a| - 1], a[|a| - 1];
      var left, right := Around(front, key, a, b);
      AnyOrderOfKeys(log, g, front, left + right);
      NextTotals(log, g, front, key);
      SameAfterKey(Totals(log, g, front), Totals(log, g, left + right), g, log, key);
      MoveToEnd(log, g, left, key, right);
    }
  }

  lemma Around<T>(front: seq<T>, last: T, a: seq<T>, b: seq<T>) returns (left: seq<T>, right: seq<T>)
    requires a == front + [last] && multiset(a) == multiset(b)
    ensures b == left + [last] + right && multiset(left + right) == multiset(front)
  {
    assert last in multiset(b);
    var n :| 0 <= n < |b| && b[n] == last;
    left, right := b[..n], b[n + 1..];
    assert b == left + [last] + right;
    calc {
      multiset(left + right);
      multiset(left + [last] + right) - multiset{last};
      multiset(front);
    }
  }

  lemma SameAfterKey(x: Exposed, y: Exposed, g: Group, log: seq<Record>, key: Key)
    requires SameTotals(x, y)
    ensures SameTotals(AddedKey(x, g, log, key), AddedKey(y, g, log, key))
  {
  }

  // ----- Exposed transport is part of the blocking reads

  /** Both ends of a transfer log the same scope. */
  ghost predicate ScopesAgree(log: seq<Record>) {
    forall w, r
      | w in log && r in log && w.operation == W && r.operation == R
        && TransferKey(w).Some? && TransferKey(w) == TransferKey(r)
      :: ClassifyScope(w) == ClassifyScope(r)
  }

  /** The transport of a group that is exposed never exceeds its raw blocking reads.  For group `all` that
      holds of every log; for the others both ends must have logged the same scope. */
  lemma ExposedIsWithinReads(log: seq<Record>, g: Group, order: seq<Key>)
    requires g == All || ScopesAgree(log)
    ensures |Points(Totals(log, g, order).intervals)| <= |Points(ReadIntervals(log, g))|
    ensures |Points(Totals(log, g, order).intervals)| <= Totals(log, g, order).wall
  {
    forall i | i in Totals(log, g, order).intervals
      ensures exists j :: j in ReadIntervals(log, g) && j.start <= i.start && i.finish <= j.finish
    {
      var j := ReadAround(log, g, order, i);
    }
    PointsWithin(Totals(log, g, order).intervals, ReadIntervals(log, g));
    WallIsSum(log, g, order);
    TotalsAreForward(log, g, order);
    UnionIsAtMostSum(Totals(log, g, order).intervals);
  }

  /** The read to which an exposed interval belongs. */
  lemma ReadAround(log: seq<Record>, g: Group, order: seq<Key>, i: Interval) returns (j: Interval)
    requires (g == All || ScopesAgree(log)) && i in Totals(log, g, order).intervals
    ensures j in ReadIntervals(log, g) && j.start <= i.start && i.finish <= j.finish
  {
    var key := KeyOf(log, g, order, i);
    var pair := PairOf(Paired(log, key), g, i);
    PairedAreLogged(log, key, pair);
    ReadIsListed(log, g, pair.1);
    j := ReadInterval(pair.1, g)[0];
  }

  lemma {:induction false} KeyOf(log: seq<Record>, g: Group, order: seq<Key>, i: Interval) returns (key: Key)
    requires i in Totals(log, g, order).intervals
    ensures key in order && i in Exposures(Paired(log, key), g)
    decreases |order|
  {
    key := order[|order| - 1];
    if i !in Exposures(Paired(log, key), g) {
      key := KeyOf(log, g, order[..|order| - 1], i);
    }
  }

  lemma {:induction false} PairOf(pairs: seq<(Record, Record)>, g: Group, i: Interval) returns (pair: (Record, Record))
    requires i in Exposures(pairs, g)
    ensures pair in pairs && InGroup(g, ClassifyScope(pair.0)) && Exposure(pair) == Some(i)
    decreases |pairs|
  {
    pair := pairs[|pairs| - 1];
    if i in Exposures(pairs[..|pairs| - 1], g) {
      pair := PairOf(pairs[..|pairs| - 1], g, i);
    }
  }

  lemma {:induction false} ZipMembers(a: seq<Record>, b: seq<Record>, pair: (Record, Record))
    requires pair in Zip(a, b)
    ensures pair.0 in a && pair.1 in b
    decreases |a|
  {
    if pair != (a[0], b[0]) {
      ZipMembers(a[1..], b[1..], pair);
    }
  }

  lemma SelectedAreLogged(log: seq<Record>, op: Operation, key: Key, r: Record)
    requires r in ByTime(op, Select(log, op, key))
    ensures r in log && HasKey(op, key)(r)
  {
    ByTimeIsInOrder(op, Select(log, op, key));
    assert r in multiset(ByTime(op, Select(log, op, key)));
    FilterCount(log, HasKey(op, key), r);
    assert r in multiset(log);
  }

  lemma PairedAreLogged(log: seq<Record>, key: Key, pair: (Record, Record))
    requires pair in Paired(log, key)
    ensures pair.0 in log && HasKey(W, key)(pair.0) && pair.1 in log && HasKey(R, key)(pair.1)
  {
    ZipMembers(ByTime(W, Select(log, W, key)), ByTime(R, Select(log, R, key)), pair);
    SelectedAreLogged(log, W, key, pair.0);
    SelectedAreLogged(log, R, key, pair.1);
  }

  lemma {:induction false} ReadIsListed(log: seq<Record>, g: Group, r: Record)
    requires r in log
    ensures forall i | i in ReadInterval(r, g) :: i in ReadIntervals(log, g)
    decreases |log|
  {
    if r != log[|log| - 1] {
      assert r in log[..|log| - 1];
      ReadIsListed(log[..|log| - 1], g, r);
    }
  }

  lemma {:induction false} WallIsSum(log: seq<Record>, g: Group, order: seq<Key>)
    ensures Totals(log, g, order).wall == Lengths(Totals(log, g, order).intervals)
    ensures Totals(log, g, order).pairs == |Totals(log, g, order).intervals|
    decreases |order|
  {
    if order != [] {
      var front, key := order[..|order| - 1], order[|order| - 1];
      WallIsSum(log, g, front);
      LengthsOfConcatenation(Totals(log, g, front).intervals, Exposures(Paired(log, key), g));
    }
  }

  lemma {:induction false} UnionIsAtMostSum(s: seq<Interval>)
    requires forall i | i in s :: i.start <= i.finish
    ensures |Points(s)| <= Lengths(s)
    decreases |s|
  {
    if s != [] {
      var front, last := s[..|s| - 1], s[|s| - 1];
      assert forall i | i in front :: i in s;
      UnionIsAtMostSum(front);
      var segment := Segment(last.start, last.finish);
      assert |Points(front) + segment| == |Points(front)| + |segment| - |Points(front) * segment|;
    }
  }

  /** A group of transfers that is part of another. */
  predicate Narrower(a: Group, b: Group) {
    a == b || b == All || (a == CrossPhysicalHost && b == CrossLegosim)
  }

  /** Blocking across hosts is part of blocking across workers, and both are part of all blocking. */
  lemma {:induction false} ReadGroupsAreNested(log: seq<Record>, a: Group, b: Group)
    requires Narrower(a, b)
    ensures Points(ReadIntervals(log, a)) <= Points(ReadIntervals(log, b))
    ensures |Points(ReadIntervals(log, a))| <= |Points(ReadIntervals(log, b))|
  {
    forall i | i in ReadIntervals(log, a) ensures i in ReadIntervals(log, b) {
      NarrowerReads(log, a, b, i);
    }
    forall i | i in ReadIntervals(log, a)
      ensures exists j :: j in ReadIntervals(log, b) && j.start <= i.start && i.finish <= j.finish
    {
      assert i in ReadIntervals(log, b) && i.start <= i.start;
    }
    PointsWithin(ReadIntervals(log, a), ReadIntervals(log, b));
  }

  lemma {:induction false} NarrowerReads(log: seq<Record>, a: Group, b: Group, i: Interval)
    requires Narrower(a, b) && i in ReadIntervals(log, a)
    ensures i in ReadIntervals(log, b)
    decreases |log|
  {
    if i in ReadIntervals(log[..|log| - 1], a) {
      NarrowerReads(log[..|log| - 1], a, b, i);
    }
  }

  /** The length of the union of the blocking reads of one group. */
  method CollectReads(log: seq<Record>, g: Group) returns (union: int, count: nat)
    ensures union == |Points(ReadIntervals(log, g))| && count == |ReadIntervals(log, g)|
    ensures forall x :: x in Points(ReadIntervals(log, g)) <==> BlockedAt(log, g, x)
    ensures count == |ReadsIn(log, g)|
  {
    var intervals: seq<Interval> := [];
    for n := 0 to |log|
      invariant intervals == ReadIntervals(log[..n], g) && forall i | i in intervals :: i.start <= i.finish
    {
      var r := log[n];
      assert log[..n + 1][..n] == log[..n];
      if InGroup(g, ClassifyScope(r)) {
        if r.operation != R {
          continue;
        }
        if r.started.Some? && r.finished.Some? && r.finished.value >= r.started.value {
          intervals := intervals + [Interval(r.started.value, r.finished.value)];
        }
      }
    }
    assert log[..|log|] == log;
    union := IntervalUnion(intervals);
    count := |intervals|;
    forall x ensures x in Points(ReadIntervals(log, g)) <==> BlockedAt(log, g, x) {
      ReadPoints(log, g, x);
    }
    ReadsAreCounted(log, g);
  }
}
