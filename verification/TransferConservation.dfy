/** What is conserved in the transport totals of one group.  A pair counts for the group of its write,
    items without a partner for the group of the first write of their key, or else of its first read. */
module TransferConservation {
  import opened Options
  import opened TransferMetrics
  import PipeRouter

  function KeyedIn(op: Operation, g: Group): Record -> bool {
    (r: Record) => r.operation == op && TransferKey(r).Some? && InGroup(g, ClassifyScope(r))
  }

  function HasKeyIn(op: Operation, key: Key, g: Group): Record -> bool {
    (r: Record) => r.operation == op && TransferKey(r) == Some(key) && InGroup(g, ClassifyScope(r))
  }

  function InKeysIn(op: Operation, keys: set<Key>, g: Group): Record -> bool {
    (r: Record) =>
      r.operation == op && TransferKey(r).Some? && TransferKey(r).value in keys && InGroup(g, ClassifyScope(r))
  }

  /** Every keyed write of the group, and every keyed read of it, is either in a pair or unmatched. */
  ghost predicate Conserved(log: seq<Record>, g: Group, e: Exposed) {
    && e.pairs + e.unmatchedWrites == |Filter(log, KeyedIn(W, g))| && e.unmatchedWrites >= 0
    && e.pairs + e.unmatchedReads == |Filter(log, KeyedIn(R, g))| && e.unmatchedReads >= 0
  }

  /** Records under one key are all in the group, or none of them is. */
  ghost predicate Undivided(log: seq<Record>, g: Group) {
    forall r, s | r in log && s in log && TransferKey(r).Some? && TransferKey(r) == TransferKey(s)
      :: InGroup(g, ClassifyScope(r)) <==> InGroup(g, ClassifyScope(s))
  }

  /** What is conserved for group `all` is conserved for every group, if no key is divided by it. */
  lemma GroupIsConserved(log: seq<Record>, g: Group, order: seq<Key>)
    requires Undivided(log, g) && Enumerates(log, order)
    ensures Conserved(log, g, Totals(log, g, order))
  {
    GroupSoFar(log, g, order);
    KeyedIsListed(log, g, order, W);
    KeyedIsListed(log, g, order, R);
  }

  lemma KeyedIsListed(log: seq<Record>, g: Group, order: seq<Key>, op: Operation)
    requires Enumerates(log, order) && op != Foreign
    ensures Filter(log, KeyedIn(op, g)) == Filter(log, InKeysIn(op, ToSet(order), g))
  {
    var p, q := KeyedIn(op, g), InKeysIn(op, ToSet(order), g);
    forall r | r in log ensures p(r) == q(r) {
    }
    SameCount(log, p, q);
  }

  lemma {:induction false} GroupSoFar(log: seq<Record>, g: Group, order: seq<Key>)
    requires Undivided(log, g) && Distinct(order)
    ensures var e := Totals(log, g, order);
      && e.pairs + e.unmatchedWrites == |Filter(log, InKeysIn(W, ToSet(order), g))| && e.unmatchedWrites >= 0
      && e.pairs + e.unmatchedReads == |Filter(log, InKeysIn(R, ToSet(order), g))| && e.unmatchedReads >= 0
    decreases |order|
  {
    if order == [] {
      assert ToSet(order) == {};
      NoKeys(log, W, g);
      NoKeys(log, R, g);
    } else {
      var front, key := order[..|order| - 1], order[|order| - 1];
      GroupSoFar(log, g, front);
      WithoutLast(order);
      SplitGroup(log, W, ToSet(order), key, g);
      SplitGroup(log, R, ToSet(order), key, g);
      KeyOfGroup(log, g, key, Totals(log, g, front));
    }
  }

  lemma NoKeys(log: seq<Record>, op: Operation, g: Group)
    ensures Filter(log, InKeysIn(op, {}, g)) == []
  {
    var p := InKeysIn(op, {}, g);
    forall r | r in log ensures !p(r) {
    }
    NoneThere(log, p);
  }

  lemma {:induction false} SplitGroup(log: seq<Record>, op: Operation, keys: set<Key>, key: Key, g: Group)
    requires key in keys
    ensures |Filter(log, InKeysIn(op, keys, g))|
         == |Filter(log, InKeysIn(op, keys - {key}, g))| + |Filter(log, HasKeyIn(op, key, g))|
    decreases |log|
  {
    if log != [] {
      SplitGroup(log[1..], op, keys, key, g);
      var all, others, own := InKeysIn(op, keys, g), InKeysIn(op, keys - {key}, g), HasKeyIn(op, key, g);
      assert all(log[0]) <==> others(log[0]) || own(log[0]);
      assert !(others(log[0]) && own(log[0]));
    }
  }

  lemma {:induction false} NoneThere(log: seq<Record>, p: Record -> bool)
    requires forall r | r in log :: !p(r)
    ensures Filter(log, p) == []
    decreases |log|
  {
    if log != [] {
      assert log[0] in log && forall r | r in log[1..] :: r in log;
      NoneThere(log[1..], p);
    }
  }

  /** One key, all of whose records are on one side. */
  lemma KeyOfGroup(log: seq<Record>, g: Group, key: Key, e: Exposed)
    requires Undivided(log, g)
    ensures var after := AddedKey(e, g, log, key);
      && after.pairs + after.unmatchedWrites == e.pairs + e.unmatchedWrites + |Filter(log, HasKeyIn(W, key, g))|
      && after.pairs + after.unmatchedReads == e.pairs + e.unmatchedReads + |Filter(log, HasKeyIn(R, key, g))|
      && after.unmatchedWrites >= e.unmatchedWrites && after.unmatchedReads >= e.unmatchedReads
  {
    var writes, rs := ByTime(W, Select(log, W, key)), ByTime(R, Select(log, R, key));
    KeyIsOneSided(log, g, key, Charged(writes, rs, g));
    OneSide(log, g, key, W, Charged(writes, rs, g));
    OneSide(log, g, key, R, Charged(writes, rs, g));
    forall pair | pair in Zip(writes, rs) ensures InGroup(g, ClassifyScope(pair.0)) <==> Charged(writes, rs, g) {
      PairedAreLogged(log, key, pair);
    }
    SidedExposures(Zip(writes, rs), g, Charged(writes, rs, g));
    ByTimeIsInOrder(W, Select(log, W, key));
    ByTimeIsInOrder(R, Select(log, R, key));
    SameSize(writes, Select(log, W, key));
    SameSize(rs, Select(log, R, key));
    ZipLength(writes, rs);
    ExposuresAreFew(Zip(writes, rs), All);
  }

  /** All records of a key are on the side to which its items are charged. */
  lemma KeyIsOneSided(log: seq<Record>, g: Group, key: Key, charged: bool)
    requires Undivided(log, g)
    requires charged == Charged(ByTime(W, Select(log, W, key)), ByTime(R, Select(log, R, key)), g)
    ensures forall r | r in log && TransferKey(r) == Some(key) :: InGroup(g, ClassifyScope(r)) <==> charged
  {
    var writes, rs := ByTime(W, Select(log, W, key)), ByTime(R, Select(log, R, key));
    if writes != [] {
      SelectedAreLogged(log, W, key, writes[0]);
    } else if rs != [] {
      SelectedAreLogged(log, R, key, rs[0]);
    }
    forall r | r in log && TransferKey(r) == Some(key) ensures InGroup(g, ClassifyScope(r)) <==> charged {
      LoggedIsSelected(log, r.operation, key, r);
    }
  }

  lemma LoggedIsSelected(log: seq<Record>, op: Operation, key: Key, r: Record)
    requires r in log && HasKey(op, key)(r)
    ensures ByTime(op, Select(log, op, key)) != []
  {
    FilterCount(log, HasKey(op, key), r);
    assert r in multiset(log);
    ByTimeIsInOrder(op, Select(log, op, key));
    assert r in multiset(ByTime(op, Select(log, op, key)));
  }

  lemma OneSide(log: seq<Record>, g: Group, key: Key, op: Operation, charged: bool)
    requires forall r | r in log && TransferKey(r) == Some(key) :: InGroup(g, ClassifyScope(r)) <==> charged
    ensures |Filter(log, HasKeyIn(op, key, g))| == if charged then |Select(log, op, key)| else 0
  {
    if charged {
      var p, q := HasKeyIn(op, key, g), HasKey(op, key);
      forall r | r in log ensures p(r) == q(r) {
      }
      SameCount(log, p, q);
    } else {
      var p := HasKeyIn(op, key, g);
      forall r | r in log ensures !p(r) {
      }
      NoneThere(log, p);
    }
  }

  lemma {:induction false} SidedExposures(pairs: seq<(Record, Record)>, g: Group, charged: bool)
    requires forall pair | pair in pairs :: InGroup(g, ClassifyScope(pair.0)) <==> charged
    ensures Exposures(pairs, g) == if charged then Exposures(pairs, All) else []
    decreases |pairs|
  {
    if pairs != [] {
      var front := pairs[..|pairs| - 1];
      assert forall pair | pair in front :: pair in pairs;
      assert pairs[|pairs| - 1] in pairs;
      SidedExposures(front, g, charged);
    }
  }

  // ----- The logs of the routers

  lemma RouterLogIsUndivided(physical: map<int, int>, log: seq<Record>, g: Group)
    requires PipeRouter.RouterLog(physical, log)
    ensures Undivided(log, g)
  {
    forall r, s | r in log && s in log && TransferKey(r).Some? && TransferKey(r) == TransferKey(s)
      ensures ClassifyScope(r) == ClassifyScope(s)
    {
      RouterScope(physical, log, r);
      RouterScope(physical, log, s);
    }
  }

  lemma RouterScope(physical: map<int, int>, log: seq<Record>, r: Record)
    requires PipeRouter.RouterLog(physical, log) && r in log && TransferKey(r).Some?
    ensures var key := TransferKey(r).value; ClassifyScope(r) == PipeRouter.ScopeOf(physical, key.writer, key.reader)
  {
  }

  /** In whatever routers log, nothing is counted twice and nothing is dropped, for any group. */
  lemma RouterLogIsConserved(physical: map<int, int>, log: seq<Record>, g: Group, order: seq<Key>)
    requires PipeRouter.RouterLog(physical, log) && Enumerates(log, order)
    ensures Conserved(log, g, Totals(log, g, order))
  {
    RouterLogIsUndivided(physical, log, g);
    GroupIsConserved(log, g, order);
  }

  // ----- Logs that divide a key

  lemma FilterTwo(r: Record, s: Record, p: Record -> bool)
    ensures Filter([r, s], p) == (if p(r) then [r] else []) + (if p(s) then [s] else [])
  {
    assert [r, s][1..] == [s] && [s][1..] == [];
    assert Filter([s], p) == (if p(s) then [s] else []) + Filter([], p);
  }

  function IfThat(r: Record, b: bool): seq<Record> { if b then [r] else [] }

  lemma SelectTwo(r: Record, s: Record, op: Operation, key: Key)
    ensures Select([r, s], op, key) == IfThat(r, r.operation == op && TransferKey(r) == Some(key))
                                     + IfThat(s, s.operation == op && TransferKey(s) == Some(key))
  {
    FilterTwo(r, s, HasKey(op, key));
  }

  lemma CountTwo(r: Record, s: Record, op: Operation, g: Group)
    requires TransferKey(r).Some? && TransferKey(s).Some?
    ensures |Filter([r, s], KeyedIn(op, g))| == (if r.operation == op && InGroup(g, ClassifyScope(r)) then 1 else 0)
                                              + (if s.operation == op && InGroup(g, ClassifyScope(s)) then 1 else 0)
  {
    FilterTwo(r, s, KeyedIn(op, g));
  }

  lemma OnlyWrites(writes: seq<Record>, g: Group)
    requires writes != []
    ensures Added(NOTHING, g, writes, []) == Exposed(0, if InGroup(g, ClassifyScope(writes[0])) then |writes| else 0, 0, 0, [])
  {
    assert Zip(writes, []) == [] && Exposures([], g) == [] && Exposures([], All) == [];
  }

  lemma OnlyReads(rs: seq<Record>, g: Group)
    requires rs != []
    ensures Added(NOTHING, g, [], rs) == Exposed(0, 0, if InGroup(g, ClassifyScope(rs[0])) then |rs| else 0, 0, [])
  {
    assert Zip([], rs) == [] && Exposures([], g) == [] && Exposures([], All) == [];
  }

  /** A write and a read count, measured or not, where the write does. */
  lemma OnePair(w: Record, r: Record, g: Group)
    ensures var e := Added(NOTHING, g, [w], [r]);
      e.pairs + e.unmatchedReads == if InGroup(g, ClassifyScope(w)) then 1 else 0
  {
    assert [w][1..] == [] && [r][1..] == [] && Zip([], []) == [];
    assert Zip([w], [r]) == [(w, r)];
    assert [(w, r)][..0] == [] && Exposures([], g) == [] && Exposures([], All) == [];
  }

  lemma OneKey(log: seq<Record>, g: Group, key: Key)
    ensures Totals(log, g, [key]) == AddedKey(NOTHING, g, log, key)
  {
    var order := [key];
    assert order[..|order| - 1] == [] && order[|order| - 1] == key;
  }

  lemma ListsBoth(r: Record, s: Record, key: Key)
    requires TransferKey(r) == TransferKey(s) == Some(key)
    ensures Enumerates([r, s], [key])
  {
  }

  /** Two records under one key, one of which is in the group, are not conserved by themselves. */
  lemma DividedPairFails(r: Record, s: Record, key: Key, g: Group)
    requires TransferKey(r) == TransferKey(s) == Some(key)
    requires InGroup(g, ClassifyScope(r)) && !InGroup(g, ClassifyScope(s))
    ensures !Conserved([r, s], g, Totals([r, s], g, [key]))
  {
    OneKey([r, s], g, key);
    if r.operation == s.operation {
      SameEnd(r, s, key, g);
    } else {
      BothEnds(r, s, key, g);
    }
  }

  lemma SameEnd(r: Record, s: Record, key: Key, g: Group)
    requires TransferKey(r) == TransferKey(s) == Some(key) && r.operation == s.operation
    requires InGroup(g, ClassifyScope(r)) && !InGroup(g, ClassifyScope(s))
    ensures !Conserved([r, s], g, AddedKey(NOTHING, g, [r, s], key))
  {
    CountTwo(r, s, r.operation, g);
    if r.operation == W {
      WritesOfKey(r, s, key, g);
    } else {
      ReadsOfKey(r, s, key, g);
    }
  }

  lemma WritesOfKey(r: Record, s: Record, key: Key, g: Group)
    requires TransferKey(r) == TransferKey(s) == Some(key) && r.operation == s.operation == W
    ensures var items := ByTime(W, [r, s]);
      && items != []
      && AddedKey(NOTHING, g, [r, s], key) == Exposed(0, if InGroup(g, ClassifyScope(items[0])) then 2 else 0, 0, 0, [])
  {
    SelectTwo(r, s, W, key);
    SelectTwo(r, s, R, key);
    assert Select([r, s], W, key) == [r, s] && Select([r, s], R, key) == [] && ByTime(R, []) == [];
    ByTimeIsInOrder(W, [r, s]);
    SameSize(ByTime(W, [r, s]), [r, s]);
    OnlyWrites(ByTime(W, [r, s]), g);
  }

  lemma ReadsOfKey(r: Record, s: Record, key: Key, g: Group)
    requires TransferKey(r) == TransferKey(s) == Some(key) && r.operation == s.operation == R
    ensures var items := ByTime(R, [r, s]);
      && items != []
      && AddedKey(NOTHING, g, [r, s], key) == Exposed(0, 0, if InGroup(g, ClassifyScope(items[0])) then 2 else 0, 0, [])
  {
    SelectTwo(r, s, W, key);
    SelectTwo(r, s, R, key);
    assert Select([r, s], R, key) == [r, s] && Select([r, s], W, key) == [] && ByTime(W, []) == [];
    ByTimeIsInOrder(R, [r, s]);
    SameSize(ByTime(R, [r, s]), [r, s]);
    OnlyReads(ByTime(R, [r, s]), g);
  }

  lemma BothEnds(r: Record, s: Record, key: Key, g: Group)
    requires TransferKey(r) == TransferKey(s) == Some(key) && r.operation != s.operation
    requires InGroup(g, ClassifyScope(r)) && !InGroup(g, ClassifyScope(s))
    ensures !Conserved([r, s], g, AddedKey(NOTHING, g, [r, s], key))
  {
    CountTwo(r, s, R, g);
    PairOfKey(r, s, key, g);
  }

  lemma PairOfKey(r: Record, s: Record, key: Key, g: Group)
    requires TransferKey(r) == TransferKey(s) == Some(key) && r.operation != s.operation
    ensures var w := if r.operation == W then r else s;
      var e := AddedKey(NOTHING, g, [r, s], key);
      e.pairs + e.unmatchedReads == if InGroup(g, ClassifyScope(w)) then 1 else 0
  {
    var w, x := if r.operation == W then r else s, if r.operation == W then s else r;
    SelectTwo(r, s, W, key);
    SelectTwo(r, s, R, key);
    assert Select([r, s], W, key) == [w] && Select([r, s], R, key) == [x];
    ByTimeOne(W, w);
    ByTimeOne(R, x);
    OnePair(w, x, g);
  }

  lemma ByTimeOne(op: Operation, r: Record)
    ensures ByTime(op, [r]) == [r]
  {
    assert [r][..0] == [];
  }

  lemma ByTimeTwo(op: Operation, a: Record, b: Record)
    requires Time(op, a) <= Time(op, b)
    ensures ByTime(op, [a, b]) == [a, b]
  {
    assert [a, b][..1] == [a];
    ByTimeOne(op, a);
  }

  /** The records of `part` are some of those of `log`, in any order. */
  ghost predicate IsPart(part: seq<Record>, log: seq<Record>) {
    multiset(part) <= multiset(log)
  }

  /** The exact condition: a log is conserved together with all its parts if and only if it divides no
      key.  Of a log alone only the one direction holds, since two errors can cancel out. */
  lemma ConservedInAllPartsIfUndivided(log: seq<Record>, g: Group)
    ensures (forall part, order | IsPart(part, log) && Enumerates(part, order) :: Conserved(part, g, Totals(part, g, order)))
            <==> Undivided(log, g)
  {
    if Undivided(log, g) {
      forall part, order | IsPart(part, log) && Enumerates(part, order) ensures Conserved(part, g, Totals(part, g, order)) {
        PartIsUndivided(log, part, g);
        GroupIsConserved(part, g, order);
      }
    } else {
      var part, order := DividedPart(log, g);
    }
  }

  lemma DividedPart(log: seq<Record>, g: Group) returns (part: seq<Record>, order: seq<Key>)
    requires !Undivided(log, g)
    ensures IsPart(part, log) && Enumerates(part, order) && !Conserved(part, g, Totals(part, g, order))
  {
    var r, s :| r in log && s in log && TransferKey(r).Some? && TransferKey(r) == TransferKey(s)
      && InGroup(g, ClassifyScope(r)) && !InGroup(g, ClassifyScope(s));
    part, order := [r, s], [TransferKey(r).value];
    TwoOfMany(log, r, s);
    ListsBoth(r, s, TransferKey(r).value);
    DividedPairFails(r, s, TransferKey(r).value, g);
  }

  lemma TwoOfMany(log: seq<Record>, r: Record, s: Record)
    requires r in log && s in log && r != s
    ensures IsPart([r, s], log)
  {
    assert r in multiset(log) && s in multiset(log);
    assert multiset([r, s]) == multiset{r, s};
  }

  lemma PartIsUndivided(log: seq<Record>, part: seq<Record>, g: Group)
    requires Undivided(log, g) && IsPart(part, log)
    ensures Undivided(part, g)
  {
    forall r | r in part ensures r in log {
      assert r in multiset(part);
      assert r in multiset(log);
    }
  }

  // ----- Concrete logs

  function Item(op: Operation, scope: Scope, started: int, finished: int): Record {
    var (source, peer) := if op == W then (0, 1) else (1, 0);
    Record(op, "buffer0_0_1_0", Some(8), Some(source), Some(peer), Some(scope), Some(started), Some(finished))
  }

  const ItemKey := Key(0, 1, "buffer0_0_1_0", 8)

  /** Two writes under one key, and the first alone crosses hosts: both are charged as crossing. */
  lemma DividedWritesAreMiscounted()
    ensures var log := [Item(W, CrossHost, 0, 1), Item(W, SameWorker, 2, 3)];
      && Enumerates(log, [ItemKey])
      && |Filter(log, KeyedIn(W, CrossPhysicalHost))| == 1
      && Totals(log, CrossPhysicalHost, [ItemKey]) == Exposed(0, 2, 0, 0, [])
  {
    ListsBoth(Item(W, CrossHost, 0, 1), Item(W, SameWorker, 2, 3), ItemKey);
    TwoWrites(Item(W, CrossHost, 0, 1), Item(W, SameWorker, 2, 3), ItemKey, CrossPhysicalHost);
  }

  lemma TwoWrites(a: Record, b: Record, key: Key, g: Group)
    requires a.operation == b.operation == W && TransferKey(a) == TransferKey(b) == Some(key) && Time(W, a) <= Time(W, b)
    requires InGroup(g, ClassifyScope(a)) && !InGroup(g, ClassifyScope(b))
    ensures |Filter([a, b], KeyedIn(W, g))| == 1
    ensures Totals([a, b], g, [key]) == Exposed(0, 2, 0, 0, [])
  {
    WritesOfKey(a, b, key, g);
    CountTwo(a, b, W, g);
    ByTimeTwo(W, a, b);
    OneKey([a, b], g, key);
  }

  /** With a read of the same scope behind each write nothing is left to charge: this log divides its
      key, and is conserved all the same. */
  lemma DividedPairsAreCounted()
    ensures var log := [Item(W, CrossHost, 0, 1), Item(W, SameWorker, 2, 3)] + [Item(R, CrossHost, 0, 4), Item(R, SameWorker, 2, 5)];
      && Enumerates(log, [ItemKey]) && !Undivided(log, CrossPhysicalHost)
      && Conserved(log, CrossPhysicalHost, Totals(log, CrossPhysicalHost, [ItemKey]))
  {
    var a, b, c, d := Item(W, CrossHost, 0, 1), Item(W, SameWorker, 2, 3), Item(R, CrossHost, 0, 4), Item(R, SameWorker, 2, 5);
    var log := [a, b] + [c, d];
    assert log[0] == a && log[1] == b;
    TwoPairs(a, b, c, d, ItemKey, CrossPhysicalHost);
  }

  lemma TwoPairs(a: Record, b: Record, c: Record, d: Record, key: Key, g: Group)
    requires a.operation == b.operation == W && c.operation == d.operation == R
    requires TransferKey(a) == TransferKey(b) == TransferKey(c) == TransferKey(d) == Some(key)
    requires Time(W, a) <= Time(W, b) && Time(R, c) <= Time(R, d) && Exposure((a, c)).Some? && Exposure((b, d)).Some?
    requires InGroup(g, ClassifyScope(a)) && !InGroup(g, ClassifyScope(b))
    requires InGroup(g, ClassifyScope(c)) && !InGroup(g, ClassifyScope(d))
    ensures Conserved([a, b] + [c, d], g, Totals([a, b] + [c, d], g, [key]))
  {
    FilterFour(a, b, c, d, KeyedIn(W, g));
    FilterFour(a, b, c, d, KeyedIn(R, g));
    TotalsOfTwoPairs(a, b, c, d, key, g);
  }

  lemma TotalsOfTwoPairs(a: Record, b: Record, c: Record, d: Record, key: Key, g: Group)
    requires a.operation == b.operation == W && c.operation == d.operation == R
    requires TransferKey(a) == TransferKey(b) == TransferKey(c) == TransferKey(d) == Some(key)
    requires Time(W, a) <= Time(W, b) && Time(R, c) <= Time(R, d) && Exposure((a, c)).Some? && Exposure((b, d)).Some?
    requires InGroup(g, ClassifyScope(a)) && !InGroup(g, ClassifyScope(b))
    ensures var e := Totals([a, b] + [c, d], g, [key]);
      e.pairs == 1 && e.unmatchedWrites == 0 && e.unmatchedReads == 0
  {
    var log := [a, b] + [c, d];
    FilterFour(a, b, c, d, HasKey(W, key));
    FilterFour(a, b, c, d, HasKey(R, key));
    assert Select(log, W, key) == [a, b] && Select(log, R, key) == [c, d];
    ByTimeTwo(W, a, b);
    ByTimeTwo(R, c, d);
    MeasuredPairs(a, b, c, d, g);
    OneKey(log, g, key);
  }

  lemma MeasuredPairs(a: Record, b: Record, c: Record, d: Record, g: Group)
    requires Exposure((a, c)).Some? && Exposure((b, d)).Some?
    requires InGroup(g, ClassifyScope(a)) && !InGroup(g, ClassifyScope(b))
    ensures var e := Added(NOTHING, g, [a, b], [c, d]);
      e.pairs == 1 && e.unmatchedWrites == 0 && e.unmatchedReads == 0
  {
    var pairs := [(a, c), (b, d)];
    assert [a, b][1..] == [b] && [c, d][1..] == [d] && [b][1..] == [] && [d][1..] == [];
    assert Zip([], []) == [] && Zip([b], [d]) == [(b, d)] && Zip([a, b], [c, d]) == pairs;
    ExposuresOfTwo((a, c), (b, d), g);
    ExposuresOfTwo((a, c), (b, d), All);
  }

  lemma ExposuresOfTwo(p: (Record, Record), q: (Record, Record), g: Group)
    ensures |Exposures([p, q], g)| == (if Exposure(p).Some? && InGroup(g, ClassifyScope(p.0)) then 1 else 0)
                                    + (if Exposure(q).Some? && InGroup(g, ClassifyScope(q.0)) then 1 else 0)
  {
    assert [p, q][..1] == [p] && [p][..0] == [];
    assert Exposures([], g) == [];
  }

  lemma FilterFirst(r: Record, s: seq<Record>, p: Record -> bool)
    ensures Filter([r] + s, p) == (if p(r) then [r] else []) + Filter(s, p)
  {
    assert ([r] + s)[1..] == s;
  }

  lemma FilterFour(a: Record, b: Record, c: Record, d: Record, p: Record -> bool)
    ensures Filter([a, b] + [c, d], p)
         == (if p(a) then [a] else []) + (if p(b) then [b] else []) + (if p(c) then [c] else []) + (if p(d) then [d] else [])
  {
    FilterTwo(c, d, p);
    FilterFirst(b, [c, d], p);
    FilterFirst(a, [b] + [c, d], p);
    assert [a, b] + [c, d] == [a] + ([b] + [c, d]);
  }
}
