/** Two sweeps that claim to measure a union of intervals, and the window they are clipped to. */
module Intervals {
  /** The points `start, ..., finish - 1`. */
  datatype Interval = Interval(start: int, finish: int)

  function Segment(a: int, b: int): (s: set<int>)
    ensures forall x :: x in s <==> a <= x < b
    ensures |s| == if a <= b then b - a else 0
    decreases b - a
  {
    if b <= a then {} else Segment(a, b - 1) + {b - 1}
  }

  /** All points covered by some interval: what both sweeps are to count. */
  function Points(s: seq<Interval>): set<int> {
    if s == [] then {} else Points(s[..|s| - 1]) + Segment(s[|s| - 1].start, s[|s| - 1].finish)
  }

  predicate Covers(i: Interval, x: int) { i.start <= x < i.finish }

  lemma {:induction false} PointsAreCovered(s: seq<Interval>, x: int)
    ensures x in Points(s) <==> exists i :: i in s && Covers(i, x)
    decreases |s|
  {
    if s != [] {
      var front, last := s[..|s| - 1], s[|s| - 1];
      assert s == front + [last];
      PointsAreCovered(front, x);
      if x in Points(front) {
        var i :| i in front && Covers(i, x);
        assert i in s;
      } else if x in Points(s) {
        assert last in s && Covers(last, x);
      }
    }
  }

  lemma NextPoints(s: seq<Interval>, n: nat)
    requires n < |s|
    ensures Points(s[..n + 1]) == Points(s[..n]) + Segment(s[n].start, s[n].finish)
  {
    assert s[..n + 1][..n] == s[..n];
  }

  lemma AppendedPoints(s: seq<Interval>, x: Interval)
    ensures Points(s + [x]) == Points(s) + Segment(x.start, x.finish)
  {
    assert (s + [x])[..|s|] == s;
  }

  lemma PointsOfPermutation(s: seq<Interval>, t: seq<Interval>)
    requires multiset(s) == multiset(t)
    ensures Points(s) == Points(t)
  {
    forall x ensures x in Points(s) <==> x in Points(t) {
      PointsAreCovered(s, x);
      PointsAreCovered(t, x);
      assert forall i :: i in s <==> i in multiset(s);
      assert forall i :: i in t <==> i in multiset(t);
    }
  }

  /** Intervals that lie within others cover no more points. */
  lemma PointsWithin(s: seq<Interval>, t: seq<Interval>)
    requires forall i | i in s :: exists j :: j in t && j.start <= i.start && i.finish <= j.finish
    ensures Points(s) <= Points(t) && |Points(s)| <= |Points(t)|
  {
    forall x | x in Points(s) ensures x in Points(t) {
      PointsAreCovered(s, x);
      var i :| i in s && Covers(i, x);
      var j :| j in t && j.start <= i.start && i.finish <= j.finish;
      assert Covers(j, x);
      PointsAreCovered(t, x);
    }
    SubsetSize(Points(s), Points(t));
  }

  lemma SubsetSize(a: set<int>, b: set<int>)
    requires a <= b
    ensures |a| <= |b|
  {
    assert b == a + (b - a);
    assert |a + (b - a)| == |a| + |b - a|;
  }

  // ----- Sorting, by start and then by finish

  predicate Below(a: Interval, b: Interval) {
    a.start < b.start || (a.start == b.start && a.finish <= b.finish)
  }

  predicate Ordered(s: seq<Interval>) {
    forall i, j | 0 <= i < j < |s| :: Below(s[i], s[j])
  }

  function Inserted(s: seq<Interval>, x: Interval): seq<Interval> {
    if s != [] && !Below(s[|s| - 1], x) then Inserted(s[..|s| - 1], x) + [s[|s| - 1]] else s + [x]
  }

  function Sorted(s: seq<Interval>): seq<Interval> {
    if s == [] then [] else Inserted(Sorted(s[..|s| - 1]), s[|s| - 1])
  }

  lemma {:induction false} InsertedIsOrdered(s: seq<Interval>, x: Interval)
    requires Ordered(s)
    ensures Ordered(Inserted(s, x)) && multiset(Inserted(s, x)) == multiset(s) + multiset{x}
    decreases |s|
  {
    if s != [] && !Below(s[|s| - 1], x) {
      var front, last := s[..|s| - 1], s[|s| - 1];
      InsertedIsOrdered(front, x);
      assert s == front + [last];
      AboveAll(Inserted(front, x), front, x, last);
    }
  }

  lemma AboveAll(inserted: seq<Interval>, s: seq<Interval>, x: Interval, last: Interval)
    requires Ordered(inserted) && multiset(inserted) == multiset(s) + multiset{x}
    requires Below(x, last) && forall k | 0 <= k < |s| :: Below(s[k], last)
    ensures Ordered(inserted + [last])
  {
    forall k | 0 <= k < |inserted| ensures Below(inserted[k], last) {
      assert inserted[k] in multiset(inserted);
    }
  }

  lemma {:induction false} SortedIsOrdered(s: seq<Interval>)
    ensures Ordered(Sorted(s)) && multiset(Sorted(s)) == multiset(s)
    decreases |s|
  {
    if s != [] {
      SortedIsOrdered(s[..|s| - 1]);
      InsertedIsOrdered(Sorted(s[..|s| - 1]), s[|s| - 1]);
      assert s == s[..|s| - 1] + [s[|s| - 1]];
    }
  }

  // ----- The two sweeps

  /** The collector's sweep, which keeps one open interval.  Its callers only pass intervals that do not
      end before they start. */
  method IntervalUnion(intervals: seq<Interval>) returns (total: int)
    requires forall i | i in intervals :: i.start <= i.finish
    ensures total == |Points(intervals)|
  {
    var ordered := Sorted(intervals);
    SortedIsOrdered(intervals);
    PointsOfPermutation(intervals, ordered);
    if ordered == [] {
      return 0;
    }
    forall k | 0 <= k < |ordered| ensures ordered[k].start <= ordered[k].finish {
      assert ordered[k] in multiset(intervals);
    }
    total := 0;
    var start, finish := ordered[0].start, ordered[0].finish;
    ghost var closed: set<int> := {};
    NextPoints(ordered, 0);
    for n := 1 to |ordered|
      invariant OpenAt(ordered, n, closed, total, start, finish)
    {
      var current := ordered[n];
      if current.start <= finish {
        JoinStep(ordered, n, closed, total, start, finish);
        finish := if finish < current.finish then current.finish else finish;
      } else {
        CloseStep(ordered, n, closed, total, start, finish);
        total := total + finish - start;
        closed := closed + Segment(start, finish);
        start, finish := current.start, current.finish;
      }
    }
    assert ordered[..|ordered|] == ordered;
    Disjoint(closed, Segment(start, finish));
    total := total + finish - start;
  }

  /** The sweep has got past the first `n` intervals. */
  ghost predicate OpenAt(ordered: seq<Interval>, n: nat, closed: set<int>, total: int, start: int, finish: int) {
    && 0 < n <= |ordered| && start <= finish && start <= ordered[n - 1].start
    && Open(Points(ordered[..n]), closed, total, start, finish)
  }

  lemma JoinStep(ordered: seq<Interval>, n: nat, closed: set<int>, total: int, start: int, finish: int)
    requires Ordered(ordered) && OpenAt(ordered, n, closed, total, start, finish) && n < |ordered|
    requires ordered[n].start <= finish && ordered[n].start <= ordered[n].finish
    ensures OpenAt(ordered, n + 1, closed, total, start, if finish < ordered[n].finish then ordered[n].finish else finish)
  {
    NextPoints(ordered, n);
    assert Below(ordered[n - 1], ordered[n]);
    OpenJoin(Points(ordered[..n]), Points(ordered[..n + 1]), closed, total, start, finish, ordered[n]);
  }

  lemma CloseStep(ordered: seq<Interval>, n: nat, closed: set<int>, total: int, start: int, finish: int)
    requires Ordered(ordered) && OpenAt(ordered, n, closed, total, start, finish) && n < |ordered|
    requires finish < ordered[n].start <= ordered[n].finish
    ensures OpenAt(ordered, n + 1, closed + Segment(start, finish), total + finish - start, ordered[n].start, ordered[n].finish)
  {
    NextPoints(ordered, n);
    OpenClose(Points(ordered[..n]), Points(ordered[..n + 1]), closed, total, start, finish, ordered[n]);
  }

  /** `total` counts the closed points, and the open interval holds the rest. */
  ghost predicate Open(points: set<int>, closed: set<int>, total: int, start: int, finish: int) {
    points == closed + Segment(start, finish) && total == |closed| && forall x | x in closed :: x < start
  }

  lemma OpenJoin(points: set<int>, more: set<int>, closed: set<int>, total: int, start: int, finish: int, i: Interval)
    requires Open(points, closed, total, start, finish) && start <= i.start <= finish
    requires more == points + Segment(i.start, i.finish)
    ensures Open(more, closed, total, start, if finish < i.finish then i.finish else finish)
  {
    JoinSegments(start, finish, i);
  }

  lemma OpenClose(points: set<int>, more: set<int>, closed: set<int>, total: int, start: int, finish: int, i: Interval)
    requires Open(points, closed, total, start, finish) && start <= finish < i.start
    requires more == points + Segment(i.start, i.finish)
    ensures Open(more, closed + Segment(start, finish), total + finish - start, i.start, i.finish)
  {
    Disjoint(closed, Segment(start, finish));
  }

  lemma JoinSegments(start: int, finish: int, i: Interval)
    requires start <= i.start <= finish
    ensures Segment(start, finish) + Segment(i.start, i.finish) == Segment(start, if finish < i.finish then i.finish else finish)
  {
  }

  lemma Disjoint(a: set<int>, b: set<int>)
    requires a !! b
    ensures |a + b| == |a| + |b|
  {
  }

  function Lengths(s: seq<Interval>): int {
    if s == [] then 0 else Lengths(s[..|s| - 1]) + s[|s| - 1].finish - s[|s| - 1].start
  }

  /** Non-empty intervals in increasing order with gaps between them. */
  predicate Separate(s: seq<Interval>) {
    (forall i | 0 <= i < |s| :: s[i].start < s[i].finish) && forall i, j | 0 <= i < j < |s| :: s[i].finish < s[j].start
  }

  lemma {:induction false} SeparateLengths(s: seq<Interval>)
    requires Separate(s)
    ensures Lengths(s) == |Points(s)|
    ensures forall x | x in Points(s) :: x < s[|s| - 1].finish
    decreases |s|
  {
    if s != [] {
      var front, last := s[..|s| - 1], s[|s| - 1];
      SeparateLengths(front);
      Disjoint(Points(front), Segment(last.start, last.finish));
    }
  }

  /** The summariser's sweep, which edits the last element of a list of merged intervals.  It skips empty
      and reversed intervals, so it measures the union of any list. */
  method UnionDuration(intervals: seq<Interval>) returns (total: int)
    ensures total == |Points(intervals)|
  {
    var ordered := Sorted(intervals);
    SortedIsOrdered(intervals);
    PointsOfPermutation(intervals, ordered);
    var merged: seq<Interval> := [];
    for n := 0 to |ordered|
      invariant Swept(ordered, n, merged)
    {
      var current := ordered[n];
      SweptNext(ordered, n, merged);
      if current.finish <= current.start {
        continue;
      }
      if merged == [] || current.start > merged[|merged| - 1].finish {
        merged := merged + [current];
      } else {
        merged := Merged(merged, current);
      }
    }
    assert ordered[..|ordered|] == ordered;
    SeparateLengths(merged);
    total := TotalLength(merged);
  }

  /** The merged intervals cover what the first `n` intervals cover, and have not got ahead of them. */
  ghost predicate Swept(ordered: seq<Interval>, n: nat, merged: seq<Interval>)
    requires n <= |ordered|
  {
    && Separate(merged) && Points(merged) == Points(ordered[..n])
    && (merged != [] ==> n > 0 && merged[|merged| - 1].start <= ordered[n - 1].start)
  }

  lemma SweptNext(ordered: seq<Interval>, n: nat, merged: seq<Interval>)
    requires n < |ordered| && Ordered(ordered) && Swept(ordered, n, merged)
    ensures var current := ordered[n];
      if current.finish <= current.start then Swept(ordered, n + 1, merged)
      else if merged == [] || current.start > merged[|merged| - 1].finish then Swept(ordered, n + 1, merged + [current])
      else Swept(ordered, n + 1, Merged(merged, current))
  {
    var current := ordered[n];
    NextPoints(ordered, n);
    assert n > 0 ==> Below(ordered[n - 1], current);
    if current.finish <= current.start {
      assert Segment(current.start, current.finish) == {};
    } else if merged == [] || current.start > merged[|merged| - 1].finish {
      AppendSeparate(merged, current);
      AppendedPoints(merged, current);
    } else {
      MergeLast(merged, current);
      MergedIsSeparate(merged, current);
    }
  }

  lemma AppendSeparate(merged: seq<Interval>, i: Interval)
    requires Separate(merged) && i.start < i.finish && (merged == [] || merged[|merged| - 1].finish < i.start)
    ensures Separate(merged + [i])
  {
    forall k | 0 <= k < |merged| ensures merged[k].finish < i.start {
      if k < |merged| - 1 {
        assert merged[k].finish < merged[|merged| - 1].start;
      }
    }
  }

  function Widened(last: Interval, i: Interval): Interval {
    Interval(last.start, if last.finish < i.finish then i.finish else last.finish)
  }

  /** The last interval is widened to take in another one. */
  function Merged(merged: seq<Interval>, i: Interval): seq<Interval>
    requires merged != []
  {
    merged[|merged| - 1 := Widened(merged[|merged| - 1], i)]
  }

  lemma MergeLast(merged: seq<Interval>, i: Interval)
    requires merged != [] && merged[|merged| - 1].start <= i.start <= merged[|merged| - 1].finish
    ensures Points(Merged(merged, i)) == Points(merged) + Segment(i.start, i.finish)
  {
    MergedParts(merged, i);
    PointsOfMerged(merged[..|merged| - 1], merged[|merged| - 1], i);
  }

  lemma MergedParts(merged: seq<Interval>, i: Interval)
    requires merged != []
    ensures merged == merged[..|merged| - 1] + [merged[|merged| - 1]]
    ensures Merged(merged, i) == merged[..|merged| - 1] + [Widened(merged[|merged| - 1], i)]
  {
  }

  lemma MergedIsSeparate(merged: seq<Interval>, i: Interval)
    requires merged != [] && Separate(merged)
    ensures Separate(Merged(merged, i))
  {
  }

  lemma PointsOfMerged(front: seq<Interval>, last: Interval, i: Interval)
    requires last.start <= i.start <= last.finish
    ensures Points(front + [Widened(last, i)]) == Points(front + [last]) + Segment(i.start, i.finish)
  {
    AppendedPoints(front, Widened(last, i));
    AppendedPoints(front, last);
    JoinSegments(last.start, last.finish, i);
  }

  method TotalLength(s: seq<Interval>) returns (total: int)
    ensures total == Lengths(s)
  {
    total := 0;
    for n := 0 to |s|
      invariant total == Lengths(s[..n])
    {
      assert s[..n + 1][..n] == s[..n];
      total := total + s[n].finish - s[n].start;
    }
    assert s[..|s|] == s;
  }

  // ----- Clipping to the measurement window

  function Clip(i: Interval, window: Interval): Interval {
    Interval(if window.start < i.start then i.start else window.start, if i.finish < window.finish then i.finish else window.finish)
  }

  lemma ClipSegment(i: Interval, w: Interval)
    ensures Segment(Clip(i, w).start, Clip(i, w).finish) == Segment(i.start, i.finish) * Segment(w.start, w.finish)
  {
  }

  lemma Distribute(a: set<int>, b: set<int>, c: set<int>)
    ensures (a + b) * c == a * c + b * c
  {
  }

  /** The positions of the blocking reads that lie at least partly in the window. */
  ghost function Reaching(blocking: seq<Interval>, window: Interval): set<int> {
    set n: int | 0 <= n < |blocking| && Reaches(blocking[n], window)
  }

  predicate Reaches(i: Interval, window: Interval) {
    i.start < i.finish && window.start < window.finish && i.start < window.finish && window.start < i.finish
  }

  lemma ReachingNext(blocking: seq<Interval>, window: Interval, n: nat)
    requires n < |blocking|
    ensures |Reaching(blocking[..n + 1], window)| == |Reaching(blocking[..n], window)| + if Reaches(blocking[n], window) then 1 else 0
  {
    OneMoreOrNot(Reaching(blocking[..n], window), Reaching(blocking[..n + 1], window), n);
  }

  lemma OneMoreOrNot(before: set<int>, after: set<int>, n: int)
    requires forall k: int :: k in before <==> (k in after && k != n)
    ensures |after| == |before| + if n in after then 1 else 0
  {
    var others := after - {n};
    assert forall k: int | k in before :: k in others;
    assert forall k: int | k in others :: k in before;
    assert before <= others && others <= before;
    assert before == others;
    if n in after {
      assert after == others + {n};
    } else {
      assert after == others;
    }
  }

  /** The parts of the blocking reads that fall into the window. */
  method ClipAll(blocking: seq<Interval>, window: Interval) returns (clipped: seq<Interval>)
    ensures Points(clipped) == Points(blocking) * Segment(window.start, window.finish)
    ensures |clipped| == |Reaching(blocking, window)| && forall c | c in clipped :: c.start < c.finish
  {
    clipped := [];
    for n := 0 to |blocking|
      invariant ClippedSoFar(blocking, window, n, clipped)
    {
      var c := Clip(blocking[n], window);
      ClipStep(blocking, window, n, clipped);
      if c.finish <= c.start {
        continue;
      }
      clipped := clipped + [c];
    }
    assert blocking[..|blocking|] == blocking;
  }

  ghost predicate ClippedSoFar(blocking: seq<Interval>, window: Interval, n: nat, clipped: seq<Interval>)
    requires n <= |blocking|
  {
    && Points(clipped) == Points(blocking[..n]) * Segment(window.start, window.finish)
    && |clipped| == |Reaching(blocking[..n], window)| && forall c | c in clipped :: c.start < c.finish
  }

  lemma ClipStep(blocking: seq<Interval>, window: Interval, n: nat, clipped: seq<Interval>)
    requires n < |blocking| && ClippedSoFar(blocking, window, n, clipped)
    ensures var c := Clip(blocking[n], window);
      ClippedSoFar(blocking, window, n + 1, if c.finish <= c.start then clipped else clipped + [c])
  {
    var c := Clip(blocking[n], window);
    var inside, next := Segment(window.start, window.finish), blocking[..n + 1];
    ClippedPoints(blocking, window, n, clipped);
    if c.finish <= c.start {
      assert |clipped| == |Reaching(next, window)| by {
        ReachingNext(blocking, window, n);
      }
      assert Points(clipped) == Points(next) * inside by {
        assert Segment(c.start, c.finish) == {};
      }
    } else {
      assert |clipped + [c]| == |Reaching(next, window)| by {
        ReachingNext(blocking, window, n);
      }
    }
  }

  lemma ClippedPoints(blocking: seq<Interval>, window: Interval, n: nat, clipped: seq<Interval>)
    requires n < |blocking| && Points(clipped) == Points(blocking[..n]) * Segment(window.start, window.finish)
    ensures var c := Clip(blocking[n], window);
      Points(clipped) + Segment(c.start, c.finish) == Points(clipped + [c]) == Points(blocking[..n + 1]) * Segment(window.start, window.finish)
  {
    ClipNext(blocking, window, n);
    AppendedPoints(clipped, Clip(blocking[n], window));
  }

  lemma ClipNext(blocking: seq<Interval>, window: Interval, n: nat)
    requires n < |blocking|
    ensures var c, inside := Clip(blocking[n], window), Segment(window.start, window.finish);
      Points(blocking[..n + 1]) * inside == Points(blocking[..n]) * inside + Segment(c.start, c.finish)
  {
    NextPoints(blocking, n);
    ClipSegment(blocking[n], window);
    Distribute(Points(blocking[..n]), Segment(blocking[n].start, blocking[n].finish), Segment(window.start, window.finish));
  }

  /** The synchronisation share of a window: how much of it is covered by blocking reads. */
  method SynchronisationOverhead(blocking: seq<Interval>, window: Interval) returns (blocked: int, percent: real, events: nat)
    requires window.start < window.finish
    ensures blocked == |Points(blocking) * Segment(window.start, window.finish)|
    ensures 0 <= blocked <= window.finish - window.start
    ensures IsShare(percent, blocked, window.finish - window.start) && 0.0 <= percent <= 100.0
    ensures events == |Reaching(blocking, window)| && (events == 0 <==> blocked == 0)
  {
    blocked, events := BlockedTime(blocking, window);
    percent := PercentOf(blocked, window.finish - window.start);
  }

  method BlockedTime(blocking: seq<Interval>, window: Interval) returns (blocked: int, events: nat)
    requires window.start < window.finish
    ensures blocked == |Points(blocking) * Segment(window.start, window.finish)|
    ensures 0 <= blocked <= window.finish - window.start
    ensures events == |Reaching(blocking, window)| && (events == 0 <==> blocked == 0)
  {
    var clipped := ClipAll(blocking, window);
    events := |clipped|;
    blocked := UnionDuration(clipped);
    BlockedBounds(clipped, window);
  }

  predicate IsShare(percent: real, part: int, whole: int) {
    percent * whole as real == 100.0 * part as real
  }

  method PercentOf(part: int, whole: int) returns (percent: real)
    requires 0 <= part <= whole && whole > 0
    ensures IsShare(percent, part, whole) && 0.0 <= percent <= 100.0
  {
    percent := 100.0 * part as real / whole as real;
    QuotientBounds(100.0 * part as real, whole as real);
  }

  lemma BlockedBounds(clipped: seq<Interval>, window: Interval)
    requires window.start < window.finish && forall c | c in clipped :: c.start < c.finish
    requires Points(clipped) <= Segment(window.start, window.finish)
    ensures |Points(clipped)| <= window.finish - window.start && (clipped == [] <==> |Points(clipped)| == 0)
  {
    SubsetSize(Points(clipped), Segment(window.start, window.finish));
    if clipped != [] {
      PointsAreCovered(clipped, clipped[0].start);
      assert clipped[0] in clipped && Covers(clipped[0], clipped[0].start);
    }
  }

  lemma QuotientBounds(a: real, b: real)
    requires b > 0.0 && 0.0 <= a <= 100.0 * b
    ensures 0.0 <= a / b <= 100.0 && a / b * b == a
  {
    var q := a / b;
    assert q * b == a;
    assert q > 100.0 ==> (q - 100.0) * b > 0.0;
    assert q < 0.0 ==> (0.0 - q) * b > 0.0;
  }
}
