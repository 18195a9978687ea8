/** Message-passing processes that share directed FIFO channels.

    Every process is a deterministic machine: its local state says whether it has halted, computes,
    sends, or blocks on a receive.  A receive asks one named peer for a byte count, and stays blocked
    until the message at the head of that channel has exactly this length (PipeComm's rule).

    The main result is that the interleaving does not matter: if one run ends, then every run can be
    continued to the very same end, in a number of steps that is the same for all of them.
  */
module Network {
  import opened Options

  /** A process is named by its chiplet coordinate. */
  datatype Chiplet = Chiplet(x: int, y: int)

  datatype Intent<M> =
    | Halted
    | Internal
    | Send(to: Chiplet, message: M)
    | Receive(from: Chiplet, bytes: nat)

  /** `after` is the local state that follows an internal step or a send, `accept` the one that
      follows the receipt of a message. */
  datatype Protocol<!L, !M> = Protocol(
    intent: (Chiplet, L) -> Intent<M>,
    after: (Chiplet, L) -> L,
    accept: (Chiplet, L, M) -> L,
    bytes: M -> nat)

  datatype Channel = Channel(source: Chiplet, destination: Chiplet)

  datatype State<L, M> = State(locals: map<Chiplet, L>, channels: map<Channel, seq<M>>)

  function Queue<M>(channels: map<Channel, seq<M>>, source: Chiplet, destination: Chiplet): seq<M> {
    var c := Channel(source, destination);
    if c in channels then channels[c] else []
  }

  ghost predicate Enabled<L, M>(P: Protocol<L, M>, s: State<L, M>, p: Chiplet) {
    p in s.locals && Ready(P, P.intent(p, s.locals[p]), s.channels, p)
  }

  ghost predicate Ready<L, M>(P: Protocol<L, M>, i: Intent<M>, channels: map<Channel, seq<M>>, p: Chiplet) {
    match i
    case Halted => false
    case Internal => true
    case Send(_, _) => true
    case Receive(from, bytes) =>
      Queue(channels, from, p) != [] && P.bytes(Queue(channels, from, p)[0]) == bytes
  }

  ghost function Step<L, M>(P: Protocol<L, M>, s: State<L, M>, p: Chiplet): State<L, M>
    requires Enabled(P, s, p)
  {
    var l := s.locals[p];
    var i := P.intent(p, l);
    State(s.locals[p := Next(P, i, s.channels, p, l)], Moved(P, i, s.channels, p))
  }

  ghost function Next<L, M>(
      P: Protocol<L, M>, i: Intent<M>, channels: map<Channel, seq<M>>, p: Chiplet, l: L): L
    requires Ready(P, i, channels, p)
  {
    if i.Receive? then P.accept(p, l, Queue(channels, i.from, p)[0]) else P.after(p, l)
  }

  /** What the step does to the channels. */
  ghost function Moved<L, M>(
      P: Protocol<L, M>, i: Intent<M>, channels: map<Channel, seq<M>>, p: Chiplet): map<Channel, seq<M>>
    requires Ready(P, i, channels, p)
  {
    match i
    case Internal => channels
    case Send(to, message) => channels[Channel(p, to) := Queue(channels, p, to) + [message]]
    case Receive(from, _) => channels[Channel(from, p) := Queue(channels, from, p)[1..]]
  }

  /** The end of an interleaving: the processes take steps in this order. */
  ghost function Run<L, M>(P: Protocol<L, M>, s: State<L, M>, order: seq<Chiplet>): Option<State<L, M>>
    decreases |order|
  {
    if order == [] then Some(s)
    else if Enabled(P, s, order[0]) then Run(P, Step(P, s, order[0]), order[1..])
    else None
  }

  /** `t` is reached from `s` by some interleaving of exactly `n` steps. */
  ghost predicate Reaches<L, M>(P: Protocol<L, M>, s: State<L, M>, n: nat, t: State<L, M>) {
    exists order: seq<Chiplet> :: |order| == n && Run(P, s, order) == Some(t)
  }

  ghost predicate Terminal<L, M>(P: Protocol<L, M>, s: State<L, M>) {
    forall p :: !Enabled(P, s, p)
  }

  /** Two processes never get in each other's way: they commute even on a channel that one of them
      fills and the other one drains. */
  lemma Commute<L, M>(P: Protocol<L, M>, channels: map<Channel, seq<M>>, p: Chiplet, i: Intent<M>, q: Chiplet, j: Intent<M>)
    requires p != q && Ready(P, i, channels, p) && Ready(P, j, channels, q)
    ensures Ready(P, j, Moved(P, i, channels, p), q)
    ensures forall l: L :: Next(P, j, Moved(P, i, channels, p), q, l) == Next(P, j, channels, q, l)
    ensures Ready(P, i, Moved(P, j, channels, q), p)
    ensures Moved(P, j, Moved(P, i, channels, p), q) == Moved(P, i, Moved(P, j, channels, q), p)
  {
    var u, v := Moved(P, j, Moved(P, i, channels, p), q), Moved(P, i, Moved(P, j, channels, q), p);
    match (i, j) {
      case (Send(to, m), Receive(from, _)) =>
        var queue := Queue(channels, from, q);
        assert (queue + [m])[1..] == queue[1..] + [m];
      case (Receive(from, _), Send(to, m)) =>
        var queue := Queue(channels, from, p);
        assert (queue + [m])[1..] == queue[1..] + [m];
      case _ =>
    }
    assert u == v;
  }

  lemma Diamond<L, M>(P: Protocol<L, M>, s: State<L, M>, p: Chiplet, q: Chiplet)
    requires p != q && Enabled(P, s, p) && Enabled(P, s, q)
    ensures Enabled(P, Step(P, s, p), q) && Enabled(P, Step(P, s, q), p)
    ensures Step(P, Step(P, s, p), q) == Step(P, Step(P, s, q), p)
  {
    var i, j := P.intent(p, s.locals[p]), P.intent(q, s.locals[q]);
    Commute(P, s.channels, p, i, q, j);
    Commute(P, s.channels, q, j, p, i);
    assert Step(P, Step(P, s, p), q).locals == Step(P, Step(P, s, q), p).locals;
  }

  lemma Prepend<L, M>(P: Protocol<L, M>, s: State<L, M>, p: Chiplet, order: seq<Chiplet>)
    requires Enabled(P, s, p)
    ensures Run(P, s, [p] + order) == Run(P, Step(P, s, p), order)
  {
    assert ([p] + order)[1..] == order;
  }

  /** The confluence step: a run that ends still ends, one step earlier, after any other first step. */
  lemma {:induction false} FirstStepIsFree<L, M>(
      P: Protocol<L, M>, s: State<L, M>, order: seq<Chiplet>, end: State<L, M>, p: Chiplet) returns (rest: seq<Chiplet>)
    requires Run(P, s, order) == Some(end) && Terminal(P, end) && Enabled(P, s, p)
    ensures |order| == |rest| + 1 && Run(P, Step(P, s, p), rest) == Some(end)
    decreases |order|
  {
    if order[0] == p {
      rest := order[1..];
    } else {
      var q := order[0];
      Diamond(P, s, p, q);
      rest := FirstStepIsFree(P, Step(P, s, q), order[1..], end, p);
      Prepend(P, Step(P, s, p), q, rest);
      rest := [q] + rest;
    }
  }

  /** Whatever steps have been `taken`, the run can be completed to the same end, in as many steps. */
  lemma {:induction false} EveryRunMeets<L, M>(
      P: Protocol<L, M>, s: State<L, M>, order: seq<Chiplet>, end: State<L, M>, taken: seq<Chiplet>, t: State<L, M>)
    returns (rest: seq<Chiplet>)
    requires Run(P, s, order) == Some(end) && Terminal(P, end) && Run(P, s, taken) == Some(t)
    ensures |order| == |taken| + |rest| && Run(P, t, rest) == Some(end)
    decreases |taken|
  {
    if taken == [] {
      rest := order;
    } else {
      rest := FirstStepIsFree(P, s, order, end, taken[0]);
      rest := EveryRunMeets(P, Step(P, s, taken[0]), rest, end, taken[1..], t);
    }
  }

  /** If one run from `s` ends in `end` after `n` steps, then no run from `s` is longer than `n`, and
      wherever a run has got to after `m` steps, it is `n - m` steps away from the same `end`. */
  lemma EveryRunEndsAlike<L, M>(P: Protocol<L, M>, s: State<L, M>, n: nat, end: State<L, M>, m: nat, t: State<L, M>)
    requires Reaches(P, s, n, end) && Terminal(P, end) && Reaches(P, s, m, t)
    ensures m <= n && Reaches(P, t, n - m, end)
    ensures Terminal(P, t) <==> t == end
  {
    var order: seq<Chiplet> :| |order| == n && Run(P, s, order) == Some(end);
    var taken: seq<Chiplet> :| |taken| == m && Run(P, s, taken) == Some(t);
    var rest := EveryRunMeets(P, s, order, end, taken, t);
    if rest != [] {
      assert Enabled(P, t, rest[0]);
    }
  }

  /** A process that waits on a channel whose head has the wrong length waits forever. */
  ghost predicate Misfit<L, M>(P: Protocol<L, M>, s: State<L, M>, p: Chiplet) {
    p in s.locals &&
    match P.intent(p, s.locals[p])
    case Receive(from, bytes) =>
      Queue(s.channels, from, p) != [] && P.bytes(Queue(s.channels, from, p)[0]) != bytes
    case _ => false
  }

  lemma {:induction false} MisfitIsForever<L, M>(
      P: Protocol<L, M>, s: State<L, M>, order: seq<Chiplet>, t: State<L, M>, p: Chiplet)
    requires Misfit(P, s, p) && Run(P, s, order) == Some(t)
    ensures Misfit(P, t, p)
    decreases |order|
  {
    if order != [] {
      MisfitStays(P, s, order[0], p);
      MisfitIsForever(P, Step(P, s, order[0]), order[1..], t, p);
    }
  }

  lemma MisfitStays<L, M>(P: Protocol<L, M>, s: State<L, M>, q: Chiplet, p: Chiplet)
    requires Misfit(P, s, p) && Enabled(P, s, q)
    ensures Misfit(P, Step(P, s, q), p)
  {
  }

  /** Nothing that lasts forever is seen on any run, unless it is seen at the end. */
  lemma NoMisfitOnTheWay<L, M>(
      P: Protocol<L, M>, s: State<L, M>, n: nat, end: State<L, M>, m: nat, t: State<L, M>, p: Chiplet)
    requires Reaches(P, s, n, end) && Terminal(P, end) && Reaches(P, s, m, t)
    requires !Misfit(P, end, p)
    ensures !Misfit(P, t, p)
  {
    EveryRunEndsAlike(P, s, n, end, m, t);
    var rest: seq<Chiplet> :| |rest| == n - m && Run(P, t, rest) == Some(end);
    if Misfit(P, t, p) {
      MisfitIsForever(P, t, rest, end, p);
    }
  }

  lemma {:induction false} HaltIsForever<L, M>(
      P: Protocol<L, M>, s: State<L, M>, order: seq<Chiplet>, t: State<L, M>, p: Chiplet)
    requires Run(P, s, order) == Some(t) && p in s.locals && P.intent(p, s.locals[p]).Halted?
    ensures p in t.locals && t.locals[p] == s.locals[p]
    decreases |order|
  {
    if order != [] {
      HaltIsForever(P, Step(P, s, order[0]), order[1..], t, p);
    }
  }

  lemma NoHaltOnTheWay<L, M>(
      P: Protocol<L, M>, s: State<L, M>, n: nat, end: State<L, M>, m: nat, t: State<L, M>, p: Chiplet, l: L)
    requires Reaches(P, s, n, end) && Terminal(P, end) && Reaches(P, s, m, t)
    requires P.intent(p, l).Halted? && (p in end.locals ==> end.locals[p] != l)
    ensures p in t.locals ==> t.locals[p] != l
  {
    EveryRunEndsAlike(P, s, n, end, m, t);
    var rest: seq<Chiplet> :| |rest| == n - m && Run(P, t, rest) == Some(end);
    if p in t.locals && t.locals[p] == l {
      HaltIsForever(P, t, rest, end, p);
    }
  }

  /** A message to somebody outside the network stays on its channel. */
  lemma {:induction false} StraysStay<L, M>(
      P: Protocol<L, M>, s: State<L, M>, order: seq<Chiplet>, t: State<L, M>, p: Chiplet, q: Chiplet)
    requires Run(P, s, order) == Some(t) && q !in s.locals && Queue(s.channels, p, q) != []
    ensures Queue(t.channels, p, q) != []
    decreases |order|
  {
    if order != [] {
      StraysStay(P, Step(P, s, order[0]), order[1..], t, p, q);
    }
  }

  lemma {:induction false} SameProcesses<L, M>(P: Protocol<L, M>, s: State<L, M>, order: seq<Chiplet>, t: State<L, M>)
    requires Run(P, s, order) == Some(t)
    ensures t.locals.Keys == s.locals.Keys
    decreases |order|
  {
    if order != [] {
      SameProcesses(P, Step(P, s, order[0]), order[1..], t);
    }
  }

  /** If the end is quiet, no process ever sends to somebody outside the network. */
  lemma NothingStrays<L, M>(
      P: Protocol<L, M>, s: State<L, M>, n: nat, end: map<Chiplet, L>, m: nat, t: State<L, M>, p: Chiplet)
    requires Reaches(P, s, n, Quiet(end)) && Terminal(P, Quiet(end)) && Reaches(P, s, m, t) && end.Keys == s.locals.Keys
    requires p in t.locals && P.intent(p, t.locals[p]).Send?
    ensures P.intent(p, t.locals[p]).to in t.locals
  {
    var to := P.intent(p, t.locals[p]).to;
    var taken: seq<Chiplet> :| |taken| == m && Run(P, s, taken) == Some(t);
    SameProcesses(P, s, taken, t);
    var u := Step(P, t, p);
    StepReaches(P, s, m, t, p);
    EveryRunEndsAlike(P, s, n, Quiet(end), m + 1, u);
    var rest: seq<Chiplet> :| |rest| == n - (m + 1) && Run(P, u, rest) == Some(Quiet(end));
    if to !in t.locals {
      StraysStay(P, u, rest, Quiet(end), p, to);
    }
  }

  // ----- Building one particular run

  lemma {:induction false} RunThenRun<L, M>(
      P: Protocol<L, M>, s: State<L, M>, first: seq<Chiplet>, t: State<L, M>, second: seq<Chiplet>)
    requires Run(P, s, first) == Some(t)
    ensures Run(P, s, first + second) == Run(P, t, second)
    decreases |first|
  {
    if first == [] {
      assert first + second == second;
    } else {
      assert (first + second)[1..] == first[1..] + second;
      RunThenRun(P, Step(P, s, first[0]), first[1..], t, second);
    }
  }

  lemma StepReaches<L, M>(P: Protocol<L, M>, s: State<L, M>, n: nat, t: State<L, M>, p: Chiplet)
    requires Reaches(P, s, n, t) && Enabled(P, t, p)
    ensures Reaches(P, s, n + 1, Step(P, t, p))
  {
    var order: seq<Chiplet> :| |order| == n && Run(P, s, order) == Some(t);
    RunThenRun(P, s, order, t, [p]);
    Prepend(P, t, p, []);
    assert |order + [p]| == n + 1 && [p] + [] == [p];
  }

  /** All channels between the processes of `locals` exist and are empty. */
  ghost function Quiet<L, M>(locals: map<Chiplet, L>): State<L, M> {
    State(locals, Empty(locals.Keys))
  }

  ghost function Empty<M>(chiplets: set<Chiplet>): map<Channel, seq<M>> {
    map p, q | p in chiplets && q in chiplets :: Channel(p, q) := []
  }

  /** From `a` to `b` with all channels empty at both ends. */
  ghost predicate Leads<L, M>(P: Protocol<L, M>, a: map<Chiplet, L>, b: map<Chiplet, L>) {
    exists order: seq<Chiplet> :: Run(P, Quiet(a), order) == Some(Quiet(b))
  }

  lemma LeadsReaches<L, M>(P: Protocol<L, M>, a: map<Chiplet, L>, b: map<Chiplet, L>) returns (n: nat)
    requires Leads(P, a, b)
    ensures Reaches(P, Quiet(a), n, Quiet(b))
  {
    var order: seq<Chiplet> :| Run(P, Quiet(a), order) == Some(Quiet(b));
    n := |order|;
  }

  lemma Stay<L, M>(P: Protocol<L, M>, a: map<Chiplet, L>)
    ensures Leads(P, a, a)
  {
    assert Run(P, Quiet<L, M>(a), []) == Some(Quiet<L, M>(a));
  }

  lemma Then<L, M>(P: Protocol<L, M>, a: map<Chiplet, L>, b: map<Chiplet, L>, c: map<Chiplet, L>)
    requires Leads(P, a, b) && Leads(P, b, c)
    ensures Leads(P, a, c)
  {
    var first: seq<Chiplet> :| Run(P, Quiet(a), first) == Some(Quiet(b));
    var second: seq<Chiplet> :| Run(P, Quiet(b), second) == Some(Quiet(c));
    RunThenRun(P, Quiet(a), first, Quiet(b), second);
  }

  /** A loop: `a(k)` is the state of the processes before round `k`. */
  lemma {:induction false} Repeat<L, M>(P: Protocol<L, M>, a: nat -> map<Chiplet, L>, n: nat)
    requires forall k: nat | k < n :: Leads(P, a(k), a(k + 1))
    ensures Leads(P, a(0), a(n))
    decreases n
  {
    if n == 0 {
      Stay(P, a(0));
    } else {
      Repeat(P, a, n - 1);
      assert Leads(P, a(n - 1), a((n - 1) + 1));
      Then(P, a(0), a(n - 1), a(n));
    }
  }

  lemma Compute<L, M>(P: Protocol<L, M>, a: map<Chiplet, L>, p: Chiplet)
    requires p in a && P.intent(p, a[p]).Internal?
    ensures Leads(P, a, a[p := P.after(p, a[p])])
  {
    var b := a[p := P.after(p, a[p])];
    assert b.Keys == a.Keys;
    var s: State<L, M> := Quiet(a);
    assert Enabled(P, s, p) && Step(P, s, p) == Quiet(b);
    Prepend(P, s, p, []);
  }

  /** One message passes from `p` to `q`, which is waiting for it. */
  lemma Exchange<L, M>(P: Protocol<L, M>, a: map<Chiplet, L>, p: Chiplet, q: Chiplet, m: M)
    requires p in a && q in a && p != q
    requires P.intent(p, a[p]) == Send(q, m) && P.intent(q, a[q]) == Receive(p, P.bytes(m))
    ensures Leads(P, a, a[p := P.after(p, a[p])][q := P.accept(q, a[q], m)])
  {
    var b := a[p := P.after(p, a[p])][q := P.accept(q, a[q], m)];
    assert b.Keys == a.Keys;
    var s: State<L, M> := Quiet(a);
    assert Enabled(P, s, p);
    var t := Step(P, s, p);
    assert Queue(t.channels, p, q) == [m];
    assert Enabled(P, t, q);
    var u := Step(P, t, q);
    assert u.channels == s.channels;
    assert u == Quiet(b);
    Prepend(P, t, q, []);
    Prepend(P, s, p, [q] + []);
  }
}
