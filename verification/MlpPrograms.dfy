/** Whatever a program of the data-parallel MLP is fed with, it runs to its end; and what a process has done
    in a finished run is what its program does. */
module MlpPrograms {
  import opened Options
  import opened Network
  import opened MlpReference
  import opened MlpProtocol
  import opened MlpProcess
  import opened MlpSchedule

  // ----- A CPU rank, fed with any vectors

  predicate InRound(pc: Pc) {
    pc.SendHeader? || pc.SendModel? || pc.AwaitGradient? || pc.Reduce? || pc.Update? || pc.Broadcast?
  }

  predicate IsStart(pc: Pc) { pc.StartCollect? || pc.StartRelease? || pc.StartAnnounce? || pc.StartAwait? }

  /** Where the program of a rank can be. */
  predicate OnTrack<V>(job: Job<V>, l: Local<V>) {
    && l.Cpu? && 0 <= l.iteration <= job.iterations
    && (match l.pc
        case SendHeader(gpu) => 1 <= gpu <= 2
        case SendModel(gpu) => 1 <= gpu <= 2
        case AwaitGradient(gpu) => 1 <= gpu <= 2
        case Reduce(stride) => stride > 0
        case Stop(gpu) => 1 <= gpu <= 2
        case _ => true)
    && if InRound(l.pc) then l.iteration < job.iterations
       else IsStart(l.pc) || l.pc.LoopHead? || l.iteration == job.iterations
  }

  /** How far away the end is: the stage, the iterations to come, the place in the text, and the loop there. */
  function Stage(pc: Pc): nat {
    if IsStart(pc) then 2 else if InRound(pc) || pc.LoopHead? then 1 else 0
  }

  function PlaceIn(pc: Pc): nat {
    match pc
    case StartCollect(_) => 3
    case StartRelease(_) => 2
    case StartAnnounce => 3
    case StartAwait => 2
    case LoopHead => 20
    case SendHeader(gpu) => if gpu == 1 then 19 else 17
    case SendModel(gpu) => if gpu == 1 then 18 else 16
    case AwaitGradient(gpu) => if gpu == 1 then 15 else 14
    case Reduce(_) => 13
    case Update => 12
    case Broadcast(_) => 11
    case FinishCollect(_) => 5
    case FinishAnnounce => 5
    case Stop(gpu) => if gpu == 1 then 4 else 3
    case Exited => 0
  }

  function Remaining(ranks: nat, pc: Pc): nat {
    var left := match pc
      case StartCollect(peer) => ranks - peer
      case StartRelease(peer) => ranks - peer
      case Reduce(stride) => ranks - stride
      case Broadcast(stride) => stride
      case FinishCollect(peer) => ranks - peer
      case _ => 0;
    if left < 0 then 0 else left
  }

  /** Nearer to the end. */
  predicate IsNearer<V>(job: Job<V>, k: Local<V>, l: Local<V>)
    requires k.Cpu? && l.Cpu?
  {
    || Stage(k.pc) < Stage(l.pc)
    || (Stage(k.pc) == Stage(l.pc) && k.iteration > l.iteration)
    || (Stage(k.pc) == Stage(l.pc) && k.iteration == l.iteration && PlaceIn(k.pc) < PlaceIn(l.pc))
    || (Stage(k.pc) == Stage(l.pc) && k.iteration == l.iteration && PlaceIn(k.pc) == PlaceIn(l.pc)
        && Remaining(job.ranks, k.pc) < Remaining(job.ranks, l.pc))
  }

  /** What a rank does next, if `v` is the next vector it receives. */
  function NextAction<V>(job: Job<V>, r: int, l: Local<V>, v: V): Action<V>
    requires l.Cpu?
  {
    match CpuIntent(job, r, l)
    case Send(to, m) => Sent(to, m)
    case Receive(from, _) =>
      Received(from, if l.pc.Broadcast? then Model(v) else if l.pc.AwaitGradient? || l.pc.Reduce? then Gradient(v) else Token)
    case _ => Tau
  }

  ghost predicate IsStep<V>(job: Job<V>, r: nat, l: Local<V>, v: V)
    requires l.Cpu?
  {
    var a := NextAction(job, r, l, v);
    var next := Taken(job, Chiplet(r, 0), l, a);
    && next.Some? && OnTrack(job, next.value) && IsNearer(job, next.value, l)
    && (DataOf(a) == [] || DataOf(a) == [Numbers(v)])
  }

  lemma GoesOnTrack<V>(job: Job<V>, r: nat, l: Local<V>, v: V)
    requires job.ranks > 0 && OnTrack(job, l) && !l.pc.Exited?
    ensures IsStep(job, r, l, v)
  {
    if l.pc.Reduce? || l.pc.Broadcast? {
      TreeGoesOn(job, r, l, v);
    } else if InRound(l.pc) {
      GpusGoOn(job, r, l, v);
    } else {
      BarriersGoOn(job, r, l, v);
    }
  }

  lemma TreeGoesOn<V>(job: Job<V>, r: nat, l: Local<V>, v: V)
    requires job.ranks > 0 && OnTrack(job, l) && (l.pc.Reduce? || l.pc.Broadcast?)
    ensures IsStep(job, r, l, v)
  {
  }

  lemma GpusGoOn<V>(job: Job<V>, r: nat, l: Local<V>, v: V)
    requires job.ranks > 0 && OnTrack(job, l) && InRound(l.pc) && !l.pc.Reduce? && !l.pc.Broadcast?
    ensures IsStep(job, r, l, v)
  {
  }

  lemma BarriersGoOn<V>(job: Job<V>, r: nat, l: Local<V>, v: V)
    requires job.ranks > 0 && OnTrack(job, l) && !InRound(l.pc) && !l.pc.Exited?
    ensures IsStep(job, r, l, v)
  {
  }

  /** The program goes on from where `actions` have brought it. */
  lemma {:induction false} GoesToItsEnd<V>(job: Job<V>, rank: nat, arrivals: nat -> V, actions: seq<Action<V>>, l: Local<V>, heard: nat)
    returns (all: seq<Action<V>>, end: Local<V>)
    requires job.ranks > 0 && OnTrack(job, l)
    requires Follow(job, Chiplet(rank, 0), Entry(job, Chiplet(rank, 0)), actions) == Some(l) && Heard(actions) == Supply(arrivals, heard)
    ensures Follow(job, Chiplet(rank, 0), Entry(job, Chiplet(rank, 0)), all) == Some(end) && IsSupplied(arrivals, all)
    ensures OnTrack(job, end) && end.pc.Exited?
    decreases Stage(l.pc), job.iterations - l.iteration, PlaceIn(l.pc), Remaining(job.ranks, l.pc)
  {
    if l.pc.Exited? {
      all, end := actions, l;
    } else {
      var a := NextAction(job, rank, l, arrivals(heard));
      GoesOnTrack(job, rank, l, arrivals(heard));
      var next := Taken(job, Chiplet(rank, 0), l, a).value;
      assert (actions + [a])[..|actions|] == actions;
      SupplyOneMore(arrivals, heard, DataOf(a));
      all, end := GoesToItsEnd(job, rank, arrivals, actions + [a], next, heard + |DataOf(a)|);
    }
  }

  lemma SupplyOneMore<V>(arrivals: nat -> V, n: nat, data: seq<Datum<V>>)
    requires data == [] || data == [Numbers(arrivals(n))]
    ensures Supply(arrivals, n) + data == Supply(arrivals, n + |data|)
  {
  }

  /** For every supply of vectors there is a run of the program, with an end. */
  lemma ProgramHasARun<V>(job: Job<V>, rank: nat, arrivals: nat -> V)
    returns (actions: seq<Action<V>>, model: V, gradient: V)
    requires job.Accepted()
    ensures Performed(job, rank, arrivals, actions, model, gradient)
  {
    var end;
    assert Supply(arrivals, 0) == [];
    actions, end := GoesToItsEnd(job, rank, arrivals, [], Entry(job, Chiplet(rank, 0)), 0);
    model, gradient := end.model, end.gradient;
  }

  // ----- A GPU worker, with any inbox

  /** A worker that waits for a header goes on to its end. */
  lemma {:induction false} ServesOn<V>(job: Job<V>, place: Chiplet, actions: seq<Action<V>>, rest: seq<Datum<V>>)
    returns (all: seq<Action<V>>, left: seq<Datum<V>>)
    requires Follow(job, place, AwaitHeader, actions) == Some(AwaitHeader)
    ensures Served(job, place, Heard(actions) + rest, all, left)
    decreases |rest|
  {
    if rest == [] || Size(rest[0]) != 16 {
      all, left := actions, rest;
    } else {
      var next, l := TakesHeader(job, place, actions, rest);
      if !l.AwaitModel? || rest[1..] == [] || Size(rest[1..][0]) != 8 * PARAMETERS {
        all, left := next, rest[1..];
      } else {
        var replied := Replies(job, place, next, l, rest[1..]);
        all, left := ServesOn(job, place, replied, rest[1..][1..]);
      }
    }
  }

  lemma TakesHeader<V>(job: Job<V>, place: Chiplet, actions: seq<Action<V>>, rest: seq<Datum<V>>)
    returns (next: seq<Action<V>>, l: Local<V>)
    requires Follow(job, place, AwaitHeader, actions) == Some(AwaitHeader) && rest != [] && Size(rest[0]) == 16
    ensures Follow(job, place, AwaitHeader, next) == Some(l) && Heard(next) + rest[1..] == Heard(actions) + rest
    ensures l.GpuExited? || l.GpuFailed? || l.AwaitModel?
  {
    var header;
    header, l := HeaderIsTaken(job, place, rest[0]);
    next := actions + [header];
    Extends(job, place, actions, AwaitHeader, header, l, rest);
  }

  lemma HeaderIsTaken<V>(job: Job<V>, place: Chiplet, d: Datum<V>) returns (a: Action<V>, l: Local<V>)
    requires d.Work?
    ensures Taken(job, place, AwaitHeader, a) == Some(l) && DataOf(a) == [d] && (l.GpuExited? || l.GpuFailed? || l.AwaitModel?)
  {
    a := Received(Chiplet(place.x, 0), Header(d.iteration, d.samples));
    l := GpuAccept(job, place, AwaitHeader, a.message);
  }

  lemma Replies<V>(job: Job<V>, place: Chiplet, actions: seq<Action<V>>, l: Local<V>, rest: seq<Datum<V>>)
    returns (next: seq<Action<V>>)
    requires Follow(job, place, AwaitHeader, actions) == Some(l) && l.AwaitModel? && rest != [] && Size(rest[0]) == 8 * PARAMETERS
    ensures Follow(job, place, AwaitHeader, next) == Some(AwaitHeader) && Heard(next) + rest[1..] == Heard(actions) + rest
  {
    var model, reply, sent := ModelIsTaken(job, place, l, rest[0]);
    next := actions + [model];
    Extends(job, place, actions, l, model, reply, rest);
    Extends(job, place, next, reply, sent, AwaitHeader, rest[1..]);
    next := next + [sent];
  }

  lemma ModelIsTaken<V>(job: Job<V>, place: Chiplet, l: Local<V>, d: Datum<V>) returns (a: Action<V>, reply: Local<V>, sent: Action<V>)
    requires l.AwaitModel? && d.Numbers?
    ensures Taken(job, place, l, a) == Some(reply) && DataOf(a) == [d]
    ensures Taken(job, place, reply, sent) == Some(AwaitHeader) && DataOf(sent) == []
  {
    a := Received(Chiplet(place.x, 0), Model(d.values));
    reply := GpuAccept(job, place, l, a.message);
    sent := Sent(Chiplet(place.x, 0), Gradient(reply.values));
  }

  /** One action more, which hears nothing or the next of what there is to hear. */
  lemma Extends<V>(job: Job<V>, place: Chiplet, actions: seq<Action<V>>, l: Local<V>, a: Action<V>, next: Local<V>, rest: seq<Datum<V>>)
    requires Follow(job, place, AwaitHeader, actions) == Some(l) && Taken(job, place, l, a) == Some(next)
    requires DataOf(a) == [] || (rest != [] && DataOf(a) == [rest[0]])
    ensures Follow(job, place, AwaitHeader, actions + [a]) == Some(next)
    ensures Heard(actions + [a]) + rest[|DataOf(a)|..] == Heard(actions) + rest
  {
    assert (actions + [a])[..|actions|] == actions;
    HearsFirst(Heard(actions), DataOf(a), rest);
  }

  lemma HearsFirst<V>(heard: seq<Datum<V>>, data: seq<Datum<V>>, rest: seq<Datum<V>>)
    requires data == [] || (rest != [] && data == [rest[0]])
    ensures heard + data + rest[|data|..] == heard + rest
  {
  }

  /** For every inbox there is a run of the worker, with an end. */
  lemma WorkerHasARun<V>(job: Job<V>, place: Chiplet, inbox: seq<Datum<V>>) returns (actions: seq<Action<V>>, rest: seq<Datum<V>>)
    ensures Served(job, place, inbox, actions, rest)
  {
    assert Follow(job, place, AwaitHeader, []) == Some(AwaitHeader);
    assert Heard<V>([]) + inbox == inbox;
    actions, rest := ServesOn(job, place, [], inbox);
  }

  // ----- Finished runs

  /** A rank hears nothing but tokens and vectors. */
  lemma {:induction false} RanksHearVectors<V>(job: Job<V>, c: Chiplet, l: Local<V>, actions: seq<Action<V>>)
    requires l.Cpu? && Follow(job, c, l, actions).Some? && Follow(job, c, l, actions) != Some(Mangled)
    ensures Follow(job, c, l, actions).value.Cpu?
    ensures forall k | 0 <= k < |Heard(actions)| :: Heard(actions)[k].Numbers?
    decreases |actions|
  {
    if actions != [] {
      var front, a := actions[..|actions| - 1], actions[|actions| - 1];
      FollowPrefix(job, c, l, actions, |front|);
      RanksHearVectors(job, c, l, front);
    }
  }

  /** The vectors that a rank has heard, as a supply. */
  lemma SupplyOf<V>(actions: seq<Action<V>>, other: V) returns (arrivals: nat -> V)
    requires forall k | 0 <= k < |Heard(actions)| :: Heard(actions)[k].Numbers?
    ensures IsSupplied(arrivals, actions)
  {
    var heard := Heard(actions);
    arrivals := (k: nat) => if k < |heard| && heard[k].Numbers? then heard[k].values else other;
  }

  /** The rank has done, with some supply of vectors, what its program does with this supply, and nothing
      else; and its program ends with the reference model. */
  ghost predicate RanItsProgram<V(!new)>(job: Job<V>, order: seq<Chiplet>, rank: nat, arrivals: nat -> V, gradient: V)
    requires job.Accepted() && Run(Mlp(job), Launched(job), order).Some?
  {
    var done := ActionsOf(job, Launched(job), order, Chiplet(rank, 0));
    var model := ReferenceModel(job.training, job.ranks, job.samples, job.iterations);
    && IsSupplied(arrivals, done)
    && Performed(job, rank, arrivals, done, model, gradient)
    && forall actions, m, g | Performed(job, rank, arrivals, actions, m, g) :: actions == done && m == model && g == gradient
  }

  lemma EveryRankRunsItsProgram<V(!new)>(job: Job<V>, order: seq<Chiplet>, rank: nat)
    returns (arrivals: nat -> V, gradient: V)
    requires job.Accepted() && Run(Mlp(job), Launched(job), order) == Some(Finished(job)) && rank < job.ranks
    ensures RanItsProgram(job, order, rank, arrivals, gradient)
  {
    var c := Chiplet(rank, 0);
    var done := ActionsOf(job, Launched(job), order, c);
    FinishedActions(job, order, c);
    EndOf(job, c);
    RanksHearVectors(job, c, Entry(job, c), done);
    arrivals := SupplyOf(done, job.training.initial);
    var actions, m;
    actions, m, gradient := ProgramHasARun(job, rank, arrivals);
    RankRunsItsProgram(job, order, rank, arrivals, actions, m, gradient);
    forall actions, m, g | Performed(job, rank, arrivals, actions, m, g)
      ensures actions == done && m == ReferenceModel(job.training, job.ranks, job.samples, job.iterations) && g == gradient
    {
      RankRunsItsProgram(job, order, rank, arrivals, actions, m, g);
    }
  }

  /** Likewise, a worker has done what its program does with what it received, and nothing is left over. */
  ghost predicate WorkerRanItsProgram<V(!new)>(job: Job<V>, order: seq<Chiplet>, place: Chiplet)
    requires Run(Mlp(job), Launched(job), order).Some?
  {
    var done := ActionsOf(job, Launched(job), order, place);
    && Served(job, place, Heard(done), done, [])
    && forall actions, rest | Served(job, place, Heard(done), actions, rest) :: actions == done && rest == []
  }

  lemma EveryWorkerRunsItsProgram<V(!new)>(job: Job<V>, order: seq<Chiplet>, place: Chiplet)
    requires job.Accepted() && Run(Mlp(job), Launched(job), order) == Some(Finished(job))
    requires place in Chiplets(job.ranks) && place.y != 0
    ensures WorkerRanItsProgram(job, order, place)
  {
    var done := ActionsOf(job, Launched(job), order, place);
    var actions, rest := WorkerHasARun(job, place, Heard(done));
    WorkerRunsItsProgram(job, order, place, Heard(done), actions, rest);
    forall actions, rest | Served(job, place, Heard(done), actions, rest) ensures actions == done && rest == [] {
      WorkerRunsItsProgram(job, order, place, Heard(done), actions, rest);
    }
  }
}
