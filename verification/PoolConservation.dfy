/** Message conservation, the prefetch bound and the life cycle of the worker pool, for every run. */
module PoolConservation {
  import opened Counting
  import opened TtlStore
  import opened NotificationPool

  // ---- how one action changes a sum over the workers ----

  lemma WorkersOf(c: Config, s: State, a: Action)
    requires Enabled(c, s, a)
    ensures Apply(c, s, a).proc.workers == WorkersNext(c, s, a)
    ensures !EndsProcess(a) && Changed(s, a).Some? ==> Changed(s, a).value < |s.proc.workers|
  {
  }

  lemma StepSum(c: Config, s: State, a: Action, f: Worker -> nat)
    requires Enabled(c, s, a)
    ensures var s' := Apply(c, s, a);
      if EndsProcess(a) then Sum(s'.proc.workers, f) <= f(NotStarted) * c.numWorkers &&
        s'.proc.workers == AllNotStarted(c.numWorkers)
      else match Changed(s, a)
        case Some(w) =>
          w < |s.proc.workers| == |s'.proc.workers| && s'.proc.workers == s.proc.workers[w := s'.proc.workers[w]]
                        && Sum(s'.proc.workers, f) + f(s.proc.workers[w]) ==
                          Sum(s.proc.workers, f) + f(s'.proc.workers[w])
        case None => s'.proc.workers == s.proc.workers
  {
    WorkersOf(c, s, a);
    if EndsProcess(a) {
      SumAtMost(AllNotStarted(c.numWorkers), f, f(NotStarted));
    } else if Changed(s, a).Some? {
      SumUpdate(s.proc.workers, f, Changed(s, a).value, WorkerNext(c, s, a));
    }
  }

  // ---- conservation ----

  /** In how many places a message copy is. */
  function Places(s: State, m: Tag): nat {
    B(m in s.broker.queue) + B(m in s.broker.buffered) + Sum(s.proc.workers, Holds(m))
    + B(m in s.broker.orphaned) + B(m in s.broker.acked) + B(m in s.broker.dlq)
  }

  ghost predicate Conserved(s: State) {
    forall m :: Places(s, m) == B(m in s.broker.body)
  }

  lemma {:induction false} HeldTagsIff(ws: seq<Worker>, m: Tag)
    ensures m in HeldTags(ws) <==> Sum(ws, Holds(m)) >= 1
  {
    if ws != [] { HeldTagsIff(ws[1..], m); }
  }

  lemma PlacesEnd(c: Config, s: State, a: Action, m: Tag)
    requires Enabled(c, s, a) && Places(s, m) == B(m in s.broker.body) && EndsProcess(a)
    ensures Places(Apply(c, s, a), m) == B(m in s.broker.body)
  {
    StepSum(c, s, a, Holds(m));
    HeldTagsIff(s.proc.workers, m);
  }

  lemma PlacesSettle(c: Config, s: State, a: Action, m: Tag)
    requires Enabled(c, s, a) && Places(s, m) == B(m in s.broker.body) && a.Settle?
    ensures Places(Apply(c, s, a), m) == B(m in s.broker.body)
  {
    StepSum(c, s, a, Holds(m));
    assert Sum(s.proc.workers, Holds(m)) <= 1;
    SumTerm(s.proc.workers, Holds(m), a.w);
  }

  lemma PlacesInHandler(c: Config, s: State, a: Action, m: Tag)
    requires Enabled(c, s, a) && InHandler(a)
    ensures Places(Apply(c, s, a), m) == Places(s, m)
  {
    StepSum(c, s, a, Holds(m));
    assert Holds(m)(WorkerNext(c, s, a)) == Holds(m)(s.proc.workers[a.w]);
  }

  lemma PlacesTake(c: Config, s: State, a: Action, m: Tag)
    requires Enabled(c, s, a) && a.Take? && Places(s, m) == B(m in s.broker.body)
    ensures Places(Apply(c, s, a), m) == B(m in s.broker.body)
  {
    StepSum(c, s, a, Holds(m));
    assert BrokerNext(c, s, a) == s.broker.(buffered := s.broker.buffered - {a.m});
  }

  lemma IdleMoves(c: Config, s: State, a: Action)
    requires Enabled(c, s, a) && (a.Spawn? || IsStop(a))
    requires a.Spawn? ==> s.proc.workers[s.proc.main.n] == NotStarted
    ensures Changed(s, a).Some? && BrokerNext(c, s, a) == s.broker
    ensures !Handling(WorkerNext(c, s, a)) && !Handling(s.proc.workers[Changed(s, a).value])
  {
  }

  lemma PlacesIdle(c: Config, s: State, a: Action, m: Tag)
    requires Enabled(c, s, a) && (a.Spawn? || IsStop(a))
    requires a.Spawn? ==> s.proc.workers[s.proc.main.n] == NotStarted
    ensures Places(Apply(c, s, a), m) == Places(s, m)
  {
    StepSum(c, s, a, Holds(m));
    WorkersOf(c, s, a);
    IdleMoves(c, s, a);
  }

  lemma PlacesStep(c: Config, s: State, a: Action, m: Tag)
    requires Enabled(c, s, a) && Places(s, m) == B(m in s.broker.body)
    requires a.Spawn? ==> s.proc.workers[s.proc.main.n] == NotStarted
    ensures var s' := Apply(c, s, a); Places(s', m) == B(m in s'.broker.body)
  {
    if EndsProcess(a) {
      PlacesEnd(c, s, a, m);
    } else if a.Settle? {
      PlacesSettle(c, s, a, m);
    } else if InHandler(a) {
      PlacesInHandler(c, s, a, m);
    } else if a.Take? {
      PlacesTake(c, s, a, m);
    } else if Changed(s, a).Some? {
      PlacesIdle(c, s, a, m);
    }
  }

  lemma ConservedStep(c: Config, s: State, a: Action)
    requires Enabled(c, s, a) && Conserved(s)
    requires a.Spawn? ==> s.proc.workers[s.proc.main.n] == NotStarted
    ensures Conserved(Apply(c, s, a))
  {
    forall m ensures Places(Apply(c, s, a), m) == B(m in Apply(c, s, a).broker.body) {
      assert Places(s, m) == B(m in s.broker.body);
      PlacesStep(c, s, a, m);
    }
  }

  // ---- the prefetch bound ----

  lemma UnackedEnd(c: Config, s: State, a: Action)
    requires Enabled(c, s, a) && EndsProcess(a)
    ensures Unacked(Apply(c, s, a)) == 0
  {
    StepSum(c, s, a, Busy());
  }

  lemma UnackedTakeSettle(c: Config, s: State, a: Action)
    requires Enabled(c, s, a) && (a.Take? || a.Settle?)
    ensures Unacked(Apply(c, s, a)) <= Unacked(s)
  {
    StepSum(c, s, a, Busy());
    assert Busy()(WorkerNext(c, s, a)) + B(a.Settle?) == Busy()(s.proc.workers[a.w]) + B(a.Take?);
  }

  lemma UnackedInPool(c: Config, s: State, a: Action)
    requires Enabled(c, s, a) && (InHandler(a) || IsStop(a) || a.Spawn?)
    ensures Unacked(Apply(c, s, a)) <= Unacked(s)
  {
    StepSum(c, s, a, Busy());
    assert BrokerNext(c, s, a) == s.broker;
  }

  lemma UnackedOutside(c: Config, s: State, a: Action)
    requires Enabled(c, s, a) && Changed(s, a).None? && !EndsProcess(a)
    ensures Unacked(Apply(c, s, a)) <= Unacked(s) + B(a.Deliver?)
  {
    StepSum(c, s, a, Busy());
  }

  lemma UnackedStep(c: Config, s: State, a: Action)
    requires Enabled(c, s, a) && Unacked(s) <= c.numWorkers
    ensures Unacked(Apply(c, s, a)) <= c.numWorkers
  {
    if EndsProcess(a) {
      UnackedEnd(c, s, a);
    } else if a.Take? || a.Settle? {
      UnackedTakeSettle(c, s, a);
    } else if Changed(s, a).Some? {
      UnackedInPool(c, s, a);
    } else {
      UnackedOutside(c, s, a);
    }
  }

  // ---- the life cycle of the pool ----

  /** Which workers exist in which phase of Consume. */
  ghost predicate Phases(p: Process) {
    match p.main
    case Down => forall w :: 0 <= w < |p.workers| ==> p.workers[w] == NotStarted
    case Spawning(n) => n <= |p.workers| && forall w :: 0 <= w < |p.workers| ==>
      (p.workers[w] == NotStarted <==> n <= w)
    case AwaitDone => forall w :: 0 <= w < |p.workers| ==> p.workers[w] != NotStarted
    case AwaitWorkers => p.done && forall w :: 0 <= w < |p.workers| ==> p.workers[w] != NotStarted
    case Returned => p.done && forall w :: 0 <= w < |p.workers| ==> p.workers[w] == Stopped
  }

  ghost predicate Lifecycle(c: Config, s: State) {
    && |s.proc.workers| == c.numWorkers
    && s.proc.wg == Sum(s.proc.workers, Live())
    && Phases(s.proc)
  }

  /** The WaitGroup counter, step by step. */
  lemma WaitGroupMove(c: Config, s: State, a: Action)
    requires Enabled(c, s, a) && Changed(s, a).Some?
    requires a.Spawn? ==> s.proc.workers[s.proc.main.n] == NotStarted
    ensures ProcessNext(c, s, a).wg + Live()(s.proc.workers[Changed(s, a).value]) ==
      s.proc.wg + Live()(WorkerNext(c, s, a))
  {
  }

  lemma WaitGroupStay(c: Config, s: State, a: Action)
    requires Enabled(c, s, a) && Changed(s, a).None? && !EndsProcess(a)
    ensures ProcessNext(c, s, a).wg == s.proc.wg
  {
  }

  lemma WaitGroupStep(c: Config, s: State, a: Action)
    requires Enabled(c, s, a) && s.proc.wg == Sum(s.proc.workers, Live())
    requires a.Spawn? ==> s.proc.workers[s.proc.main.n] == NotStarted
    ensures ProcessNext(c, s, a).wg == Sum(WorkersNext(c, s, a), Live())
  {
    StepSum(c, s, a, Live());
    WorkersOf(c, s, a);
    if Changed(s, a).Some? {
      WaitGroupMove(c, s, a);
    } else if !EndsProcess(a) {
      WaitGroupStay(c, s, a);
    }
  }

  /** A worker that moves is neither unstarted nor stopped, before or after, except that it may stop now. */
  lemma WorkerPhases(c: Config, s: State, a: Action)
    requires Enabled(c, s, a) && ByWorker(a) && Phases(s.proc)
    ensures Phases(s.proc.(workers := WorkersNext(c, s, a)))
  {
    assert s.proc.workers[a.w] != NotStarted && s.proc.workers[a.w] != Stopped && WorkerNext(c, s, a) != NotStarted;
  }

  lemma WorkerKeepsMain(c: Config, s: State, a: Action)
    requires Enabled(c, s, a) && ByWorker(a)
    ensures ProcessNext(c, s, a) == s.proc.(workers := WorkersNext(c, s, a), wg := ProcessNext(c, s, a).wg)
  {
  }

  lemma MainPhases(c: Config, s: State, a: Action)
    requires Enabled(c, s, a) && Phases(s.proc) && !ByWorker(a)
    requires a.Return? ==> forall w :: 0 <= w < |s.proc.workers| ==> s.proc.workers[w] == Stopped
    ensures Phases(ProcessNext(c, s, a))
  {
  }

  lemma PhasesStep(c: Config, s: State, a: Action)
    requires Enabled(c, s, a) && Phases(s.proc)
    requires a.Return? ==> forall w :: 0 <= w < |s.proc.workers| ==> s.proc.workers[w] == Stopped
    ensures Phases(ProcessNext(c, s, a))
  {
    if ByWorker(a) {
      WorkerPhases(c, s, a);
      WorkerKeepsMain(c, s, a);
    } else {
      MainPhases(c, s, a);
    }
  }

  /** wg.Wait returns only when all workers have. */
  lemma WaitedForAll(ws: seq<Worker>)
    requires Sum(ws, Live()) == 0 && forall w :: 0 <= w < |ws| ==> ws[w] != NotStarted
    ensures forall w :: 0 <= w < |ws| ==> ws[w] == Stopped
  {
    SumZero(ws, Live());
    forall w | 0 <= w < |ws| ensures ws[w] == Stopped { assert Live()(ws[w]) == 0; }
  }

  lemma LifecycleStep(c: Config, s: State, a: Action)
    requires Enabled(c, s, a) && Lifecycle(c, s)
    ensures Lifecycle(c, Apply(c, s, a))
  {
    WorkersOf(c, s, a);
    if a.Spawn? { assert s.proc.workers[s.proc.main.n] == NotStarted; }
    WaitGroupStep(c, s, a);
    if a.Return? { WaitedForAll(s.proc.workers); }
    PhasesStep(c, s, a);
  }

  // ---- over every run ----

  ghost predicate Inv(c: Config, s: State) {
    Conserved(s) && Unacked(s) <= c.numWorkers && Lifecycle(c, s)
  }

  lemma InvInit(c: Config)
    ensures Inv(c, Init(c))
  {
    var ws := AllNotStarted(c.numWorkers);
    SumZero(ws, Live());
    SumZero(ws, Busy());
    forall m ensures Places(Init(c), m) == 0 { SumZero(ws, Holds(m)); }
  }

  lemma InvStep(c: Config, s: State, a: Action)
    requires Enabled(c, s, a) && Inv(c, s)
    ensures Inv(c, Apply(c, s, a))
  {
    ConservedStep(c, s, a);
    UnackedStep(c, s, a);
    LifecycleStep(c, s, a);
  }

  lemma {:induction false} InvRun(c: Config, s: State, acts: seq<Action>, s': State)
    requires Inv(c, s) && Run(c, s, acts, s')
    ensures Inv(c, s')
    decreases |acts|
  {
    if acts != [] {
      InvStep(c, s, acts[0]);
      InvRun(c, Apply(c, s, acts[0]), acts[1..], s');
    }
  }

  /** In every reachable state each published copy is in exactly one place, and nothing else is anywhere;
      at most numWorkers copies are unacknowledged. */
  lemma MessageConservation(c: Config, s: State)
    requires Reachable(c, s)
    ensures forall m :: Places(s, m) == (if m in s.broker.body then 1 else 0)
    ensures Unacked(s) <= c.numWorkers
  {
    var acts :| Leads(c, acts, s);
    InvInit(c);
    InvRun(c, Init(c), acts, s);
  }

  /** A dead-lettered or acknowledged copy stays so: it is never queued, delivered or handled again. */
  lemma {:induction false} FinalIsFinal(c: Config, s: State, acts: seq<Action>, s': State, m: Tag)
    requires Inv(c, s) && Run(c, s, acts, s')
    ensures m in s.broker.dlq ==>
      m in s'.broker.dlq && m !in s'.broker.queue + s'.broker.buffered && Sum(s'.proc.workers, Holds(m)) == 0
    ensures m in s.broker.acked ==>
      m in s'.broker.acked && m !in s'.broker.queue + s'.broker.buffered && Sum(s'.proc.workers, Holds(m)) == 0
    decreases |acts|
  {
    if acts == [] {
      assert Places(s, m) == B(m in s.broker.body);
    } else {
      InvStep(c, s, acts[0]);
      FinalStays(c, s, acts[0], m);
      FinalIsFinal(c, Apply(c, s, acts[0]), acts[1..], s', m);
    }
  }

  lemma FinalStays(c: Config, s: State, a: Action, m: Tag)
    requires Enabled(c, s, a)
    ensures m in s.broker.dlq ==> m in BrokerNext(c, s, a).dlq
    ensures m in s.broker.acked ==> m in BrokerNext(c, s, a).acked
  {
  }

  /** Consume returns only after done was closed and every worker goroutine returned: none of them is
      between receiving a delivery and finishing handleDelivery. In every state the WaitGroup counter is
      the number of live workers. */
  lemma CleanShutdown(c: Config, s: State)
    requires Reachable(c, s)
    ensures s.proc.wg == Sum(s.proc.workers, Live())
    ensures s.proc.main.Returned? ==>
      s.proc.done && s.proc.wg == 0 && |s.proc.workers| == c.numWorkers && forall w :: 0 <= w < |s.proc.workers| ==>
        s.proc.workers[w] == Stopped
  {
    var acts :| Leads(c, acts, s);
    InvInit(c);
    InvRun(c, Init(c), acts, s);
    SumZero(s.proc.workers, Live());
  }
}
