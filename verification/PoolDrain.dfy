/** Every run drains: a bound on the work of any run, what a state without work left looks like,
    and the one way in which the pool stalls. */
module PoolDrain {
  import opened Arithmetic
  import opened Counting
  import opened TtlStore
  import opened NotificationPool
  import opened PoolConservation
  import PoolDedup

  // ---- work, faults, and how much work is left ----

  predicate IsWork(a: Action) {
    a.Deliver? || a.Take? || InHandler(a) || a.Settle?
  }

  predicate IsFault(a: Action) {
    (a.Check? && a.failed) || (a.Mark? && a.reply.MarkError?) || (a.Settle? && !a.ok) || a.CloseChannel? ||
      EndsProcess(a)
  }

  function Works(): Action -> nat { (a: Action) => B(IsWork(a)) }
  function Faults(): Action -> nat { (a: Action) => B(IsFault(a)) }
  function Publishes(): Action -> nat { (a: Action) => B(a.Publish?) }

  /** Steps a worker still needs for its delivery, counting a pending requeue as a whole new round. */
  function Rank(c: Config): Worker -> nat {
    (x: Worker) =>
      match x
      case Parsing(_) => 5 + Retries(c)
      case Checking(_, _) => 4 + Retries(c)
      case Sending(_, _, k) => if k <= Retries(c) then 4 + Retries(c) - k else 4
      case Marking(_, _) => 3
      case Recording(_, _) => 2
      case Settling(_, how) => if how.Requeue? then 8 + Retries(c) else 1
      case _ => 0
  }

  /** Steps one published message needs at most when nothing fails. */
  function PerMessage(c: Config): nat { 7 + Retries(c) }

  function WorkLeft(c: Config, s: State): nat {
    PerMessage(c) * |s.broker.queue| + (PerMessage(c) - 1) * |s.broker.buffered| + Sum(s.proc.workers, Rank(c))
  }

  // ---- one step ----

  lemma HandlerRank(c: Config, s: State, a: Action)
    requires Enabled(c, s, a) && InHandler(a)
    ensures var x, x' := Rank(c)(s.proc.workers[a.w]), Rank(c)(WorkerNext(c, s, a));
      x' <= x + 4 && (!IsFault(a) ==> x' < x)
  {
  }

  lemma InHandlerWork(c: Config, s: State, a: Action)
    requires Enabled(c, s, a) && InHandler(a)
    ensures WorkLeft(c, Apply(c, s, a)) <= WorkLeft(c, s) + 4
    ensures !IsFault(a) ==> WorkLeft(c, Apply(c, s, a)) < WorkLeft(c, s)
  {
    StepSum(c, s, a, Rank(c));
    HandlerRank(c, s, a);
    assert BrokerNext(c, s, a) == s.broker;
  }

  lemma OneMore(q: set<Tag>, m: Tag)
    ensures |q| <= |q + {m}| <= |q| + 1
  {
    if m in q { assert q + {m} == q; }
  }

  lemma SettledQueue(c: Config, s: State, a: Action)
    requires Enabled(c, s, a) && a.Settle?
    ensures var q, q' := |s.broker.queue|, |BrokerNext(c, s, a).queue|;
      q' == q || (q' == q + 1 && s.proc.workers[a.w].how.Requeue?)
  {
    OneMore(s.broker.queue, s.proc.workers[a.w].m);
  }

  lemma SettleWork(c: Config, s: State, a: Action)
    requires Enabled(c, s, a) && a.Settle?
    ensures WorkLeft(c, Apply(c, s, a)) < WorkLeft(c, s)
  {
    StepSum(c, s, a, Rank(c));
    var q, q' := |s.broker.queue|, |BrokerNext(c, s, a).queue|;
    SettledQueue(c, s, a);
    MulAdd(q, q' - q, PerMessage(c));
    assert BrokerNext(c, s, a).buffered == s.broker.buffered;
  }

  lemma DeliverWork(c: Config, s: State, a: Action)
    requires Enabled(c, s, a) && a.Deliver? && a.m !in s.broker.buffered
    ensures WorkLeft(c, Apply(c, s, a)) < WorkLeft(c, s)
  {
    StepSum(c, s, a, Rank(c));
    assert BrokerNext(c, s, a) == s.broker.(queue := s.broker.queue - {a.m}, buffered := s.broker.buffered + {a.m});
    MulAdd(|s.broker.queue| - 1, 1, PerMessage(c));
    MulAdd(|s.broker.buffered|, 1, PerMessage(c) - 1);
  }

  lemma TakeWork(c: Config, s: State, a: Action)
    requires Enabled(c, s, a) && a.Take?
    ensures WorkLeft(c, Apply(c, s, a)) < WorkLeft(c, s)
  {
    StepSum(c, s, a, Rank(c));
    assert BrokerNext(c, s, a) == s.broker.(buffered := s.broker.buffered - {a.m});
    MulAdd(|s.broker.buffered| - 1, 1, PerMessage(c) - 1);
  }

  lemma {:induction false} HeldTagsSize(ws: seq<Worker>)
    ensures |HeldTags(ws)| <= Sum(ws, Busy())
  {
    if ws != [] { HeldTagsSize(ws[1..]); }
  }

  lemma QueueAfterEnd(b: Broker, held: set<Tag>, n: nat)
    requires |b.buffered| + |held| + |b.orphaned| <= n
    ensures |b.queue + b.buffered + held + b.orphaned| <= |b.queue| + n
  {
    UnionSize(b.queue, b.buffered);
    UnionSize(b.queue + b.buffered, held);
    UnionSize(b.queue + b.buffered + held, b.orphaned);
  }

  lemma UnionSize<T>(a: set<T>, b: set<T>)
    ensures |a + b| <= |a| + |b|
  {
    assert a + b == a + (b - a);
    assert b == (b - a) + (b * a);
  }

  lemma EndArithmetic(k: nat, q: nat, q': nat, n: nat)
    requires q' <= q + n
    ensures k * q' <= k * q + k * n
  {
    MulAdd(q', q + n - q', k);
    MulAdd(q, n, k);
  }

  lemma QueueAfterProcess(c: Config, s: State, a: Action)
    requires Enabled(c, s, a) && EndsProcess(a) && Unacked(s) <= c.numWorkers
    ensures var b' := BrokerNext(c, s, a); b'.buffered == {} && |b'.queue| <= |s.broker.queue| + c.numWorkers
  {
    HeldTagsSize(s.proc.workers);
    QueueAfterEnd(s.broker, HeldTags(s.proc.workers), c.numWorkers);
  }

  lemma EndWork(c: Config, s: State, a: Action)
    requires Enabled(c, s, a) && EndsProcess(a) && Unacked(s) <= c.numWorkers
    ensures WorkLeft(c, Apply(c, s, a)) <= WorkLeft(c, s) + PerMessage(c) * c.numWorkers
  {
    QueueAfterProcess(c, s, a);
    SumZero(AllNotStarted(c.numWorkers), Rank(c));
    EndArithmetic(PerMessage(c), |s.broker.queue|, |BrokerNext(c, s, a).queue|, c.numWorkers);
    assert WorkLeft(c, Apply(c, s, a)) == PerMessage(c) * |BrokerNext(c, s, a).queue|;
  }

  lemma OtherWork(c: Config, s: State, a: Action)
    requires Enabled(c, s, a) && !IsWork(a) && !EndsProcess(a)
    requires a.Spawn? ==> s.proc.workers[s.proc.main.n] == NotStarted
    ensures WorkLeft(c, Apply(c, s, a)) <= WorkLeft(c, s) + (if a.Publish? then PerMessage(c) else 0)
  {
    StepSum(c, s, a, Rank(c));
    if a.Publish? {
      UnionSize(s.broker.queue, {a.m});
      MulMonotone(|s.broker.queue + {a.m}|, |s.broker.queue| + 1, PerMessage(c));
      MulAdd(|s.broker.queue|, 1, PerMessage(c));
      assert BrokerNext(c, s, a).buffered == s.broker.buffered;
    } else {
      assert BrokerNext(c, s, a) == s.broker;
      if Changed(s, a).Some? { assert Rank(c)(WorkerNext(c, s, a)) == 0; }
    }
  }

  /** What one fault can add. */
  function PerFault(c: Config): nat { PerMessage(c) * c.numWorkers + 5 }

  function Cost(perFault: nat, perMessage: nat): Action -> nat {
    (a: Action) => (if IsFault(a) then perFault else 0) + (if a.Publish? then perMessage else 0)
  }

  lemma {:induction false} SumCost(acts: seq<Action>, perFault: nat, perMessage: nat)
    ensures Sum(acts, Cost(perFault, perMessage)) ==
      perFault * Sum(acts, Faults()) + perMessage * Sum(acts, Publishes())
  {
    if acts != [] {
      SumCost(acts[1..], perFault, perMessage);
      OneCost(acts[0], perFault, perMessage, Sum(acts[1..], Faults()), Sum(acts[1..], Publishes()));
    }
  }

  lemma OneCost(a: Action, perFault: nat, perMessage: nat, faults: nat, publishes: nat)
    ensures Cost(perFault, perMessage)(a) + perFault * faults + perMessage * publishes
         == perFault * (Faults()(a) + faults) + perMessage * (Publishes()(a) + publishes)
  {
    MulAdd(Faults()(a), faults, perFault);
    MulAdd(Publishes()(a), publishes, perMessage);
  }

  /** Work that meets no fault reduces what is left; a fault on the way adds at most what it costs. */
  lemma WorkActionStep(c: Config, s: State, a: Action)
    requires Enabled(c, s, a) && Conserved(s) && IsWork(a)
    ensures WorkLeft(c, Apply(c, s, a)) <= WorkLeft(c, s) + 4
    ensures !IsFault(a) || a.Settle? ==> WorkLeft(c, Apply(c, s, a)) < WorkLeft(c, s)
  {
    if InHandler(a) {
      InHandlerWork(c, s, a);
    } else if a.Settle? {
      SettleWork(c, s, a);
    } else if a.Take? {
      TakeWork(c, s, a);
    } else {
      assert Places(s, a.m) == B(a.m in s.broker.body);
      DeliverWork(c, s, a);
    }
  }

  lemma CostOf(c: Config, a: Action)
    ensures IsFault(a) ==> Cost(PerFault(c), PerMessage(c))(a) >= PerMessage(c) * c.numWorkers + 5
    ensures a.Publish? ==> Cost(PerFault(c), PerMessage(c))(a) >= PerMessage(c)
  {
  }

  lemma WorkStepWork(c: Config, s: State, a: Action)
    requires Enabled(c, s, a) && Conserved(s) && IsWork(a)
    ensures 1 + WorkLeft(c, Apply(c, s, a)) <= WorkLeft(c, s) + Cost(PerFault(c), PerMessage(c))(a)
  {
    CostOf(c, a);
    WorkActionStep(c, s, a);
  }

  lemma WorkStepOther(c: Config, s: State, a: Action)
    requires Enabled(c, s, a) && !IsWork(a) && Unacked(s) <= c.numWorkers
    requires a.Spawn? ==> s.proc.workers[s.proc.main.n] == NotStarted
    ensures WorkLeft(c, Apply(c, s, a)) <= WorkLeft(c, s) + Cost(PerFault(c), PerMessage(c))(a)
  {
    CostOf(c, a);
    if EndsProcess(a) { EndWork(c, s, a); } else { OtherWork(c, s, a); }
  }

  lemma WorkStep(c: Config, s: State, a: Action)
    requires Enabled(c, s, a) && Inv(c, s)
    ensures B(IsWork(a)) + WorkLeft(c, Apply(c, s, a)) <= WorkLeft(c, s) + Cost(PerFault(c), PerMessage(c))(a)
  {
    if IsWork(a) { WorkStepWork(c, s, a); } else { WorkStepOther(c, s, a); }
  }

  // ---- every run ----

  lemma {:induction false} DrainSum(c: Config, s: State, acts: seq<Action>, s': State)
    requires Inv(c, s) && Run(c, s, acts, s')
    ensures Sum(acts, Works()) + WorkLeft(c, s') <= WorkLeft(c, s) + Sum(acts, Cost(PerFault(c), PerMessage(c)))
    decreases |acts|
  {
    if acts != [] {
      var t := Apply(c, s, acts[0]);
      WorkStep(c, s, acts[0]);
      InvStep(c, s, acts[0]);
      DrainSum(c, t, acts[1..], s');
      SumHead(acts, Works());
      SumHead(acts, Cost(PerFault(c), PerMessage(c)));
    }
  }

  lemma SumHead(acts: seq<Action>, f: Action -> nat)
    requires acts != []
    ensures Sum(acts, f) == f(acts[0]) + Sum(acts[1..], f)
  {
  }

  /** In any run the work done is bounded by the work there was, the messages published and the faults. */
  lemma DrainBound(c: Config, s: State, acts: seq<Action>, s': State)
    requires Inv(c, s) && Run(c, s, acts, s')
    ensures Sum(acts, Works()) + WorkLeft(c, s')
            <= WorkLeft(c, s) + PerFault(c) * Sum(acts, Faults()) + PerMessage(c) * Sum(acts, Publishes())
  {
    DrainSum(c, s, acts, s');
    SumCost(acts, PerFault(c), PerMessage(c));
  }

  ghost predicate FaultFree(acts: seq<Action>) { forall i :: 0 <= i < |acts| ==> !IsFault(acts[i]) }

  lemma NoFaults(acts: seq<Action>)
    requires FaultFree(acts)
    ensures Sum(acts, Faults()) == 0
  {
    SumZero(acts, Faults());
  }

  lemma NoWorkAtFirst(c: Config)
    ensures WorkLeft(c, Init(c)) == 0
  {
    SumZero(Init(c).proc.workers, Rank(c));
  }

  /** Without faults, n published messages cost at most n * (7 + maxRetries) steps of the broker and the workers. */
  lemma FaultFreeWork(c: Config, acts: seq<Action>, s: State)
    requires Run(c, Init(c), acts, s) && FaultFree(acts)
    ensures Sum(acts, Works()) + WorkLeft(c, s) <= (7 + Retries(c)) * Sum(acts, Publishes())
  {
    NoFaults(acts);
    InvInit(c);
    NoWorkAtFirst(c);
    DrainBound(c, Init(c), acts, s);
    assert PerFault(c) * 0 == 0;
  }

  // ---- what is left when nothing can be done ----

  ghost predicate Quiescent(c: Config, s: State) {
    forall a :: IsWork(a) && !IsFault(a) ==> !Enabled(c, s, a)
  }

  ghost predicate Serving(s: State) {
    s.proc.open && exists w :: 0 <= w < |s.proc.workers| && Live()(s.proc.workers[w]) == 1
  }

  /** The step a busy worker would take next. */
  function NextStep(w: nat, x: Worker): (a: Action)
    requires Handling(x)
    ensures IsWork(a) && !IsFault(a)
  {
    match x
    case Parsing(_) => Parse(w)
    case Checking(_, _) => Check(w, false)
    case Sending(_, _, _) => Send(w, true)
    case Marking(_, _) => Mark(w, MarkOk)
    case Recording(_, _) => Record(w, true)
    case Settling(_, _) => Settle(w, true)
  }

  lemma BusyCanStep(c: Config, s: State, w: nat)
    requires Conserved(s) && s.proc.open && w < |s.proc.workers| && Handling(s.proc.workers[w])
    ensures Enabled(c, s, NextStep(w, s.proc.workers[w]))
  {
    var m := s.proc.workers[w].m;
    assert Places(s, m) == B(m in s.broker.body);
    SumTerm(s.proc.workers, Holds(m), w);
  }

  lemma QuiescentIsIdle(c: Config, s: State)
    requires Inv(c, s) && Serving(s) && Quiescent(c, s)
    ensures forall w :: 0 <= w < |s.proc.workers| ==> !Handling(s.proc.workers[w])
    ensures s.broker.buffered == {}
    ensures s.broker.queue == {} || |s.broker.orphaned| == c.numWorkers
  {
    forall w | 0 <= w < |s.proc.workers| ensures !Handling(s.proc.workers[w]) {
      if Handling(s.proc.workers[w]) {
        BusyCanStep(c, s, w);
      }
    }
    var w :| 0 <= w < |s.proc.workers| && Live()(s.proc.workers[w]) == 1;
    if m :| m in s.broker.buffered {
      assert Enabled(c, s, Take(w, m));
    }
    SumZero(s.proc.workers, Busy());
    if m :| m in s.broker.queue {
      assert !Enabled(c, s, Deliver(m));
    }
  }

  lemma IdlePlaces(s: State)
    requires Conserved(s) && s.broker.buffered == {}
    requires forall w :: 0 <= w < |s.proc.workers| ==> !Handling(s.proc.workers[w])
    ensures s.broker.body.Keys == s.broker.queue + s.broker.orphaned + s.broker.acked + s.broker.dlq
  {
    forall m ensures m in s.broker.body <==> m in s.broker.queue + s.broker.orphaned + s.broker.acked + s.broker.dlq {
      assert Places(s, m) == B(m in s.broker.body);
      SumZero(s.proc.workers, Holds(m));
    }
  }

  /** A serving pool with no fault-free work left has settled every published message, each in the acked
      set or in the dead-letter queue, unless a settlement failed; messages stay queued only when as many
      settlements failed as there are workers. */
  lemma QuiescentMeansDrained(c: Config, s: State)
    requires Reachable(c, s) && Serving(s) && Quiescent(c, s)
    ensures s.broker.body.Keys == s.broker.queue + s.broker.orphaned + s.broker.acked + s.broker.dlq
    ensures s.broker.queue != {} ==> |s.broker.orphaned| == c.numWorkers
    ensures s.broker.orphaned == {} ==> s.broker.body.Keys == s.broker.acked + s.broker.dlq
  {
    PoolDedup.SafeReachable(c, s);
    QuiescentIsIdle(c, s);
    IdlePlaces(s);
    assert |s.proc.workers| == c.numWorkers > 0;
  }

  /** The drain theorem: a fault-free run ends, after at most 7 + maxRetries steps per message, with every
      published message acknowledged or dead-lettered. */
  lemma FaultFreeRunsDrain(c: Config, acts: seq<Action>, s: State)
    requires Run(c, Init(c), acts, s) && FaultFree(acts) && Serving(s) && Quiescent(c, s)
    ensures s.broker.body.Keys == s.broker.acked + s.broker.dlq
    ensures Sum(acts, Works()) <= (7 + Retries(c)) * Sum(acts, Publishes())
  {
    FaultFreeWork(c, acts, s);
    NoOrphans(c, Init(c), acts, s);
    ReachedBy(c, acts, s);
    QuiescentMeansDrained(c, s);
  }

  lemma {:induction false} NoOrphans(c: Config, s: State, acts: seq<Action>, s': State)
    requires Run(c, s, acts, s') && FaultFree(acts) && s.broker.orphaned == {}
    ensures s'.broker.orphaned == {}
    decreases |acts|
  {
    if acts != [] {
      assert BrokerNext(c, s, acts[0]).orphaned == {};
      NoOrphans(c, Apply(c, s, acts[0]), acts[1..], s');
    }
  }

  // ---- the stall ----

  ghost predicate Starved(c: Config, s: State) {
    |s.broker.orphaned| == c.numWorkers && Inv(c, s)
  }

  lemma StarvedIsIdle(c: Config, s: State)
    requires Starved(c, s)
    ensures s.broker.buffered == {} && forall w :: 0 <= w < |s.proc.workers| ==> !Handling(s.proc.workers[w])
  {
    SumZero(s.proc.workers, Busy());
    forall w | 0 <= w < |s.proc.workers| ensures !Handling(s.proc.workers[w]) { assert Busy()(s.proc.workers[w]) == 0; }
  }

  lemma StarvedStep(c: Config, s: State, a: Action)
    requires Starved(c, s) && Enabled(c, s, a) && !EndsProcess(a)
    ensures Starved(c, Apply(c, s, a)) && !IsWork(a)
    ensures s.broker.queue <= Apply(c, s, a).broker.queue && Apply(c, s, a).hist.sent == s.hist.sent
    ensures Apply(c, s, a).broker.acked == s.broker.acked
  {
    StarvedIsIdle(c, s);
    InvStep(c, s, a);
  }

  /** Once as many settlements have failed as there are workers, the prefetch window is used up: until the
      process ends nothing is delivered, handled or sent any more, whatever is published. */
  lemma {:induction false} StarvedForever(c: Config, s: State, acts: seq<Action>, s': State)
    requires Starved(c, s) && Run(c, s, acts, s')
    requires forall i :: 0 <= i < |acts| ==> !EndsProcess(acts[i])
    ensures Starved(c, s') && Sum(acts, Works()) == 0
    ensures s.broker.queue <= s'.broker.queue && s'.hist.sent == s.hist.sent && s'.broker.acked == s.broker.acked
    decreases |acts|
  {
    if acts != [] {
      StarvedStep(c, s, acts[0]);
      StarvedForever(c, Apply(c, s, acts[0]), acts[1..], s');
    }
  }

  /** Exactly when a serving pool is stuck with messages queued. */
  lemma StuckIffStarved(c: Config, s: State)
    requires Reachable(c, s) && Serving(s) && s.broker.queue != {}
    ensures Quiescent(c, s) <==> |s.broker.orphaned| == c.numWorkers
  {
    PoolDedup.SafeReachable(c, s);
    if |s.broker.orphaned| == c.numWorkers {
      forall a | IsWork(a) && !IsFault(a) ensures !Enabled(c, s, a) {
        if Enabled(c, s, a) { StarvedStep(c, s, a); }
      }
    } else if Quiescent(c, s) {
      QuiescentIsIdle(c, s);
    }
  }
}
