/** When a notification is sent exactly once. */
module PoolExactlyOnce {
  import opened Counting
  import opened TtlStore
  import opened NotificationPool
  import opened PoolConservation
  import opened PoolDedup
  import opened PoolDrain

  /** The process does not end and no settlement fails. Failing checks, sends and marks, and expiries are allowed. */
  predicate Settles(a: Action) { !EndsProcess(a) && !(a.Settle? && !a.ok) }

  ghost predicate AllSettle(acts: seq<Action>) { forall i :: 0 <= i < |acts| ==> Settles(acts[i]) }

  /** The copy `m` carries the event `e`, and no other copy does. */
  ghost predicate OnlyCopy(body: map<Tag, Body>, e: EventId, m: Tag) {
    && (m in body ==> body[m] == Event(e))
    && (forall k :: k in body && body[k] == Event(e) ==> k == m)
  }

  /** Holds `m`, and its event has been sent. */
  function PastOf(m: Tag): Worker -> nat {
    (x: Worker) => B((x.Marking? || x.Recording? || (x.Settling? && x.how.Ack?)) && x.m == m)
  }

  /** The event was sent as often as its copy has got past a send: once at most. */
  ghost predicate SentOnce(s: State, e: EventId, m: Tag) {
    s.hist.sent[e] == B(m in s.broker.acked) + Sum(s.proc.workers, PastOf(m))
  }

  /** A copy that a worker holds before its send has not been sent by anybody. */
  lemma HeldBeforeSend(c: Config, s: State, e: EventId, m: Tag, w: nat)
    requires Conserved(s) && SentOnce(s, e, m) && w < |s.proc.workers|
    requires Handling(s.proc.workers[w]) && s.proc.workers[w].m == m && PastOf(m)(s.proc.workers[w]) == 0
    ensures s.hist.sent[e] == 0
  {
    var ws := s.proc.workers;
    assert Places(s, m) == B(m in s.broker.body);
    SumTerm(ws, Holds(m), w);
    SumStrict(ws, PastOf(m), Holds(m), w);
  }

  lemma SendsOnce(c: Config, s: State, a: Action, e: EventId, m: Tag)
    requires Enabled(c, s, a) && Evidence(s) && OnlyCopy(s.broker.body, e, m) && SentOnce(s, e, m) && a.Send?
    ensures SentOnce(Apply(c, s, a), e, m)
  {
    StepSum(c, s, a, PastOf(m));
    var x := s.proc.workers[a.w];
    assert WorkerOk(s.broker.body, s.hist.sent, x);
    assert x.e == e <==> x.m == m;
  }

  /** The duplicate check of the only copy finds no mark. */
  lemma ChecksOnce(c: Config, s: State, a: Action, e: EventId, m: Tag)
    requires Enabled(c, s, a) && Evidence(s) && Conserved(s) && OnlyCopy(s.broker.body, e, m) && SentOnce(s, e, m) &&
      a.Check?
    ensures SentOnce(Apply(c, s, a), e, m)
  {
    StepSum(c, s, a, PastOf(m));
    var x := s.proc.workers[a.w];
    assert WorkerOk(s.broker.body, s.hist.sent, x);
    if x.m == m {
      HeldBeforeSend(c, s, e, m, a.w);
      assert e !in s.keys;
    }
  }

  lemma SettlesOnce(c: Config, s: State, a: Action, e: EventId, m: Tag)
    requires Enabled(c, s, a) && Conserved(s) && SentOnce(s, e, m) && a.Settle? && a.ok
    ensures SentOnce(Apply(c, s, a), e, m)
  {
    StepSum(c, s, a, PastOf(m));
    var x := s.proc.workers[a.w];
    assert Places(s, x.m) == B(x.m in s.broker.body);
    SumTerm(s.proc.workers, Holds(x.m), a.w);
  }

  predicate Neither(a: Action) { !EndsProcess(a) && !a.Send? && !a.Check? && !a.Settle? }

  lemma SameWeight(c: Config, s: State, a: Action, m: Tag)
    requires Enabled(c, s, a) && Changed(s, a).Some? && Neither(a)
    requires a.Spawn? ==> s.proc.workers[s.proc.main.n] == NotStarted
    ensures PastOf(m)(WorkerNext(c, s, a)) == PastOf(m)(s.proc.workers[Changed(s, a).value])
  {
  }

  lemma SameCounts(c: Config, s: State, a: Action)
    requires Enabled(c, s, a) && Neither(a)
    ensures HistoryNext(c, s, a).sent == s.hist.sent && BrokerNext(c, s, a).acked == s.broker.acked
  {
  }

  lemma OthersOnce(c: Config, s: State, a: Action, e: EventId, m: Tag)
    requires Enabled(c, s, a) && SentOnce(s, e, m) && Neither(a)
    requires a.Spawn? ==> s.proc.workers[s.proc.main.n] == NotStarted
    ensures SentOnce(Apply(c, s, a), e, m)
  {
    StepSum(c, s, a, PastOf(m));
    SameCounts(c, s, a);
    if Changed(s, a).Some? {
      SameWeight(c, s, a, m);
      WorkersOf(c, s, a);
    }
  }

  lemma OnceStep(c: Config, s: State, a: Action, e: EventId, m: Tag)
    requires Enabled(c, s, a) && Safe(c, s) && OnlyCopy(s.broker.body, e, m) && SentOnce(s, e, m) && Settles(a)
    ensures SentOnce(Apply(c, s, a), e, m)
  {
    if a.Send? {
      SendsOnce(c, s, a, e, m);
    } else if a.Check? {
      ChecksOnce(c, s, a, e, m);
    } else if a.Settle? {
      SettlesOnce(c, s, a, e, m);
    } else {
      if a.Spawn? { assert s.proc.workers[s.proc.main.n] == NotStarted; }
      OthersOnce(c, s, a, e, m);
    }
  }

  lemma {:induction false} BodiesGrow(c: Config, s: State, acts: seq<Action>, s': State)
    requires Run(c, s, acts, s')
    ensures forall k :: k in s.broker.body ==> k in s'.broker.body && s'.broker.body[k] == s.broker.body[k]
    decreases |acts|
  {
    if acts != [] {
      HistoryGrows(c, s, acts[0]);
      BodiesGrow(c, Apply(c, s, acts[0]), acts[1..], s');
    }
  }

  lemma NoOrphan(c: Config, s: State, a: Action)
    requires Enabled(c, s, a) && Settles(a) && s.broker.orphaned == {}
    ensures BrokerNext(c, s, a).orphaned == {}
  {
  }

  lemma {:induction false} OnceRun(c: Config, s: State, acts: seq<Action>, s': State, e: EventId, m: Tag)
    requires Safe(c, s) && Run(c, s, acts, s') && AllSettle(acts)
    requires OnlyCopy(s'.broker.body, e, m) && SentOnce(s, e, m) && s.broker.orphaned == {}
    ensures SentOnce(s', e, m) && s'.broker.orphaned == {}
    decreases |acts|
  {
    if acts != [] {
      BodiesGrow(c, s, acts, s');
      OnceStep(c, s, acts[0], e, m);
      SafeStep(c, s, acts[0]);
      NoOrphan(c, s, acts[0]);
      OnceRun(c, Apply(c, s, acts[0]), acts[1..], s', e, m);
    }
  }

  /** In a run in which the process lives and no settlement fails, every event with one broker copy is sent at most
      once, with no condition on expiries, lost marks or failing checks; and once the serving pool has no work left,
      it has been sent exactly once and acknowledged, or never and dead-lettered. */
  lemma ExactlyOnce(c: Config, acts: seq<Action>, s: State, e: EventId, m: Tag)
    requires Run(c, Init(c), acts, s) && AllSettle(acts)
    requires m in s.broker.body && OnlyCopy(s.broker.body, e, m)
    ensures s.hist.sent[e] <= 1
    ensures Serving(s) && Quiescent(c, s) ==>
      (m in s.broker.acked && m !in s.broker.dlq && s.hist.sent[e] == 1)
      || (m in s.broker.dlq && m !in s.broker.acked && s.hist.sent[e] == 0)
  {
    SafeInit(c);
    SumZero(Init(c).proc.workers, PastOf(m));
    OnceRun(c, Init(c), acts, s, e, m);
    SafeRun(c, Init(c), acts, s);
    OncePlaced(c, s, e, m);
    if Serving(s) && Quiescent(c, s) {
      ReachedBy(c, acts, s);
      QuiescentMeansDrained(c, s);
      QuiescentIsIdle(c, s);
      OnceSettled(s, e, m);
    }
  }

  lemma OncePlaced(c: Config, s: State, e: EventId, m: Tag)
    requires Safe(c, s) && SentOnce(s, e, m)
    ensures s.hist.sent[e] <= 1
  {
    assert Places(s, m) == B(m in s.broker.body);
    SumAtMostOther(s.proc.workers, PastOf(m), Holds(m));
  }

  lemma OnceSettled(s: State, e: EventId, m: Tag)
    requires Conserved(s) && SentOnce(s, e, m) && m in s.broker.body &&
      s.broker.body.Keys == s.broker.acked + s.broker.dlq
    requires forall w :: 0 <= w < |s.proc.workers| ==> !Handling(s.proc.workers[w])
    ensures (m in s.broker.acked && m !in s.broker.dlq && s.hist.sent[e] == 1)
         || (m in s.broker.dlq && m !in s.broker.acked && s.hist.sent[e] == 0)
  {
    assert Places(s, m) == B(m in s.broker.body);
    SumZero(s.proc.workers, PastOf(m));
  }
}
