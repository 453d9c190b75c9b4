/** How often one event's notification can be sent, and what an acknowledgement is worth. */
module PoolDedup {
  import opened Arithmetic
  import opened Counting
  import opened TtlStore
  import opened NotificationPool
  import opened PoolConservation

  // ---- evidence: marks and acknowledgements follow a send ----

  /** The copy's event has been sent successfully at least once. */
  ghost predicate SentFor(body: map<Tag, Body>, sent: multiset<EventId>, m: Tag) {
    m in body && body[m].Event? && body[m].id in sent
  }

  ghost predicate WorkerOk(body: map<Tag, Body>, sent: multiset<EventId>, x: Worker) {
    && (x.Checking? || x.Sending? || x.Marking? || x.Recording? ==> x.m in body && body[x.m] == Event(x.e))
    && (x.Marking? || x.Recording? ==> x.e in sent)
    && (x.Settling? && x.how.Ack? ==> SentFor(body, sent, x.m))
  }

  ghost predicate AllOk(body: map<Tag, Body>, sent: multiset<EventId>, ws: seq<Worker>) {
    forall w :: 0 <= w < |ws| ==> WorkerOk(body, sent, ws[w])
  }

  ghost predicate Evidence(s: State) {
    && AllOk(s.broker.body, s.hist.sent, s.proc.workers)
    && (forall e :: e in s.keys ==> e in s.hist.sent)
    && (forall e :: e in s.rows ==> e in s.hist.sent)
    && (forall m :: m in s.broker.acked ==> SentFor(s.broker.body, s.hist.sent, m))
  }

  /** What was published and sent stays published and sent. */
  lemma HistoryGrows(c: Config, s: State, a: Action)
    requires Enabled(c, s, a)
    ensures var s' := Apply(c, s, a);
      && s.hist.sent <= s'.hist.sent && s.hist.lost <= s'.hist.lost && s.hist.expired <= s'.hist.expired
      && (forall m :: m in s.broker.body ==> m in s'.broker.body && s'.broker.body[m] == s.broker.body[m])
      && s.now <= s'.now
  {
  }

  lemma EvidenceWorker(c: Config, s: State, a: Action)
    requires Enabled(c, s, a) && Evidence(s) && Changed(s, a).Some?
    ensures var s' := Apply(c, s, a); WorkerOk(s'.broker.body, s'.hist.sent, WorkerNext(c, s, a))
  {
    if !a.Spawn? {
      EvidenceMove(c, s, a);
      HistoryGrows(c, s, a);
    }
  }

  /** Judged by what is published already and sent with this step. */
  lemma EvidenceMove(c: Config, s: State, a: Action)
    requires Enabled(c, s, a) && Evidence(s) && ByWorker(a)
    ensures WorkerOk(s.broker.body, HistoryNext(c, s, a).sent, WorkerNext(c, s, a))
  {
    assert WorkerOk(s.broker.body, s.hist.sent, s.proc.workers[a.w]);
  }

  lemma EvidenceStores(c: Config, s: State, a: Action)
    requires Enabled(c, s, a) && Evidence(s)
    ensures var s' := Apply(c, s, a);
      && (forall e :: e in s'.keys ==> e in s'.hist.sent)
      && (forall e :: e in s'.rows ==> e in s'.hist.sent)
  {
    HistoryGrows(c, s, a);
    if a.Mark? || a.Record? { assert WorkerOk(s.broker.body, s.hist.sent, s.proc.workers[a.w]); }
  }

  lemma EvidenceAcked(c: Config, s: State, a: Action)
    requires Enabled(c, s, a) && Evidence(s)
    ensures forall m :: m in Apply(c, s, a).broker.acked ==>
      SentFor(Apply(c, s, a).broker.body, Apply(c, s, a).hist.sent, m)
  {
    HistoryGrows(c, s, a);
    if a.Settle? { assert WorkerOk(s.broker.body, s.hist.sent, s.proc.workers[a.w]); }
    forall m | m in Apply(c, s, a).broker.acked ensures SentFor(s.broker.body, s.hist.sent, m) {
      if a.Settle? && m !in s.broker.acked { assert m == s.proc.workers[a.w].m; }
    }
  }

  lemma AllOkUpdate(body: map<Tag, Body>, sent: multiset<EventId>, ws: seq<Worker>, body': map<Tag, Body>,
      sent': multiset<EventId>, w: nat, x: Worker)
    requires AllOk(body, sent, ws) && sent <= sent'
    requires forall m :: m in body ==> m in body' && body'[m] == body[m]
    ensures AllOk(body', sent', ws)
    ensures w < |ws| && WorkerOk(body', sent', x) ==> AllOk(body', sent', ws[w := x])
  {
  }

  lemma EvidenceMoved(c: Config, s: State, a: Action)
    requires Enabled(c, s, a) && Evidence(s) && Changed(s, a).Some?
    ensures var s' := Apply(c, s, a); AllOk(s'.broker.body, s'.hist.sent, s'.proc.workers)
  {
    HistoryGrows(c, s, a);
    EvidenceWorker(c, s, a);
    WorkersOf(c, s, a);
    AllOkUpdate(s.broker.body, s.hist.sent, s.proc.workers, BrokerNext(c, s, a).body, HistoryNext(c, s, a).sent,
                Changed(s, a).value, WorkerNext(c, s, a));
  }

  lemma EvidenceUnmoved(c: Config, s: State, a: Action)
    requires Enabled(c, s, a) && Evidence(s) && Changed(s, a).None?
    ensures var s' := Apply(c, s, a); AllOk(s'.broker.body, s'.hist.sent, s'.proc.workers)
  {
    if !EndsProcess(a) {
      HistoryGrows(c, s, a);
      AllOkUpdate(s.broker.body, s.hist.sent, s.proc.workers, BrokerNext(c, s, a).body, HistoryNext(c, s, a).sent, 0,
        Idle);
    }
  }

  lemma EvidenceStep(c: Config, s: State, a: Action)
    requires Enabled(c, s, a) && Evidence(s)
    ensures Evidence(Apply(c, s, a))
  {
    if Changed(s, a).Some? { EvidenceMoved(c, s, a); } else { EvidenceUnmoved(c, s, a); }
    EvidenceStores(c, s, a);
    EvidenceAcked(c, s, a);
  }

  // ---- the check-to-mark window ----

  function Copies(s: State, e: EventId): set<Tag> {
    set m | m in s.broker.body && s.broker.body[m] == Event(e)
  }

  /** No more workers than this can be between checking `e` and marking it. */
  function Racers(c: Config, s: State, e: EventId): nat {
    Min(c.numWorkers, |Copies(s, e)|)
  }

  function WindowOf(e: EventId): Worker -> nat {
    (x: Worker) => B((x.Sending? || x.Marking?) && x.e == e)
  }

  function WindowTags(ws: seq<Worker>, e: EventId): set<Tag> {
    if ws == [] then {}
    else if WindowOf(e)(ws[0]) == 1 then {ws[0].m} + WindowTags(ws[1..], e) else WindowTags(ws[1..], e)
  }

  /** Two workers never hold the same copy. */
  lemma HeadIsAlone(ws: seq<Worker>)
    requires forall m :: Sum(ws, Holds(m)) <= 1
    requires ws != [] && Handling(ws[0])
    ensures forall w :: 0 < w < |ws| && Handling(ws[w]) ==> ws[w].m != ws[0].m
  {
    var f := Holds(ws[0].m);
    assert Sum(ws, f) <= 1;
    forall w | 0 < w < |ws| ensures f(ws[w]) == 0 { SumTerm(ws[1..], f, w - 1); }
  }

  lemma {:induction false} WindowTagsCount(ws: seq<Worker>, e: EventId)
    requires forall m :: Sum(ws, Holds(m)) <= 1
    ensures |WindowTags(ws, e)| == Sum(ws, WindowOf(e))
    ensures forall m :: m in WindowTags(ws, e) ==> exists w :: 0 <= w < |ws| && WindowOf(e)(ws[w]) == 1 && ws[w].m == m
  {
    if ws != [] {
      forall m ensures Sum(ws[1..], Holds(m)) <= 1 { assert Sum(ws, Holds(m)) <= 1; }
      WindowTagsCount(ws[1..], e);
      if WindowOf(e)(ws[0]) == 1 { HeadIsAlone(ws); }
      forall m | m in WindowTags(ws[1..], e)
        ensures exists w :: 0 < w < |ws| && WindowOf(e)(ws[w]) == 1 && ws[w].m == m {
        var w :| 0 <= w < |ws[1..]| && WindowOf(e)(ws[1..][w]) == 1 && ws[1..][w].m == m;
        assert ws[w + 1] == ws[1..][w];
      }
    }
  }

  lemma WindowBound(c: Config, s: State, e: EventId)
    requires Inv(c, s) && Evidence(s)
    ensures Sum(s.proc.workers, SendingOf(e)) + Sum(s.proc.workers, MarkingOf(e)) <= Racers(c, s, e)
  {
    var ws := s.proc.workers;
    SumAdd(ws, SendingOf(e), MarkingOf(e), WindowOf(e));
    SumAtMost(ws, WindowOf(e), 1);
    forall m ensures Sum(ws, Holds(m)) <= 1 { assert Places(s, m) == B(m in s.broker.body); }
    WindowTagsCount(ws, e);
    forall m | m in WindowTags(ws, e) ensures m in Copies(s, e) {
      var w :| 0 <= w < |ws| && WindowOf(e)(ws[w]) == 1 && ws[w].m == m;
      assert WorkerOk(s.broker.body, s.hist.sent, ws[w]);
    }
    SubsetSize(WindowTags(ws, e), Copies(s, e));
  }

  // ---- the duplicate bound ----

  /** `k` workers may race in every interval during which the key of `e` is absent. While it is present,
      every send still to come is already past its check; while it is absent, every send of the current
      interval is still unmarked. */
  ghost predicate Bounded(present: bool, h: History, sending: nat, marking: nat, e: EventId, k: nat) {
    if present then h.sent[e] + sending <= k * h.expired[e] + k + h.lost[e]
    else h.sent[e] <= k * h.expired[e] + h.lost[e] + marking
  }

  ghost predicate DupBound(s: State, e: EventId, k: nat) {
    Bounded(e in s.keys, s.hist, Sum(s.proc.workers, SendingOf(e)), Sum(s.proc.workers, MarkingOf(e)), e, k)
  }

  lemma {:induction false} UnmarkedSendsCount(ws: seq<Worker>, e: EventId)
    ensures UnmarkedSends(ws)[e] == Sum(ws, MarkingOf(e))
  {
    if ws != [] { UnmarkedSendsCount(ws[1..], e); }
  }

  lemma BoundedExpiry(keys: Store<EventId, string>, now: nat, h: History, sending: nat, marking: nat, e: EventId,
      k: nat)
    requires Bounded(e in keys, h, sending, marking, e, k)
    ensures var keys' := Purge(keys, now);
      Bounded(e in keys', h.(expired := h.expired + multiset(keys.Keys - keys'.Keys)), sending, marking, e, k)
  {
    MulAdd(h.expired[e], 1, k);
  }

  lemma DupBoundMark(c: Config, s: State, a: Action, e: EventId, k: nat)
    requires Enabled(c, s, a) && a.Mark? && DupBound(s, e, k)
    requires Sum(s.proc.workers, SendingOf(e)) + Sum(s.proc.workers, MarkingOf(e)) <= k
    ensures DupBound(Apply(c, s, a), e, k)
  {
    StepSum(c, s, a, SendingOf(e));
    StepSum(c, s, a, MarkingOf(e));
  }

  lemma DupBoundCheckSend(c: Config, s: State, a: Action, e: EventId, k: nat)
    requires Enabled(c, s, a) && (a.Check? || a.Send?) && DupBound(s, e, k)
    ensures DupBound(Apply(c, s, a), e, k)
  {
    StepSum(c, s, a, SendingOf(e));
    StepSum(c, s, a, MarkingOf(e));
    assert KeysNext(c, s, a) == s.keys;
  }

  lemma DupBoundOther(c: Config, s: State, a: Action, e: EventId, k: nat)
    requires Enabled(c, s, a) && Changed(s, a).Some? && !a.Mark? && !a.Check? && !a.Send? && DupBound(s, e, k)
    requires a.Spawn? ==> s.proc.workers[s.proc.main.n] == NotStarted
    ensures DupBound(Apply(c, s, a), e, k)
  {
    StepSum(c, s, a, SendingOf(e));
    StepSum(c, s, a, MarkingOf(e));
    WorkersOf(c, s, a);
    NotRacing(c, s, a);
    SameBooks(c, s, a);
  }

  lemma SameBooks(c: Config, s: State, a: Action)
    requires Enabled(c, s, a) && Changed(s, a).Some? && !a.Mark? && !a.Send?
    ensures KeysNext(c, s, a) == s.keys && HistoryNext(c, s, a) == s.hist
  {
  }

  lemma NotRacing(c: Config, s: State, a: Action)
    requires Enabled(c, s, a) && Changed(s, a).Some? && !a.Mark? && !a.Check? && !a.Send?
    requires a.Spawn? ==> s.proc.workers[s.proc.main.n] == NotStarted
    ensures var x, x' := s.proc.workers[Changed(s, a).value], WorkerNext(c, s, a);
      !x.Sending? && !x.Marking? && !x'.Sending? && !x'.Marking?
  {
  }

  lemma DupBoundEnd(c: Config, s: State, a: Action, e: EventId, k: nat)
    requires Enabled(c, s, a) && EndsProcess(a) && DupBound(s, e, k)
    ensures DupBound(Apply(c, s, a), e, k)
  {
    StepSum(c, s, a, SendingOf(e));
    UnmarkedSendsCount(s.proc.workers, e);
  }

  lemma DupBoundStep(c: Config, s: State, a: Action, e: EventId, k: nat)
    requires Enabled(c, s, a) && DupBound(s, e, k)
    requires Sum(s.proc.workers, SendingOf(e)) + Sum(s.proc.workers, MarkingOf(e)) <= k
    requires a.Spawn? ==> s.proc.workers[s.proc.main.n] == NotStarted
    ensures DupBound(Apply(c, s, a), e, k)
  {
    if a.Tick? {
      BoundedExpiry(s.keys, s.now + a.d, s.hist, Sum(s.proc.workers, SendingOf(e)), Sum(s.proc.workers, MarkingOf(e)),
        e, k);
    } else if a.Mark? {
      DupBoundMark(c, s, a, e, k);
    } else if a.Check? || a.Send? {
      DupBoundCheckSend(c, s, a, e, k);
    } else if Changed(s, a).Some? {
      DupBoundOther(c, s, a, e, k);
    } else if EndsProcess(a) {
      DupBoundEnd(c, s, a, e, k);
    } else {
      assert WorkersNext(c, s, a) == s.proc.workers;
    }
  }

  lemma RacersGrow(c: Config, s: State, a: Action, e: EventId)
    requires Enabled(c, s, a)
    ensures Racers(c, s, e) <= Racers(c, Apply(c, s, a), e)
  {
    HistoryGrows(c, s, a);
    SubsetSize(Copies(s, e), Copies(Apply(c, s, a), e));
  }

  lemma DupBoundMonotone(s: State, e: EventId, k: nat, k': nat)
    requires DupBound(s, e, k) && k <= k'
    ensures DupBound(s, e, k')
  {
    MulMonotone(k, k', s.hist.expired[e]);
  }

  // ---- over every run ----

  ghost predicate Safe(c: Config, s: State) {
    Inv(c, s) && Evidence(s) && forall e :: DupBound(s, e, Racers(c, s, e))
  }

  lemma SafeStep(c: Config, s: State, a: Action)
    requires Enabled(c, s, a) && Safe(c, s)
    ensures Safe(c, Apply(c, s, a))
  {
    var s' := Apply(c, s, a);
    InvStep(c, s, a);
    EvidenceStep(c, s, a);
    forall e ensures DupBound(s', e, Racers(c, s', e)) {
      assert DupBound(s, e, Racers(c, s, e));
      WindowBound(c, s, e);
      DupBoundStep(c, s, a, e, Racers(c, s, e));
      RacersGrow(c, s, a, e);
      DupBoundMonotone(s', e, Racers(c, s, e), Racers(c, s', e));
    }
  }

  lemma SafeInit(c: Config)
    ensures Safe(c, Init(c))
  {
    InvInit(c);
  }

  lemma {:induction false} SafeRun(c: Config, s: State, acts: seq<Action>, s': State)
    requires Safe(c, s) && Run(c, s, acts, s')
    ensures Safe(c, s')
    decreases |acts|
  {
    if acts != [] {
      SafeStep(c, s, acts[0]);
      SafeRun(c, Apply(c, s, acts[0]), acts[1..], s');
    }
  }

  lemma SafeReachable(c: Config, s: State)
    requires Reachable(c, s)
    ensures Safe(c, s)
  {
    var acts :| Leads(c, acts, s);
    SafeInit(c);
    SafeRun(c, Init(c), acts, s);
  }

  lemma BoundArithmetic(sent: nat, lost: nat, x: nat, sending: nat, marking: nat, present: bool, k: nat, n: nat)
    requires if present then sent + sending <= k * x + k + lost else sent <= k * x + lost + marking
    requires sending + marking <= k <= n
    ensures sent <= k * (1 + x) + lost && sent <= n * (1 + x) + lost
  {
    MulAdd(1, x, k);
    MulMonotone(k, n, 1 + x);
  }

  /** However the copies of `e` are delivered, redelivered and interleaved, and whatever fails: the number
      of successful sends is bounded by the racers of one interval times the number of intervals during
      which the key was absent, plus the sends that were never marked. */
  lemma DuplicateBound(c: Config, s: State, e: EventId)
    requires Reachable(c, s)
    ensures s.hist.sent[e] <= Racers(c, s, e) * (1 + s.hist.expired[e]) + s.hist.lost[e]
    ensures s.hist.sent[e] <= c.numWorkers * (1 + s.hist.expired[e]) + s.hist.lost[e]
  {
    SafeReachable(c, s);
    assert DupBound(s, e, Racers(c, s, e));
    WindowBound(c, s, e);
    BoundFromInvariant(s, e, Racers(c, s, e), c.numWorkers);
  }

  lemma BoundFromInvariant(s: State, e: EventId, k: nat, n: nat)
    requires DupBound(s, e, k) && k <= n
    requires Sum(s.proc.workers, SendingOf(e)) + Sum(s.proc.workers, MarkingOf(e)) <= k
    ensures s.hist.sent[e] <= k * (1 + s.hist.expired[e]) + s.hist.lost[e]
    ensures s.hist.sent[e] <= n * (1 + s.hist.expired[e]) + s.hist.lost[e]
  {
    BoundArithmetic(s.hist.sent[e], s.hist.lost[e], s.hist.expired[e],
                    Sum(s.proc.workers, SendingOf(e)), Sum(s.proc.workers, MarkingOf(e)), e in s.keys, k, n);
  }

  /** With one broker copy per event id, at most one send per interval plus the unmarked ones. */
  lemma AtMostOnce(c: Config, s: State, e: EventId)
    requires Reachable(c, s) && |Copies(s, e)| <= 1
    ensures s.hist.sent[e] <= 1 + s.hist.expired[e] + s.hist.lost[e]
  {
    DuplicateBound(c, s, e);
    MulMonotone(Racers(c, s, e), 1, 1 + s.hist.expired[e]);
  }

  // ---- a run without lost marks, inside the TTL ----

  predicate LosesNoMark(a: Action) { !a.Crash? && !(a.Mark? && a.reply.MarkError?) }

  ghost predicate KeysOutlive(c: Config, keys: Store<EventId, string>) {
    forall e :: e in keys ==> keys[e].expiry == None || keys[e].expiry.value >= c.ttl > 0
  }

  ghost predicate NothingLost(c: Config, s: State) {
    KeysOutlive(c, s.keys) && s.hist.lost == multiset{} && s.hist.expired == multiset{}
  }

  lemma NothingExpires(c: Config, keys: Store<EventId, string>, now: nat)
    requires KeysOutlive(c, keys) && (c.ttl == 0 || now < c.ttl)
    ensures Purge(keys, now) == keys
  {
  }

  lemma CleanStep(c: Config, s: State, a: Action)
    requires Enabled(c, s, a) && Lifecycle(c, s) && NothingLost(c, s) && LosesNoMark(a)
    requires c.ttl == 0 || Apply(c, s, a).now < c.ttl
    ensures NothingLost(c, Apply(c, s, a))
  {
    CleanKeys(c, s, a);
    CleanHistory(c, s, a);
  }

  lemma CleanKeys(c: Config, s: State, a: Action)
    requires Enabled(c, s, a) && KeysOutlive(c, s.keys)
    requires c.ttl == 0 || Apply(c, s, a).now < c.ttl
    ensures KeysOutlive(c, KeysNext(c, s, a))
  {
    if a.Tick? { NothingExpires(c, s.keys, s.now + a.d); }
  }

  lemma CleanHistory(c: Config, s: State, a: Action)
    requires Enabled(c, s, a) && Lifecycle(c, s) && NothingLost(c, s) && LosesNoMark(a)
    requires c.ttl == 0 || Apply(c, s, a).now < c.ttl
    ensures HistoryNext(c, s, a).lost == multiset{} && HistoryNext(c, s, a).expired == multiset{}
  {
    if a.Tick? {
      NothingExpires(c, s.keys, s.now + a.d);
    } else if a.Exit? {
      AllStopped(s.proc.workers);
    }
  }

  lemma {:induction false} AllStopped(ws: seq<Worker>)
    requires forall w :: 0 <= w < |ws| ==> ws[w] == Stopped
    ensures UnmarkedSends(ws) == multiset{}
  {
    if ws != [] {
      assert forall w :: 0 <= w < |ws[1..]| ==> ws[1..][w] == ws[w + 1];
      AllStopped(ws[1..]);
    }
  }

  lemma {:induction false} CleanRun(c: Config, s: State, acts: seq<Action>, s': State)
    requires Inv(c, s) && Run(c, s, acts, s') && NothingLost(c, s)
    requires forall i :: 0 <= i < |acts| ==> LosesNoMark(acts[i])
    requires c.ttl == 0 || s'.now < c.ttl
    ensures NothingLost(c, s')
    decreases |acts|
  {
    if acts != [] {
      var t := Apply(c, s, acts[0]);
      NowGrows(c, t, acts[1..], s');
      CleanStep(c, s, acts[0]);
      InvStep(c, s, acts[0]);
      CleanRun(c, t, acts[1..], s');
    }
  }

  lemma {:induction false} NowGrows(c: Config, s: State, acts: seq<Action>, s': State)
    requires Run(c, s, acts, s')
    ensures s.now <= s'.now
    decreases |acts|
  {
    if acts != [] { NowGrows(c, Apply(c, s, acts[0]), acts[1..], s'); }
  }

  /** Exactly-at-most-once: however often the copy is requeued and redelivered after failing duplicate
      checks, failing sends and failing acknowledgements, it is sent at most once within the TTL as long
      as no mark is lost. */
  lemma AtMostOnceInCleanRun(c: Config, acts: seq<Action>, s: State, e: EventId)
    requires Run(c, Init(c), acts, s) && |Copies(s, e)| <= 1
    requires forall i :: 0 <= i < |acts| ==> LosesNoMark(acts[i])
    requires c.ttl == 0 || s.now < c.ttl
    ensures s.hist.sent[e] <= 1
  {
    InvInit(c);
    CleanRun(c, Init(c), acts, s);
    ReachedBy(c, acts, s);
    AtMostOnce(c, s, e);
  }

  // ---- acknowledged means sent ----

  /** No notification is lost silently: every acknowledged copy is an event that was sent, and every Redis
      key and every processed_events row stands for a send. */
  lemma AckedImpliesSent(c: Config, s: State)
    requires Reachable(c, s)
    ensures forall m :: m in s.broker.acked ==>
      m in s.broker.body && s.broker.body[m].Event? && s.hist.sent[s.broker.body[m].id] >= 1
    ensures forall e :: e in s.keys || e in s.rows ==> s.hist.sent[e] >= 1
  {
    SafeReachable(c, s);
    forall m | m in s.broker.acked
      ensures m in s.broker.body && s.broker.body[m].Event? && s.hist.sent[s.broker.body[m].id] >= 1
    {
      assert SentFor(s.broker.body, s.hist.sent, m);
    }
  }

  // ---- the first mark fixes the interval ----

  lemma IntervalKey(c: Config, s: State, a: Action, e: EventId)
    requires Enabled(c, s, a) && e in s.keys && LiveAt(s.keys[e], Apply(c, s, a).now)
    ensures e in KeysNext(c, s, a) && KeysNext(c, s, a)[e] == s.keys[e]
  {
  }

  lemma IntervalSends(c: Config, s: State, a: Action, e: EventId)
    requires Enabled(c, s, a) && e in s.keys
    ensures HistoryNext(c, s, a).sent[e] + Sum(WorkersNext(c, s, a), SendingOf(e))
         <= s.hist.sent[e] + Sum(s.proc.workers, SendingOf(e))
  {
    StepSum(c, s, a, SendingOf(e));
    WorkersOf(c, s, a);
    if a.Send? {
      IntervalSender(c, s, a, e);
      assert WorkerNext(c, s, a) == AfterSend(c, s.proc.workers[a.w], a.ok);
    } else {
      IntervalOther(c, s, a, e);
    }
  }

  /** A worker past its check sends at most once; nobody passes the check now. */
  lemma IntervalSender(c: Config, s: State, a: Action, e: EventId)
    requires Enabled(c, s, a) && a.Send?
    ensures HistoryNext(c, s, a).sent[e] + SendingOf(e)(AfterSend(c, s.proc.workers[a.w], a.ok))
         <= s.hist.sent[e] + SendingOf(e)(s.proc.workers[a.w])
  {
  }

  lemma IntervalOther(c: Config, s: State, a: Action, e: EventId)
    requires Enabled(c, s, a) && e in s.keys && !a.Send?
    ensures HistoryNext(c, s, a).sent == s.hist.sent
    ensures Changed(s, a).Some? ==> SendingOf(e)(WorkerNext(c, s, a)) == 0
  {
  }

  /** While the key of `e` lives, no SET NX changes it, and the only sends of `e` are by deliveries that
      had passed their check before: no delivery that checks in the interval ever sends. */
  lemma {:induction false} LiveKeyStopsSends(c: Config, s: State, acts: seq<Action>, s': State, e: EventId)
    requires Run(c, s, acts, s') && e in s.keys && LiveAt(s.keys[e], s'.now)
    ensures e in s'.keys && s'.keys[e] == s.keys[e]
    ensures s'.hist.sent[e] + Sum(s'.proc.workers, SendingOf(e)) <= s.hist.sent[e] + Sum(s.proc.workers, SendingOf(e))
    decreases |acts|
  {
    if acts != [] {
      NowGrows(c, Apply(c, s, acts[0]), acts[1..], s');
      IntervalKey(c, s, acts[0], e);
      IntervalSends(c, s, acts[0], e);
      LiveKeyStopsSends(c, Apply(c, s, acts[0]), acts[1..], s', e);
    }
  }

  lemma MarkOpensInterval(c: Config, s: State, w: nat, e: EventId)
    requires Enabled(c, s, Mark(w, MarkOk)) && s.proc.workers[w].e == e && e !in s.keys
    ensures var t := Apply(c, s, Mark(w, MarkOk));
      && e in t.keys && t.keys[e].expiry == Deadline(s.now, c.ttl) && t.hist.sent == s.hist.sent
      && Sum(t.proc.workers, SendingOf(e)) == Sum(s.proc.workers, SendingOf(e))
  {
    StepSum(c, s, Mark(w, MarkOk), SendingOf(e));
  }

  lemma MarkerIsARacer(c: Config, s: State, w: nat, e: EventId)
    requires Safe(c, s) && w < |s.proc.workers| && s.proc.workers[w].Marking? && s.proc.workers[w].e == e
    ensures Sum(s.proc.workers, SendingOf(e)) + 1 <= Racers(c, s, e)
  {
    WindowBound(c, s, e);
    SumTerm(s.proc.workers, MarkingOf(e), w);
  }

  /** From a state with a fresh mark on, with at most k - 1 workers past their check. */
  lemma IntervalAfterMark(c: Config, now: nat, t: State, acts: seq<Action>, s': State, e: EventId, k: nat)
    requires e in t.keys && t.keys[e].expiry == Deadline(now, c.ttl) && Run(c, t, acts, s')
    requires c.ttl == 0 || s'.now < now + c.ttl
    requires Sum(t.proc.workers, SendingOf(e)) + 1 <= k
    ensures e in s'.keys && s'.keys[e].expiry == (if c.ttl == 0 then None else Some(now + c.ttl))
    ensures s'.hist.sent[e] + 1 <= t.hist.sent[e] + k
  {
    LiveKeyStopsSends(c, t, acts, s', e);
  }

  /** The first successful mark of `e`, at time t, fixes the dedup interval [t, t + ttl): among any number
      of racing marks the expiry stays t + ttl, and at most Racers - 1 sends follow in it. */
  lemma FirstMarkFixesInterval(c: Config, s: State, w: nat, t: State, acts: seq<Action>, s': State, e: EventId)
    requires Reachable(c, s) && Enabled(c, s, Mark(w, MarkOk)) && s.proc.workers[w].e == e && e !in s.keys
    requires t == Apply(c, s, Mark(w, MarkOk)) && Run(c, t, acts, s')
    requires c.ttl == 0 || s'.now < s.now + c.ttl
    ensures e in s'.keys && s'.keys[e].expiry == (if c.ttl == 0 then None else Some(s.now + c.ttl))
    ensures s'.hist.sent[e] + 1 <= s.hist.sent[e] + Racers(c, s, e)
  {
    MarkOpensInterval(c, s, w, e);
    MarkerLeavesOthers(c, s, w, e);
    IntervalAfterMark(c, s.now, t, acts, s', e, Racers(c, s, e));
  }

  lemma MarkerLeavesOthers(c: Config, s: State, w: nat, e: EventId)
    requires Reachable(c, s) && w < |s.proc.workers| && s.proc.workers[w].Marking? && s.proc.workers[w].e == e
    ensures Sum(s.proc.workers, SendingOf(e)) + 1 <= Racers(c, s, e)
  {
    SafeReachable(c, s);
    MarkerIsARacer(c, s, w, e);
  }
}
