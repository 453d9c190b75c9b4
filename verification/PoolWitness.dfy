/** Runs that attain the duplicate bound, and exactly when "only one wins" holds. */
module PoolWitness {
  import opened Counting
  import opened TtlStore
  import opened NotificationPool
  import opened PoolConservation
  import opened PoolDedup

  /** A pool in which the first `j` workers have just sent `e`, the next up to `i` are about to, and the
      others are idle; the key is absent and the broker holds nothing else. Tags below `n` are used. */
  ghost predicate Racing(c: Config, s: State, e: EventId, j: nat, i: nat, n: nat) {
    && Reachable(c, s) && s.proc.open && |s.proc.workers| == c.numWorkers && j <= i <= c.numWorkers
    && (forall w :: 0 <= w < j ==> s.proc.workers[w].Marking? && s.proc.workers[w].e == e)
    && (forall w :: j <= w < i ==> s.proc.workers[w].Sending? && s.proc.workers[w].e == e)
    && (forall w :: i <= w < c.numWorkers ==> s.proc.workers[w] == Idle)
    && e !in s.keys
    && s.broker.queue == s.broker.buffered == s.broker.orphaned == {}
    && (forall m :: m in s.broker.body ==> m < n)
  }

  // ---- start-up ----

  lemma {:induction false} SpawnAll(c: Config, s: State) returns (s': State)
    requires Reachable(c, s) && s.proc.main.Spawning? && s.proc.main.n <= |s.proc.workers| == c.numWorkers
    requires s.proc.open && s.broker == Init(c).broker && s.keys == map[] && s.hist == Init(c).hist
    requires forall w :: 0 <= w < s.proc.main.n ==> s.proc.workers[w] == Idle
    ensures Reachable(c, s') && |s'.proc.workers| == c.numWorkers && forall w :: 0 <= w < c.numWorkers ==>
      s'.proc.workers[w] == Idle
    ensures s'.proc.open && s'.broker == s.broker && s'.keys == s.keys && s'.hist == s.hist
    decreases c.numWorkers - s.proc.main.n
  {
    if s.proc.main.n == c.numWorkers {
      s' := s;
    } else {
      StepReachable(c, s, Spawn);
      s' := SpawnAll(c, Apply(c, s, Spawn));
    }
  }

  lemma Started(c: Config, e: EventId) returns (s: State)
    ensures Racing(c, s, e, 0, 0, 0) && s.hist == Init(c).hist && Copies(s, e) == {}
  {
    ReachedBy(c, [], Init(c));
    StepReachable(c, Init(c), Start);
    s := SpawnAll(c, Apply(c, Init(c), Start));
  }

  // ---- one more racer: Publish, Deliver, Take, Parse, Check ----

  lemma RoomForOne(ws: seq<Worker>, i: nat)
    requires i < |ws| && ws[i] == Idle
    ensures Sum(ws, Busy()) < |ws|
  {
    SumUpdate(ws, Busy(), i, Parsing(0));
    SumAtMost(ws[i := Parsing(0)], Busy(), 1);
  }

  lemma PublishOne(c: Config, s: State, e: EventId, n: nat) returns (s': State)
    requires Reachable(c, s) && n !in s.broker.body && s.broker.queue == {}
    ensures Reachable(c, s') && s' == s.(broker := s.broker.(body := s.broker.body[n := Event(e)], queue := {n}))
  {
    StepReachable(c, s, Publish(n, Event(e)));
    s' := Apply(c, s, Publish(n, Event(e)));
    assert s'.proc == s.proc && s'.keys == s.keys && s'.hist == s.hist;
  }

  lemma DeliverOne(c: Config, s: State, n: nat) returns (s': State)
    requires Reachable(c, s) && s.proc.open && s.broker.queue == {n} && s.broker.buffered == {} &&
      Unacked(s) < c.numWorkers
    ensures Reachable(c, s') && s' == s.(broker := s.broker.(queue := {}, buffered := {n}))
  {
    StepReachable(c, s, Deliver(n));
    s' := Apply(c, s, Deliver(n));
    assert s'.proc == s.proc && s'.keys == s.keys && s'.hist == s.hist;
    assert s'.broker.queue == {} && s'.broker.buffered == {n};
  }

  lemma BufferOne(c: Config, s: State, e: EventId, i: nat, n: nat) returns (s': State)
    requires Racing(c, s, e, 0, i, n) && i < c.numWorkers
    ensures Reachable(c, s') && s' == s.(broker := s.broker.(body := s.broker.body[n := Event(e)], buffered := {n}))
  {
    var t := PublishOne(c, s, e, n);
    RoomForOne(t.proc.workers, i);
    s' := DeliverOne(c, t, n);
  }

  lemma TakeOne(c: Config, s: State, i: nat, n: nat) returns (s': State)
    requires Reachable(c, s) && i < |s.proc.workers| && s.proc.workers[i] == Idle && s.broker.buffered == {n}
    ensures Reachable(c, s')
    ensures s' == s.(proc := s.proc.(workers := s.proc.workers[i := Parsing(n)]), broker := s.broker.(buffered := {}))
  {
    StepReachable(c, s, Take(i, n));
    s' := Apply(c, s, Take(i, n));
    assert s'.broker.buffered == {} && s'.keys == s.keys && s'.hist == s.hist;
  }

  lemma TakeAndParse(c: Config, s: State, e: EventId, i: nat, n: nat) returns (s': State)
    requires Reachable(c, s) && i < |s.proc.workers| && s.proc.workers[i] == Idle
    requires s.broker.buffered == {n} && n in s.broker.body && s.broker.body[n] == Event(e)
    ensures Reachable(c, s')
    ensures s' ==
      s.(proc := s.proc.(workers := s.proc.workers[i := Checking(n, e)]), broker := s.broker.(buffered := {}))
  {
    var t := TakeOne(c, s, i, n);
    StepReachable(c, t, Parse(i));
    s' := Apply(c, t, Parse(i));
    assert t.proc.workers[i := Checking(n, e)] == s.proc.workers[i := Checking(n, e)];
  }

  lemma CheckAbsent(c: Config, s: State, e: EventId, i: nat, n: nat) returns (s': State)
    requires Reachable(c, s) && i < |s.proc.workers| && s.proc.workers[i] == Checking(n, e) && e !in s.keys &&
      c.maxRetries >= 1
    ensures Reachable(c, s')
    ensures s' == s.(proc := s.proc.(workers := s.proc.workers[i := Sending(n, e, 1)]))
  {
    StepReachable(c, s, Check(i, false));
    s' := Apply(c, s, Check(i, false));
  }

  lemma OneMoreCopy(s: State, s': State, e: EventId, n: Tag)
    requires n !in s.broker.body && s'.broker.body == s.broker.body[n := Event(e)]
    ensures |Copies(s', e)| == |Copies(s, e)| + 1
  {
    assert Copies(s', e) == Copies(s, e) + {n};
  }

  lemma AddRacer(c: Config, s: State, e: EventId, i: nat, n: nat) returns (s': State)
    requires Racing(c, s, e, 0, i, n) && i < c.numWorkers && c.maxRetries >= 1
    ensures Racing(c, s', e, 0, i + 1, n + 1) && s'.hist == s.hist && |Copies(s', e)| == |Copies(s, e)| + 1
  {
    var b := BufferOne(c, s, e, i, n);
    var t := TakeAndParse(c, b, e, i, n);
    s' := CheckAbsent(c, t, e, i, n);
    assert s'.proc.workers == s.proc.workers[i := Sending(n, e, 1)];
    OneMoreCopy(s, s', e, n);
  }

  lemma {:induction false} AddRacers(c: Config, s: State, e: EventId, i: nat, n: nat, k: nat) returns (s': State,
      n': nat)
    requires Racing(c, s, e, 0, i, n) && i <= k <= c.numWorkers && c.maxRetries >= 1
    ensures Racing(c, s', e, 0, k, n') && s'.hist == s.hist && |Copies(s', e)| == |Copies(s, e)| + (k - i)
    decreases k - i
  {
    if i == k {
      s', n' := s, n;
    } else {
      var t := AddRacer(c, s, e, i, n);
      s', n' := AddRacers(c, t, e, i + 1, n + 1, k);
    }
  }

  // ---- all of them send ----

  lemma {:induction false} SendAll(c: Config, s: State, e: EventId, j: nat, k: nat, n: nat) returns (s': State)
    requires Racing(c, s, e, j, k, n)
    ensures Racing(c, s', e, k, k, n) && s'.broker == s.broker
    ensures s'.hist.sent[e] == s.hist.sent[e] + (k - j) && s'.hist.lost == s.hist.lost &&
      s'.hist.expired == s.hist.expired
    decreases k - j
  {
    if j == k {
      s' := s;
    } else {
      StepReachable(c, s, Send(j, true));
      var t := Apply(c, s, Send(j, true));
      assert t.proc.workers == s.proc.workers[j := Marking(s.proc.workers[j].m, e)] && t.broker == s.broker &&
        t.keys == s.keys;
      s' := SendAll(c, t, e, j + 1, k, n);
    }
  }

  // ---- they mark, acknowledge, and the key expires ----

  /** The workers below `j` are done and idle, the others up to `k` have sent but not marked. */
  ghost predicate Finishing(c: Config, s: State, e: EventId, j: nat, k: nat, n: nat, deadline: nat) {
    && Reachable(c, s) && s.proc.open && |s.proc.workers| == c.numWorkers && j <= k <= c.numWorkers
    && (forall w :: j <= w < k ==> s.proc.workers[w].Marking? && s.proc.workers[w].e == e)
    && (forall w :: 0 <= w < j || k <= w < c.numWorkers ==> s.proc.workers[w] == Idle)
    && (if j == 0 then e !in s.keys else e in s.keys && s.keys[e].expiry == Some(deadline))
    && deadline == s.now + c.ttl
    && s.broker.queue == s.broker.buffered == s.broker.orphaned == {}
    && (forall m :: m in s.broker.body ==> m < n)
  }

  lemma MarkOne(c: Config, s: State, j: nat, m: Tag, e: EventId) returns (s': State)
    requires Reachable(c, s) && j < |s.proc.workers| && s.proc.workers[j] == Marking(m, e)
    ensures Reachable(c, s')
    ensures s' ==
      s.(proc := s.proc.(workers := s.proc.workers[j := Recording(m, e)]), keys := SetNX(s.keys, e, "1", s.now, c.ttl))
  {
    StepReachable(c, s, Mark(j, MarkOk));
    s' := Apply(c, s, Mark(j, MarkOk));
  }

  lemma RecordOne(c: Config, s: State, j: nat, m: Tag, e: EventId) returns (s': State)
    requires Reachable(c, s) && j < |s.proc.workers| && s.proc.workers[j] == Recording(m, e)
    ensures Reachable(c, s')
    ensures s' == s.(proc := s.proc.(workers := s.proc.workers[j := Settling(m, Ack)]), rows := s.rows + {e})
  {
    StepReachable(c, s, Record(j, true));
    s' := Apply(c, s, Record(j, true));
  }

  lemma AckOne(c: Config, s: State, j: nat, m: Tag) returns (s': State)
    requires Reachable(c, s) && s.proc.open && j < |s.proc.workers| && s.proc.workers[j] == Settling(m, Ack)
    ensures Reachable(c, s')
    ensures s' ==
      s.(proc := s.proc.(workers := s.proc.workers[j := Idle]), broker := s.broker.(acked := s.broker.acked + {m}))
  {
    StepReachable(c, s, Settle(j, true));
    s' := Apply(c, s, Settle(j, true));
  }

  /** What FinishOne changes: the worker `j` is idle again, and the key is there. */
  lemma OneFinished(c: Config, s: State, s': State, e: EventId, j: nat, k: nat, n: nat, deadline: nat)
    requires Finishing(c, s, e, j, k, n, deadline) && j < k && c.ttl > 0 && Reachable(c, s')
    requires s'.proc == s.proc.(workers := s.proc.workers[j := Idle]) && s'.now == s.now
    requires s'.keys == SetNX(s.keys, e, "1", s.now, c.ttl)
    requires s'.broker == s.broker.(acked := s'.broker.acked)
    ensures Finishing(c, s', e, j + 1, k, n, deadline)
  {
  }

  lemma FinishOne(c: Config, s: State, e: EventId, j: nat, k: nat, n: nat, deadline: nat) returns (s': State)
    requires Finishing(c, s, e, j, k, n, deadline) && j < k && c.ttl > 0
    ensures Finishing(c, s', e, j + 1, k, n, deadline) && s'.hist == s.hist && Copies(s', e) == Copies(s, e)
  {
    var m := s.proc.workers[j].m;
    var t := MarkOne(c, s, j, m, e);
    var u := RecordOne(c, t, j, m, e);
    s' := AckOne(c, u, j, m);
    SameSlot(s.proc.workers, j, Recording(m, e), Settling(m, Ack));
    OneFinished(c, s, s', e, j, k, n, deadline);
  }

  lemma SameSlot(ws: seq<Worker>, j: nat, x: Worker, y: Worker)
    requires j < |ws|
    ensures ws[j := x][j := y][j := Idle] == ws[j := Idle]
  {
  }

  lemma {:induction false} FinishAll(c: Config, s: State, e: EventId, j: nat, k: nat, n: nat,
      deadline: nat) returns (s': State)
    requires Finishing(c, s, e, j, k, n, deadline) && c.ttl > 0
    ensures Finishing(c, s', e, k, k, n, deadline) && s'.hist == s.hist && Copies(s', e) == Copies(s, e)
    decreases k - j
  {
    if j == k {
      s' := s;
    } else {
      var t := FinishOne(c, s, e, j, k, n, deadline);
      s' := FinishAll(c, t, e, j + 1, k, n, deadline);
    }
  }

  lemma ExpireKey(c: Config, s: State, e: EventId, k: nat, n: nat, deadline: nat) returns (s': State)
    requires Finishing(c, s, e, k, k, n, deadline) && 0 < k && c.ttl > 0
    ensures Racing(c, s', e, 0, 0, n) && s'.hist.sent == s.hist.sent && s'.hist.lost == s.hist.lost
    ensures s'.hist.expired[e] == s.hist.expired[e] + 1 && s'.broker == s.broker
  {
    StepReachable(c, s, Tick(c.ttl));
    s' := Apply(c, s, Tick(c.ttl));
    assert s'.proc == s.proc;
    assert e !in Purge(s.keys, deadline);
  }

  // ---- the bound is attained ----

  /** One interval: `k` deliveries race and all of them send. */
  lemma Race(c: Config, s: State, e: EventId, n: nat, k: nat) returns (s': State, n': nat)
    requires Racing(c, s, e, 0, 0, n) && k <= c.numWorkers && c.maxRetries >= 1
    ensures Racing(c, s', e, k, k, n') && s'.hist.sent[e] == s.hist.sent[e] + k
    ensures s'.hist.lost == s.hist.lost && s'.hist.expired == s.hist.expired && |Copies(s', e)| == |Copies(s, e)| + k
  {
    var t;
    t, n' := AddRacers(c, s, e, 0, n, k);
    s' := SendAll(c, t, e, 0, k, n');
    assert Copies(s', e) == Copies(t, e);
  }

  /** `k` sends in each of `n` intervals. */
  function Rounds(k: nat, n: nat): nat { if n == 0 then 0 else k + Rounds(k, n - 1) }

  lemma {:induction false} RoundsIsProduct(k: nat, n: nat)
    ensures Rounds(k, n) == k * n
  {
    if n > 0 { RoundsIsProduct(k, n - 1); }
  }

  /** The first interval, or the next one after all racers finished and the key expired. */
  lemma NextRace(c: Config, r: State, e: EventId, n: nat) returns (t: State)
    requires Racing(c, r, e, c.numWorkers, c.numWorkers, n) && c.numWorkers >= 1 && c.ttl >= 1
    ensures Racing(c, t, e, 0, 0, n) && t.hist.sent == r.hist.sent && t.hist.lost == r.hist.lost
    ensures t.hist.expired[e] == r.hist.expired[e] + 1
  {
    var u := FinishAll(c, r, e, 0, c.numWorkers, n, r.now + c.ttl);
    t := ExpireKey(c, u, e, c.numWorkers, n, r.now + c.ttl);
  }

  lemma {:induction false} RaceAgain(c: Config, e: EventId, x: nat) returns (s: State, n: nat)
    requires c.numWorkers >= 1 && c.maxRetries >= 1 && c.ttl >= 1
    ensures Racing(c, s, e, c.numWorkers, c.numWorkers, n)
    ensures s.hist.sent[e] == Rounds(c.numWorkers, 1 + x) && s.hist.expired[e] == x && s.hist.lost[e] == 0
    ensures |Copies(s, e)| >= c.numWorkers
    decreases x
  {
    var t;
    if x == 0 {
      t := Started(c, e);
      n := 0;
    } else {
      var r;
      r, n := RaceAgain(c, e, x - 1);
      t := NextRace(c, r, e, n);
    }
    s, n := Race(c, t, e, n, c.numWorkers);
  }

  /** The duplicate bound is exact: for every pool size and every number of expiries some run reaches it
      without losing a single mark. */
  lemma DuplicateBoundAttained(c: Config, e: EventId, x: nat)
    requires c.numWorkers >= 1 && c.maxRetries >= 1 && c.ttl >= 1
    ensures exists s :: Reachable(c, s) && s.hist.expired[e] == x && s.hist.lost[e] == 0
                        && s.hist.sent[e] == Racers(c, s, e) * (1 + x) == c.numWorkers * (1 + x)
  {
    var s, n := RaceAgain(c, e, x);
    RoundsIsProduct(c.numWorkers, 1 + x);
    assert Racers(c, s, e) == c.numWorkers;
  }

  /** "Only one wins and the other safely skips": within one interval and with no mark lost. */
  ghost predicate OnlyOneWins(c: Config, e: EventId, copies: nat) {
    forall s :: Reachable(c, s) && |Copies(s, e)| <= copies && s.hist.expired[e] == 0 && s.hist.lost[e] == 0
      ==> s.hist.sent[e] <= 1
  }

  lemma NoRetriesNoSend(c: Config, s: State)
    requires Reachable(c, s) && c.maxRetries < 1
    ensures s.hist.sent == multiset{}
  {
    var acts :| Leads(c, acts, s);
    NoSendRun(c, Init(c), acts, s);
  }

  predicate NobodySends(ws: seq<Worker>) { forall w :: 0 <= w < |ws| ==> !ws[w].Sending? }

  lemma NoSendStep(c: Config, s: State, a: Action)
    requires c.maxRetries < 1 && Enabled(c, s, a) && NobodySends(s.proc.workers)
    ensures NobodySends(WorkersNext(c, s, a)) && HistoryNext(c, s, a).sent == s.hist.sent
  {
    if Changed(s, a).Some? { assert !WorkerNext(c, s, a).Sending?; }
  }

  lemma {:induction false} NoSendRun(c: Config, s: State, acts: seq<Action>, s': State)
    requires c.maxRetries < 1 && Run(c, s, acts, s') && s.hist.sent == multiset{}
    requires NobodySends(s.proc.workers)
    ensures s'.hist.sent == multiset{}
    decreases |acts|
  {
    if acts != [] {
      NoSendStep(c, s, acts[0]);
      NoSendRun(c, Apply(c, s, acts[0]), acts[1..], s');
    }
  }

  /** The documented race claim holds exactly if there is one worker, or at most one broker copy of the
      event, or no attempt is ever made. */
  lemma OnlyOneWinsIff(c: Config, e: EventId, copies: nat)
    ensures OnlyOneWins(c, e, copies) <==> c.numWorkers <= 1 || copies <= 1 || c.maxRetries < 1
  {
    if c.numWorkers <= 1 || copies <= 1 || c.maxRetries < 1 {
      forall s | Reachable(c, s) && |Copies(s, e)| <= copies && s.hist.expired[e] == 0 && s.hist.lost[e] == 0
        ensures s.hist.sent[e] <= 1
      {
        DuplicateBound(c, s, e);
        if c.maxRetries < 1 { NoRetriesNoSend(c, s); }
      }
    } else {
      var t := Started(c, e);
      var s, n := Race(c, t, e, 0, 2);
      assert s.hist.sent[e] == 2;
    }
  }
}
