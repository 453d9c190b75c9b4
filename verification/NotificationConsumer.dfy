/** The goroutines of the notification consumer, written as the service writes them, over the shared state of
    the pool. What the stores, the provider and the broker reply to a goroutine is an argument of its methods. Before
    each of its own steps a goroutine may be interrupted by any steps of the broker, the clock, Consume and the other
    workers; every contract holds for all such interleavings. */
module Consumer {
  import opened Counting
  import opened TtlStore
  import opened NotificationPool
  import PoolConservation
  import PoolDedup
  import Backoff

  datatype Thread = WorkerThread(w: nat) | MainThread

  predicate By(t: Thread, a: Action) {
    match t
    case WorkerThread(w) => ByWorker(a) && a.w == w
    case MainThread => a.Start? || a.Spawn? || a.Spawned? || a.SeeDone? || a.Return?
  }

  /** The steps of a schedule taken by one goroutine. */
  function Own(acts: seq<Action>, t: Thread): seq<Action> {
    if acts == [] then []
    else Own(acts[..|acts| - 1], t) + (if By(t, acts[|acts| - 1]) then [acts[|acts| - 1]] else [])
  }

  /** How one call of handleDelivery went. */
  datatype Outcome =
    | Malformed
    | CheckFailed
    | Duplicate
    | Exhausted
    | Delivered(attempts: nat, reply: MarkReply, recorded: bool)

  function Failures(w: nat, n: nat): seq<Action> { seq(n, _ => Send(w, false)) }

  lemma FailuresGrow(w: nat, n: nat)
    ensures Failures(w, n) + [Send(w, false)] == Failures(w, n + 1)
  {
  }

  function Spawns(n: nat): seq<Action> { seq(n, _ => Spawn) }

  lemma SpawnsGrow(n: nat)
    ensures Spawns(n) + [Spawn] == Spawns(n + 1)
  {
  }

  /** The steps handleDelivery takes for each outcome, in order: up to the duplicate check ... */
  function Opening(w: nat, o: Outcome): seq<Action> {
    match o
    case Malformed => [Parse(w)]
    case CheckFailed => [Parse(w), Check(w, true)]
    case _ => [Parse(w), Check(w, false)]
  }

  /** ... and from there on. */
  function Closing(c: Config, w: nat, o: Outcome, ok: bool): seq<Action> {
    match o
    case Exhausted => Failures(w, Retries(c)) + [Settle(w, ok)]
    case Delivered(k, reply, recorded) =>
      Failures(w, if k > 0 then k - 1 else 0) + [Send(w, true), Mark(w, reply), Record(w, recorded), Settle(w, ok)]
    case _ => [Settle(w, ok)]
  }

  function Script(c: Config, w: nat, o: Outcome, ok: bool): seq<Action> {
    Opening(w, o) + Closing(c, w, o, ok)
  }

  /** How often the worker sleeps between attempts. */
  function Sleeps(c: Config, o: Outcome): nat {
    match o
    case Delivered(k, _, _) => if k > 0 then k - 1 else 0
    case Exhausted => if Retries(c) > 0 then Retries(c) - 1 else 0
    case _ => 0
  }

  /** How often the worker has slept when it comes to the given attempt, or past the last one. */
  function SleepsBefore(c: Config, attempt: int): nat {
    if attempt < 2 then 0 else if attempt <= c.maxRetries then attempt - 1 else attempt - 2
  }

  /** Where the copy ends. */
  function Verdict(o: Outcome): Settlement {
    match o
    case Malformed => DeadLetter
    case CheckFailed => Requeue
    case Duplicate => Ack
    case Exhausted => DeadLetter
    case Delivered(_, _, _) => Ack
  }

  ghost predicate Ended(b: Broker, m: Tag, how: Settlement, ok: bool) {
    if !ok then m in b.orphaned
    else match how
      case Ack => m in b.acked
      case Requeue => m in b.queue
      case DeadLetter => m in b.dlq
  }

  /** What handleDelivery is answered: whether EXISTS fails, whether the provider accepts its k-th attempt, and how
      the marks and the settlement go. A settlement reaches the broker only while the channel is open. */
  datatype Answers = Answers(
    checkFails: bool,
    accepts: nat -> bool,
    mark: MarkReply,
    recorded: bool,
    settles: bool
  )

  /** The outcome is the one that the answers lead to. */
  ghost predicate Follows(c: Config, o: Outcome, settled: bool, env: Answers) {
    && (!o.Malformed? ==> (o.CheckFailed? <==> env.checkFails))
    && (o.Delivered? ==> 1 <= o.attempts <= c.maxRetries && env.accepts(o.attempts))
    && (o.Delivered? ==> o.reply == env.mark && o.recorded == env.recorded)
    && (o.Delivered? ==> forall k :: 1 <= k < o.attempts ==> !env.accepts(k))
    && (o.Exhausted? ==> forall k :: 1 <= k <= c.maxRetries ==> !env.accepts(k))
    && (settled ==> env.settles)
  }

  datatype ConsumeResult = RegisterFailed | Finished | StillWaiting

  /** One delivery handled by a worker's loop, and in which round. */
  datatype Handled = Handled(round: nat, m: Tag, o: Outcome, settled: bool)

  function Rounds(c: Config, w: nat, log: seq<Handled>): seq<Action> {
    if log == [] then []
    else
      var last := log[|log| - 1];
      Rounds(c, w, log[..|log| - 1]) + [Take(w, last.m)] + Script(c, w, last.o, last.settled)
  }

  /** The schedule passed through `s` after its first `from` steps. */
  ghost predicate Passed(c: Config, trace: seq<Action>, from: nat, s: State) {
    exists n :: from <= n <= |trace| && Run(c, Init(c), trace[..n], s)
  }

  /** After its first `from` steps the schedule passed through each of these states, and in none of them was there
      anything for select to do. */
  ghost predicate Waits(c: Config, trace: seq<Action>, from: nat, waited: seq<State>) {
    forall i :: 0 <= i < |waited| ==>
      && Passed(c, trace, from, waited[i])
      && !waited[i].proc.done && waited[i].broker.buffered == {} && waited[i].proc.open
  }

  /** Every delivery was handled before round `n`, with the outcome that its answers lead to. */
  ghost predicate Answered(c: Config, log: seq<Handled>, n: nat, env: nat -> Answers) {
    forall i :: 0 <= i < |log| ==> log[i].round < n && Follows(c, log[i].o, log[i].settled, env(log[i].round))
  }

  class NotificationConsumer {
    const cfg: Config
    const baseDelay: nat
    const self: Thread
    var st: State
    var sleeps: seq<Option<nat>>     // durations passed to time.Sleep by this goroutine
    ghost var trace: seq<Action>     // the schedule so far, of all goroutines

    ghost predicate Valid()
      reads this
    {
      Run(cfg, Init(cfg), trace, st)
    }

    ghost function Mine(): seq<Action>
      reads this
    {
      Own(trace, self)
    }

    constructor (cfg: Config, baseDelay: nat, self: Thread)
      ensures Valid() && st == Init(cfg) && Mine() == [] && sleeps == []
      ensures this.cfg == cfg && this.baseDelay == baseDelay && this.self == self
    {
      this.cfg, this.baseDelay, this.self := cfg, baseDelay, self;
      st, sleeps, trace := Init(cfg), [], [];
    }

    /** One step of the shared state. */
    method Act(a: Action)
      requires Valid() && Enabled(cfg, st, a)
      modifies this`st, this`trace
      ensures Valid() && st == Apply(cfg, old(st), a) && trace == old(trace) + [a]
      ensures Mine() == old(Mine()) + (if By(self, a) then [a] else [])
    {
      RunStep(cfg, Init(cfg), trace, st, a);
      st := Apply(cfg, st, a);
      trace := trace + [a];
      assert trace[..|trace| - 1] == old(trace);
    }

    /** Any number of steps of everybody else, as long as the process lives. */
    method Interfere()
      requires Valid()
      modifies this`st, this`trace
      ensures Valid() && Mine() == old(Mine()) && old(trace) <= trace
      ensures |st.proc.workers| == |old(st).proc.workers|
      ensures self.WorkerThread? && self.w < |st.proc.workers| && old(st).proc.workers[self.w] != NotStarted
              ==> st.proc.workers[self.w] == old(st).proc.workers[self.w]
      ensures self.MainThread? && !old(st).proc.main.Down? ==> st.proc.main == old(st).proc.main
      ensures self.MainThread? && old(st).proc.done ==> st.proc.done
      ensures forall m :: m in old(st).broker.body ==>
        m in st.broker.body && st.broker.body[m] == old(st).broker.body[m]
    {
      var n: nat :| true;
      for i := 0 to n
        invariant Valid() && Mine() == old(Mine()) && old(trace) <= trace
        invariant |st.proc.workers| == |old(st).proc.workers|
        invariant self.WorkerThread? && self.w < |st.proc.workers| && old(st).proc.workers[self.w] != NotStarted
                  ==> st.proc.workers[self.w] == old(st).proc.workers[self.w]
        invariant self.MainThread? && !old(st).proc.main.Down? ==> st.proc.main == old(st).proc.main
        invariant self.MainThread? && old(st).proc.done ==> st.proc.done
        invariant forall m :: m in old(st).broker.body ==>
          m in st.broker.body && st.broker.body[m] == old(st).broker.body[m]
      {
        var a: Action := *;
        if Enabled(cfg, st, a) && !By(self, a) && !EndsProcess(a) {
          if a.Spawn? { SpawnsTheUnstarted(cfg, st, trace); }
          OthersLeaveMe(cfg, st, a, self);
          Act(a);
        }
      }
    }

    // ---- the operations a worker performs on the shared stores ----

    method IsDuplicate(fails: bool) returns (dup: bool)
      requires Valid() && self.WorkerThread? && self.w < |st.proc.workers| && st.proc.workers[self.w].Checking?
      modifies this`st, this`trace
      ensures Valid() && old(trace) <= trace && |st.proc.workers| == |old(st).proc.workers|
      ensures Mine() == old(Mine()) + [Check(self.w, fails)]
      ensures dup <==> !fails && old(st).proc.workers[self.w].e in st.keys
      ensures var x := old(st).proc.workers[self.w];
        st.proc.workers[self.w] ==
          if fails then Settling(x.m, Requeue)
          else if dup then Settling(x.m, Ack)
          else if cfg.maxRetries >= 1 then Sending(x.m, x.e, 1)
          else Settling(x.m, DeadLetter)
    {
      Interfere();
      dup := !fails && st.proc.workers[self.w].e in st.keys;
      Act(Check(self.w, fails));
    }

    method Provide(ok: bool)
      requires Valid() && self.WorkerThread? && self.w < |st.proc.workers| && st.proc.workers[self.w].Sending?
      modifies this`st, this`trace
      ensures Valid() && old(trace) <= trace && |st.proc.workers| == |old(st).proc.workers|
      ensures Mine() == old(Mine()) + [Send(self.w, ok)]
      ensures st.proc.workers[self.w] == AfterSend(cfg, old(st).proc.workers[self.w], ok)
      ensures ok ==> old(st).proc.workers[self.w].e in st.hist.sent
    {
      Interfere();
      Act(Send(self.w, ok));
    }

    method MarkProcessed(reply: MarkReply)
      requires Valid() && self.WorkerThread? && self.w < |st.proc.workers| && st.proc.workers[self.w].Marking?
      modifies this`st, this`trace
      ensures Valid() && old(trace) <= trace && |st.proc.workers| == |old(st).proc.workers|
      ensures Mine() == old(Mine()) + [Mark(self.w, reply)]
      ensures st.proc.workers[self.w] == Recording(old(st).proc.workers[self.w].m, old(st).proc.workers[self.w].e)
      ensures reply.MarkOk? ==> old(st).proc.workers[self.w].e in st.keys
    {
      Interfere();
      Act(Mark(self.w, reply));
    }

    method RecordProcessed(ok: bool)
      requires Valid() && self.WorkerThread? && self.w < |st.proc.workers| && st.proc.workers[self.w].Recording?
      modifies this`st, this`trace
      ensures Valid() && old(trace) <= trace && |st.proc.workers| == |old(st).proc.workers|
      ensures Mine() == old(Mine()) + [Record(self.w, ok)]
      ensures st.proc.workers[self.w] == Settling(old(st).proc.workers[self.w].m, Ack)
      ensures ok ==> old(st).proc.workers[self.w].e in st.rows
    {
      Interfere();
      Act(Record(self.w, ok));
    }

    /** d.Ack(false), d.Nack(false, true) and d.Nack(false, false). */
    method SettleDelivery(how: Settlement, settles: bool) returns (ok: bool)
      requires Valid() && self.WorkerThread? && self.w < |st.proc.workers|
      requires st.proc.workers[self.w].Settling? && st.proc.workers[self.w].how == how
      modifies this`st, this`trace
      ensures Valid() && old(trace) <= trace && |st.proc.workers| == |old(st).proc.workers|
      ensures Mine() == old(Mine()) + [Settle(self.w, ok)]
      ensures ok <==> settles && st.proc.open
      ensures st.proc.workers[self.w] == Idle && Ended(st.broker, old(st).proc.workers[self.w].m, how, ok)
    {
      Interfere();
      ok := settles && st.proc.open;
      Act(Settle(self.w, ok));
    }

    // ---- sendWithRetry ----

    /** Attempts until the first that the provider accepts, and at most maxRetries; one backoff between two attempts. */
    method SendWithRetry(accepts: nat -> bool) returns (ok: bool, attempts: nat)
      requires Valid() && self.WorkerThread? && self.w < |st.proc.workers|
      requires var x := st.proc.workers[self.w];
        if cfg.maxRetries >= 1 then x.Sending? && x.attempt == 1 else x.Settling? && x.how == DeadLetter
      modifies this`st, this`trace, this`sleeps
      ensures Valid() && old(trace) <= trace && |st.proc.workers| == |old(st).proc.workers|
      ensures forall k :: 1 <= k <= attempts ==> (accepts(k) <==> ok && k == attempts)
      ensures ok ==> 1 <= attempts <= cfg.maxRetries
      ensures ok ==> Mine() == old(Mine()) + Failures(self.w, attempts - 1) + [Send(self.w, true)]
      ensures ok ==> st.proc.workers[self.w].Marking? && st.proc.workers[self.w].m == old(st).proc.workers[self.w].m
      ensures !ok ==> attempts == (if cfg.maxRetries > 0 then cfg.maxRetries else 0)
      ensures !ok ==> Mine() == old(Mine()) + Failures(self.w, attempts)
      ensures !ok ==> st.proc.workers[self.w] == Settling(old(st).proc.workers[self.w].m, DeadLetter)
      ensures sleeps == old(sleeps) + Backoff.Schedule(baseDelay, if attempts > 0 then attempts - 1 else 0)
    {
      var attempt := 1;
      ghost var m := st.proc.workers[self.w].m;
      while attempt <= cfg.maxRetries
        invariant 1 <= attempt && (cfg.maxRetries >= 1 ==> attempt <= cfg.maxRetries + 1) &&
          (cfg.maxRetries < 1 ==> attempt == 1)
        invariant Valid() && old(trace) <= trace
        invariant |st.proc.workers| == |old(st).proc.workers| && self.w < |st.proc.workers|
        invariant forall k :: 1 <= k < attempt ==> !accepts(k)
        invariant Mine() == old(Mine()) + Failures(self.w, attempt - 1)
        invariant attempt <= cfg.maxRetries ==>
          st.proc.workers[self.w].Sending? && st.proc.workers[self.w].m == m &&
            st.proc.workers[self.w].attempt == attempt
        invariant attempt > cfg.maxRetries ==> st.proc.workers[self.w] == Settling(m, DeadLetter)
        invariant sleeps == old(sleeps) + Backoff.Schedule(baseDelay, SleepsBefore(cfg, attempt))
      {
        Provide(accepts(attempt));
        if accepts(attempt) {
          return true, attempt;
        }
        FailuresGrow(self.w, attempt - 1);
        if attempt < cfg.maxRetries {
          var backoff := Backoff.Delay(baseDelay, attempt);
          Backoff.ScheduleGrows(baseDelay, attempt - 1);
          sleeps := sleeps + [backoff];
        }
        attempt := attempt + 1;
      }
      return false, attempt - 1;
    }

    // ---- handleDelivery ----

    method ParseBody() returns (body: Body)
      requires Valid() && self.WorkerThread? && self.w < |st.proc.workers| && st.proc.workers[self.w].Parsing?
      modifies this`st, this`trace
      ensures Valid() && old(trace) <= trace && |st.proc.workers| == |old(st).proc.workers|
      ensures Mine() == old(Mine()) + [Parse(self.w)]
      ensures var m := old(st).proc.workers[self.w].m;
        && m in old(st).broker.body && body == old(st).broker.body[m]
        && st.proc.workers[self.w] == (if body.Unparsable? then Settling(m, DeadLetter) else Checking(m, body.id))
    {
      var m := st.proc.workers[self.w].m;
      HeldIsPublished(cfg, trace, st, self.w);
      body := st.broker.body[m];
      Interfere();
      Act(Parse(self.w));
    }

    /** Steps 4 and 5 of handleDelivery: the marks' errors are logged only. */
    method MarkAndAck(mark: MarkReply, recorded: bool, settles: bool) returns (settled: bool)
      requires Valid() && self.WorkerThread? && self.w < |st.proc.workers| && st.proc.workers[self.w].Marking?
      modifies this`st, this`trace
      ensures Valid() && old(trace) <= trace && |st.proc.workers| == |old(st).proc.workers|
      ensures Mine() == old(Mine()) + [Mark(self.w, mark), Record(self.w, recorded), Settle(self.w, settled)]
      ensures settled <==> settles && st.proc.open
      ensures st.proc.workers[self.w] == Idle && Ended(st.broker, old(st).proc.workers[self.w].m, Ack, settled)
    {
      MarkProcessed(mark);
      RecordProcessed(recorded);
      settled := SettleDelivery(Ack, settles);
    }

    /** Steps 3 to 5 of handleDelivery: send, mark, settle. */
    method SendMarkSettle(env: Answers) returns (o: Outcome, settled: bool)
      requires Valid() && self.WorkerThread? && self.w < |st.proc.workers| && !env.checkFails
      requires var x := st.proc.workers[self.w];
        if cfg.maxRetries >= 1 then x.Sending? && x.attempt == 1 else x.Settling? && x.how == DeadLetter
      modifies this`st, this`trace, this`sleeps
      ensures Valid() && old(trace) <= trace && |st.proc.workers| == |old(st).proc.workers|
      ensures (o.Exhausted? || o.Delivered?) && Mine() == old(Mine()) + Closing(cfg, self.w, o, settled)
      ensures st.proc.workers[self.w] == Idle && Ended(st.broker, old(st).proc.workers[self.w].m, Verdict(o), settled)
      ensures Follows(cfg, o, settled, env) && (settled <==> env.settles && st.proc.open)
      ensures sleeps == old(sleeps) + Backoff.Schedule(baseDelay, Sleeps(cfg, o))
    {
      ghost var mine := Mine();
      var ok, attempts := SendWithRetry(env.accepts);
      if ok {
        settled := MarkAndAck(env.mark, env.recorded, env.settles);
        o := Delivered(attempts, env.mark, env.recorded);
        ClosingOfDelivered(cfg, self.w, mine, o, settled);
      } else {
        settled := SettleDelivery(DeadLetter, env.settles);
        o := Exhausted;
        ClosingOfExhausted(cfg, self.w, mine, settled);
      }
    }

    /** Step 2 of handleDelivery and what follows it. */
    method CheckAndSend(env: Answers) returns (o: Outcome, settled: bool)
      requires Valid() && self.WorkerThread? && self.w < |st.proc.workers| && st.proc.workers[self.w].Checking?
      modifies this`st, this`trace, this`sleeps
      ensures Valid() && old(trace) <= trace && |st.proc.workers| == |old(st).proc.workers|
      ensures !o.Malformed? &&
        Mine() == old(Mine()) + [Check(self.w, o.CheckFailed?)] + Closing(cfg, self.w, o, settled)
      ensures st.proc.workers[self.w] == Idle && Ended(st.broker, old(st).proc.workers[self.w].m, Verdict(o), settled)
      ensures Follows(cfg, o, settled, env) && (settled <==> env.settles && st.proc.open)
      ensures sleeps == old(sleeps) + Backoff.Schedule(baseDelay, Sleeps(cfg, o))
    {
      var dup := IsDuplicate(env.checkFails);
      if env.checkFails {
        settled := SettleDelivery(Requeue, env.settles);
        return CheckFailed, settled;
      }
      if dup {
        settled := SettleDelivery(Ack, env.settles);
        return Duplicate, settled;
      }
      o, settled := SendMarkSettle(env);
    }

    /** A body that cannot be parsed is dead-lettered; a failing check requeues; a duplicate is acknowledged; otherwise
        the attempts decide, and only a success is marked and acknowledged. The steps taken are those of exactly one
        outcome: one settlement, always last, of the right kind, which takes place if the broker and the channel let
        it. A delivery is acknowledged only if its event has been sent, by this call or before it. */
    method HandleDelivery(env: Answers) returns (o: Outcome, settled: bool)
      requires Valid() && self.WorkerThread? && self.w < |st.proc.workers| && st.proc.workers[self.w].Parsing?
      modifies this`st, this`trace, this`sleeps
      ensures Valid() && old(trace) <= trace && |st.proc.workers| == |old(st).proc.workers|
      ensures Mine() == old(Mine()) + Script(cfg, self.w, o, settled)
      ensures old(st).proc.workers[self.w].m in old(st).broker.body
      ensures o.Malformed? <==> old(st).broker.body[old(st).proc.workers[self.w].m].Unparsable?
      ensures !o.Malformed? ==> (o.CheckFailed? <==> env.checkFails)
      ensures o.Delivered? ==> 1 <= o.attempts <= cfg.maxRetries && env.accepts(o.attempts)
      ensures o.Delivered? ==> forall k :: 1 <= k < o.attempts ==> !env.accepts(k)
      ensures o.Delivered? ==> o.reply == env.mark && o.recorded == env.recorded
      ensures o.Exhausted? ==> forall k :: 1 <= k <= cfg.maxRetries ==> !env.accepts(k)
      ensures settled <==> env.settles && st.proc.open
      ensures Follows(cfg, o, settled, env)
      ensures st.proc.workers[self.w] == Idle
      ensures var m := old(st).proc.workers[self.w].m;
        && (!settled ==> m in st.broker.orphaned)
        && (settled && (o.Malformed? || o.Exhausted?) ==> m in st.broker.dlq)
        && (settled && o.CheckFailed? ==> m in st.broker.queue)
        && (settled && (o.Duplicate? || o.Delivered?) ==>
              m in st.broker.acked && PoolDedup.SentFor(st.broker.body, st.hist.sent, m))
      ensures sleeps == old(sleeps) + Backoff.Schedule(baseDelay, Sleeps(cfg, o))
      ensures !o.Delivered? && !o.Exhausted? ==> sleeps == old(sleeps)
    {
      o, settled := ParseAndGoOn(env);
      ReachedBy(cfg, trace, st);
      PoolDedup.AckedImpliesSent(cfg, st);
    }

    method ParseAndGoOn(env: Answers) returns (o: Outcome, settled: bool)
      requires Valid() && self.WorkerThread? && self.w < |st.proc.workers| && st.proc.workers[self.w].Parsing?
      modifies this`st, this`trace, this`sleeps
      ensures Valid() && old(trace) <= trace && |st.proc.workers| == |old(st).proc.workers|
      ensures Mine() == old(Mine()) + Script(cfg, self.w, o, settled)
      ensures st.proc.workers[self.w] == Idle && Ended(st.broker, old(st).proc.workers[self.w].m, Verdict(o), settled)
      ensures Follows(cfg, o, settled, env) && (settled <==> env.settles && st.proc.open)
      ensures sleeps == old(sleeps) + Backoff.Schedule(baseDelay, Sleeps(cfg, o))
      ensures var m := old(st).proc.workers[self.w].m;
        m in old(st).broker.body && (o.Malformed? <==> old(st).broker.body[m].Unparsable?)
    {
      ghost var mine := Mine();
      var body := ParseBody();
      if body.Unparsable? {
        settled := SettleDelivery(DeadLetter, env.settles);
        o := Malformed;
        ScriptOfMalformed(cfg, self.w, mine, settled);
      } else {
        o, settled := CheckAndSend(env);
        ScriptOfParsed(cfg, self.w, mine, o, settled);
      }
    }

    // ---- the worker loop and Consume ----

    /** The select loop of one worker, for at most `rounds` rounds. Every round ends the loop, handles one delivery up
        to its settlement, or waits; it waits only where neither done is closed, nor a delivery there, nor the channel
        closed. `prefersDone` is the choice of select where several cases are ready, `env` what the deliveries are
        answered. */
    method Work(rounds: nat, prefersDone: nat -> bool, env: nat -> Answers)
        returns (log: seq<Handled>, stop: Option<Action>, ghost waited: seq<State>)
      requires Valid() && self.WorkerThread? && self.w < |st.proc.workers| && st.proc.workers[self.w] == Idle
      modifies this`st, this`trace, this`sleeps
      ensures Valid() && old(trace) <= trace && self.w < |st.proc.workers|
      ensures st.proc.workers[self.w] == (if stop.Some? then Stopped else Idle)
      ensures Mine() == old(Mine()) + Rounds(cfg, self.w, log) + (if stop.Some? then [stop.value] else [])
      ensures stop.Some? ==>
        || (stop.value == StopOnDone(self.w) && st.proc.done)
        || (stop.value == StopOnClosed(self.w) && !st.proc.open && st.broker.buffered == {})
      ensures stop.None? ==> |log| + |waited| == rounds
      ensures stop.Some? ==> |log| + |waited| < rounds
      ensures Waits(cfg, trace, old(|trace|), waited) && Answered(cfg, log, rounds, env)
    {
      log, waited := [], [];
      ghost var before := Mine();
      for round := 0 to rounds
        invariant Valid() && old(trace) <= trace && self.w < |st.proc.workers| && st.proc.workers[self.w] == Idle
        invariant Mine() == before + Rounds(cfg, self.w, log) && |log| + |waited| == round
        invariant Waits(cfg, trace, old(|trace|), waited) && Answered(cfg, log, round, env)
      {
        ghost var passed, logged := trace, log;
        stop, log := OneRound(before, log, round, prefersDone(round), env(round));
        WaitsGrow(cfg, passed, trace, old(|trace|), waited);
        AnsweredGrows(cfg, logged, log, round, env);
        if stop.Some? {
          return;
        }
        if log == logged {
          WaitsAppend(cfg, trace, old(|trace|), waited, st);
          waited := waited + [st];
        }
      }
      stop := None;
    }

    /** One round of select. Where only one case is ready it is taken. */
    method OneRound(ghost before: seq<Action>, log: seq<Handled>, round: nat, prefersDone: bool, env: Answers)
        returns (stop: Option<Action>, log': seq<Handled>)
      requires Valid() && self.WorkerThread? && self.w < |st.proc.workers| && st.proc.workers[self.w] == Idle
      requires Mine() == before + Rounds(cfg, self.w, log)
      modifies this`st, this`trace, this`sleeps
      ensures Valid() && old(trace) <= trace && self.w < |st.proc.workers|
      ensures st.proc.workers[self.w] == (if stop.Some? then Stopped else Idle)
      ensures Mine() == before + Rounds(cfg, self.w, log') + (if stop.Some? then [stop.value] else [])
      ensures stop.Some? ==> log' == log
      ensures stop.Some? ==>
        || (stop.value == StopOnDone(self.w) && st.proc.done)
        || (stop.value == StopOnClosed(self.w) && !st.proc.open && st.broker.buffered == {})
      ensures stop.Some? && st.proc.done && (st.broker.buffered != {} || !st.proc.open) ==>
        (stop.value == StopOnDone(self.w) <==> prefersDone)
      ensures stop.None? && log' == log ==> !st.proc.done && st.broker.buffered == {} && st.proc.open
      ensures stop.None? && log' != log ==>
        |log'| == |log| + 1 && log'[..|log|] == log && log'[|log|].round == round
        && Follows(cfg, log'[|log|].o, log'[|log|].settled, env)
    {
      Interfere();
      if st.proc.done && (prefersDone || (st.broker.buffered == {} && st.proc.open)) {
        Stop(StopOnDone(self.w));
        return Some(StopOnDone(self.w)), log;
      }
      if st.broker.buffered != {} {
        log' := TakeAndHandle(before, log, round, env);
        return None, log';
      }
      if !st.proc.open {
        Stop(StopOnClosed(self.w));
        return Some(StopOnClosed(self.w)), log;
      }
      return None, log;
    }

    method Stop(a: Action)
      requires Valid() && self.WorkerThread? && self.w < |st.proc.workers| && st.proc.workers[self.w] == Idle
      requires IsStop(a) && a.w == self.w && Enabled(cfg, st, a)
      modifies this`st, this`trace
      ensures Valid() && self.w < |st.proc.workers| && st.proc.workers[self.w] == Stopped && Mine() == old(Mine()) + [a]
      ensures old(trace) <= trace && st.broker == old(st).broker
      ensures st.proc.done == old(st).proc.done && st.proc.open == old(st).proc.open
    {
      Act(a);
    }

    method TakeAndHandle(ghost before: seq<Action>, log: seq<Handled>, round: nat,
        env: Answers) returns (log': seq<Handled>)
      requires Valid() && self.WorkerThread? && self.w < |st.proc.workers| && st.proc.workers[self.w] == Idle
      requires st.broker.buffered != {} && Mine() == before + Rounds(cfg, self.w, log)
      modifies this`st, this`trace, this`sleeps
      ensures Valid() && old(trace) <= trace && self.w < |st.proc.workers| && st.proc.workers[self.w] == Idle
      ensures Mine() == before + Rounds(cfg, self.w, log')
      ensures |log'| == |log| + 1 && log'[..|log|] == log && log'[|log|].round == round
      ensures Follows(cfg, log'[|log|].o, log'[|log|].settled, env)
    {
      var m :| m in st.broker.buffered;
      Act(Take(self.w, m));
      var o, settled := HandleDelivery(env);
      RoundsAppend(cfg, self.w, before, log, Handled(round, m, o, settled));
      log' := log + [Handled(round, m, o, settled)];
    }

    /** `<-done`, for at most `rounds` rounds. */
    method WaitForDone(rounds: nat)
      requires Valid() && self.MainThread? && st.proc.main == AwaitDone
      modifies this`st, this`trace
      ensures Valid() && st.proc.main == AwaitDone && Mine() == old(Mine())
    {
      var waited := 0;
      while !st.proc.done && waited < rounds
        invariant Valid() && st.proc.main == AwaitDone && Mine() == old(Mine())
        decreases rounds - waited
      {
        Interfere();
        waited := waited + 1;
      }
    }

    /** `wg.Wait()`, for at most `rounds` rounds. */
    method WaitForWorkers(rounds: nat)
      requires Valid() && self.MainThread? && st.proc.main == AwaitWorkers && st.proc.done
      modifies this`st, this`trace
      ensures Valid() && st.proc.main == AwaitWorkers && st.proc.done && Mine() == old(Mine())
    {
      var waited := 0;
      while st.proc.wg != 0 && waited < rounds
        invariant Valid() && st.proc.main == AwaitWorkers && st.proc.done && Mine() == old(Mine())
        decreases rounds - waited
      {
        Interfere();
        waited := waited + 1;
      }
    }

    method SpawnWorkers()
      requires Valid() && self.MainThread? && st.proc.main == Spawning(0) && |st.proc.workers| == cfg.numWorkers
      modifies this`st, this`trace
      ensures Valid() && st.proc.main == Spawning(cfg.numWorkers) && |st.proc.workers| == cfg.numWorkers
      ensures Mine() == old(Mine()) + Spawns(cfg.numWorkers)
    {
      for i := 0 to cfg.numWorkers
        invariant Valid() && st.proc.main == Spawning(i) && |st.proc.workers| == cfg.numWorkers
        invariant Mine() == old(Mine()) + Spawns(i)
      {
        Interfere();
        Act(Spawn);
        SpawnsGrow(i);
      }
    }

    /** From the end of the spawning loop on. If this does not return it waits: for done, or, with done closed, for
        workers that have not stopped. */
    method AwaitShutdown(rounds: nat) returns (returned: bool)
      requires Valid() && self.MainThread? && st.proc.main == AwaitDone
      modifies this`st, this`trace
      ensures Valid()
      ensures returned ==> st.proc.main == Returned && Mine() == old(Mine()) + [SeeDone, Return]
      ensures !returned ==>
        || (Mine() == old(Mine()) && st.proc.main == AwaitDone && !st.proc.done)
        || (Mine() == old(Mine()) + [SeeDone] && st.proc.main == AwaitWorkers && st.proc.done && st.proc.wg != 0)
    {
      ghost var mine := Mine();
      WaitForDone(rounds);
      if !st.proc.done {
        return false;
      }
      Act(SeeDone);
      WaitForWorkers(rounds);
      if st.proc.wg != 0 {
        return false;
      }
      Act(Return);
      assert Mine() == mine + [SeeDone] + [Return];
      return true;
    }

    /** From the registration of the consumer on: all workers are started before anything is waited for. */
    method SpawnAndAwait(rounds: nat) returns (returned: bool)
      requires Valid() && self.MainThread? && st.proc.main == Spawning(0) && |st.proc.workers| == cfg.numWorkers
      modifies this`st, this`trace
      ensures Valid()
      ensures returned ==> st.proc.main == Returned
      ensures returned ==> Mine() == old(Mine()) + Spawns(cfg.numWorkers) + [Spawned, SeeDone, Return]
      ensures !returned ==>
        || (Mine() == old(Mine()) + Spawns(cfg.numWorkers) + [Spawned] && st.proc.main == AwaitDone && !st.proc.done)
        || (Mine() == old(Mine()) + Spawns(cfg.numWorkers) + [Spawned, SeeDone] && st.proc.main == AwaitWorkers
            && st.proc.done && st.proc.wg != 0)
    {
      SpawnWorkers();
      ghost var mine := Mine();
      Interfere();
      Act(Spawned);
      returned := AwaitShutdown(rounds);
      assert mine + [Spawned] + [SeeDone, Return] == mine + [Spawned, SeeDone, Return];
      assert mine + [Spawned] + [SeeDone] == mine + [Spawned, SeeDone];
    }

    /** If the consumer cannot be registered, no worker is started. Otherwise Consume starts the workers, waits for
        done, then for the workers; a wait is given up after `rounds` rounds. If Consume returns after that, no
        worker is handling a delivery and all of them have stopped. */
    method Consume(registers: bool, rounds: nat) returns (r: ConsumeResult)
      requires Valid() && self.MainThread? && st.proc.main.Down?
      modifies this`st, this`trace
      ensures Valid() && (r.RegisterFailed? <==> !registers)
      ensures r.RegisterFailed? ==> st == old(st) && Mine() == old(Mine())
      ensures r.Finished? ==> st.proc.main == Returned && st.proc.done && st.proc.wg == 0
      ensures r.Finished? ==> forall w :: 0 <= w < |st.proc.workers| ==> st.proc.workers[w] == Stopped
      ensures r.Finished? ==> Mine() == old(Mine()) + [Start] + Spawns(cfg.numWorkers) + [Spawned, SeeDone, Return]
      ensures r.StillWaiting? ==>
        || (Mine() == old(Mine()) + [Start] + Spawns(cfg.numWorkers) + [Spawned]
            && st.proc.main == AwaitDone && !st.proc.done)
        || (Mine() == old(Mine()) + [Start] + Spawns(cfg.numWorkers) + [Spawned, SeeDone]
            && st.proc.main == AwaitWorkers && st.proc.done && st.proc.wg != 0)
    {
      if !registers {
        return RegisterFailed;
      }
      Act(Start);
      FullPool(cfg, trace, st);
      var returned := SpawnAndAwait(rounds);
      if !returned {
        return StillWaiting;
      }
      ReachedBy(cfg, trace, st);
      PoolConservation.CleanShutdown(cfg, st);
      return Finished;
    }
  }

  lemma FullPool(c: Config, trace: seq<Action>, s: State)
    requires Run(c, Init(c), trace, s)
    ensures |s.proc.workers| == c.numWorkers
  {
    PoolConservation.InvInit(c);
    PoolConservation.InvRun(c, Init(c), trace, s);
  }

  lemma WaitsAppend(c: Config, trace: seq<Action>, from: nat, waited: seq<State>, s: State)
    requires Waits(c, trace, from, waited) && Run(c, Init(c), trace, s) && from <= |trace|
    requires !s.proc.done && s.broker.buffered == {} && s.proc.open
    ensures Waits(c, trace, from, waited + [s])
  {
    assert trace[..|trace|] == trace;
  }

  /** What a schedule has passed through it has passed through when it is longer. */
  lemma WaitsGrow(c: Config, trace: seq<Action>, longer: seq<Action>, from: nat, waited: seq<State>)
    requires Waits(c, trace, from, waited) && trace <= longer
    ensures Waits(c, longer, from, waited)
  {
    forall i | 0 <= i < |waited| ensures Passed(c, longer, from, waited[i]) {
      assert Passed(c, trace, from, waited[i]);
      var n :| from <= n <= |trace| && Run(c, Init(c), trace[..n], waited[i]);
      assert longer[..n] == trace[..n];
    }
  }

  lemma AnsweredGrows(c: Config, log: seq<Handled>, log': seq<Handled>, n: nat, env: nat -> Answers)
    requires Answered(c, log, n, env)
    requires log' != log ==>
      |log'| == |log| + 1 && log'[..|log|] == log && log'[|log|].round == n
      && Follows(c, log'[|log|].o, log'[|log|].settled, env(n))
    ensures Answered(c, log', n + 1, env)
  {
  }

  lemma RoundsAppend(c: Config, w: nat, before: seq<Action>, log: seq<Handled>, r: Handled)
    ensures before + Rounds(c, w, log) + [Take(w, r.m)] + Script(c, w, r.o, r.settled) ==
      before + Rounds(c, w, log + [r])
  {
    assert (log + [r])[..|log|] == log;
    Associate(before, Rounds(c, w, log), [Take(w, r.m)], Script(c, w, r.o, r.settled));
  }

  lemma Associate<T>(p: seq<T>, q: seq<T>, r: seq<T>, s: seq<T>)
    ensures p + q + r + s == p + (q + r + s)
  {
  }

  lemma OthersLeaveMe(c: Config, s: State, a: Action, t: Thread)
    requires Enabled(c, s, a) && !By(t, a) && !EndsProcess(a)
    requires a.Spawn? ==> s.proc.workers[s.proc.main.n] == NotStarted
    ensures var s' := Apply(c, s, a);
      && |s'.proc.workers| == |s.proc.workers|
      && (t.WorkerThread? && t.w < |s.proc.workers| && s.proc.workers[t.w] != NotStarted
          ==> s'.proc.workers[t.w] == s.proc.workers[t.w])
      && (t.MainThread? && !s.proc.main.Down? ==> s'.proc.main == s.proc.main)
      && (s.proc.done ==> s'.proc.done)
      && (forall m :: m in s.broker.body ==> m in s'.broker.body && s'.broker.body[m] == s.broker.body[m])
  {
    OthersLeaveWorker(c, s, a, t);
    OthersLeaveMain(c, s, a, t);
    PoolDedup.HistoryGrows(c, s, a);
  }

  lemma SpawnsTheUnstarted(c: Config, s: State, trace: seq<Action>)
    requires Run(c, Init(c), trace, s) && s.proc.main.Spawning? && s.proc.main.n < |s.proc.workers|
    ensures s.proc.workers[s.proc.main.n] == NotStarted
  {
    PoolConservation.InvInit(c);
    PoolConservation.InvRun(c, Init(c), trace, s);
  }

  lemma OthersLeaveWorker(c: Config, s: State, a: Action, t: Thread)
    requires Enabled(c, s, a) && !By(t, a) && !EndsProcess(a)
    requires a.Spawn? ==> s.proc.workers[s.proc.main.n] == NotStarted
    ensures |WorkersNext(c, s, a)| == |s.proc.workers|
    ensures t.WorkerThread? && t.w < |s.proc.workers| && s.proc.workers[t.w] != NotStarted
            ==> WorkersNext(c, s, a)[t.w] == s.proc.workers[t.w]
  {
  }

  lemma OthersLeaveMain(c: Config, s: State, a: Action, t: Thread)
    requires Enabled(c, s, a) && !By(t, a) && !EndsProcess(a)
    ensures t.MainThread? && !s.proc.main.Down? ==> ProcessNext(c, s, a).main == s.proc.main
    ensures s.proc.done ==> ProcessNext(c, s, a).done
  {
  }

  /** A worker only ever holds a published copy. */
  lemma HeldIsPublished(c: Config, trace: seq<Action>, s: State, w: nat)
    requires Run(c, Init(c), trace, s) && w < |s.proc.workers| && Handling(s.proc.workers[w])
    ensures s.proc.workers[w].m in s.broker.body
  {
    assert PoolConservation.Places(s, s.proc.workers[w].m) == B(s.proc.workers[w].m in s.broker.body) by {
      ReachedBy(c, trace, s);
      PoolConservation.MessageConservation(c, s);
    }
    SumTerm(s.proc.workers, Holds(s.proc.workers[w].m), w);
  }

  // ---- how long a call sleeps ----

  /** In a call that exhausts its attempts, a sleep of `d` follows the k-th attempt. */
  predicate SleepsAfter(c: Config, base: nat, k: nat, d: nat)
    requires k >= 1
  {
    k <= Sleeps(c, Exhausted) && Backoff.Schedule(base, Sleeps(c, Exhausted))[k - 1] == Some(d)
  }

  /** baseDelay * 2^(k-1) is slept after attempt k exactly if that is not the last attempt and the number fits:
      none follows the last one. */
  lemma SleepAfterAttemptIff(c: Config, base: nat, k: nat)
    requires k >= 1
    ensures SleepsAfter(c, base, k, base * Backoff.Pow2(k - 1)) <==>
      k < c.maxRetries && Backoff.Representable(base) && k <= 1024 && base * Backoff.Pow2(k - 1) < Backoff.INT64_LIMIT
  {
    Backoff.DelayExactIff(base, k);
  }

  /** The documented wait of 8 s after the third failed attempt, with a base of 2 s, takes at least four attempts;
      the default is three. */
  lemma DocumentedWaitIff(c: Config)
    ensures SleepsAfter(c, 2_000_000_000, 3, 8_000_000_000) <==> c.maxRetries >= 4
  {
    assert Backoff.Pow2(2) == 2 * Backoff.Pow2(1) && Backoff.Pow2(1) == 2 * Backoff.Pow2(0);
    assert Backoff.IsProduct(2_000_000_000, 2_000_000_000, 0);
    SleepAfterAttemptIff(c, 2_000_000_000, 3);
  }

  /** How many attempts a call makes. */
  function Tries(c: Config, o: Outcome): nat {
    match o
    case Delivered(k, _, _) => k
    case Exhausted => Retries(c)
    case _ => 0
  }

  /** Delivering on attempt k takes sleeps of baseDelay * (2^(k-1) - 1) in all, failing altogether
      baseDelay * (2^(maxRetries-1) - 1). */
  lemma TotalSleep(c: Config, base: nat, o: Outcome)
    requires 1 <= Tries(c, o) <= 1025 && Backoff.Representable(base)
    requires Tries(c, o) > 1 ==> base * Backoff.Pow2(Tries(c, o) - 2) < Backoff.INT64_LIMIT
    ensures Backoff.Total(Backoff.Schedule(base, Sleeps(c, o))) == base * (Backoff.Pow2(Tries(c, o) - 1) - 1)
  {
    Backoff.ScheduleTotal(base, Sleeps(c, o));
  }

  lemma ClosingOfDelivered(c: Config, w: nat, mine: seq<Action>, o: Outcome, ok: bool)
    requires o.Delivered? && o.attempts >= 1
    ensures mine + Failures(w, o.attempts - 1) + [Send(w, true)] +
      [Mark(w, o.reply), Record(w, o.recorded), Settle(w, ok)]
         == mine + Closing(c, w, o, ok)
  {
  }

  lemma ClosingOfExhausted(c: Config, w: nat, mine: seq<Action>, ok: bool)
    ensures mine + Failures(w, Retries(c)) + [Settle(w, ok)] == mine + Closing(c, w, Exhausted, ok)
  {
  }

  lemma ScriptOfMalformed(c: Config, w: nat, mine: seq<Action>, ok: bool)
    ensures mine + [Parse(w)] + [Settle(w, ok)] == mine + Script(c, w, Malformed, ok)
  {
  }

  lemma ScriptOfParsed(c: Config, w: nat, mine: seq<Action>, o: Outcome, ok: bool)
    requires !o.Malformed?
    ensures mine + [Parse(w)] + ([Check(w, o.CheckFailed?)] + Closing(c, w, o, ok)) == mine + Script(c, w, o, ok)
    ensures mine + [Parse(w)] + [Check(w, o.CheckFailed?)] + Closing(c, w, o, ok) == mine + Script(c, w, o, ok)
  {
    assert [Parse(w)] + [Check(w, o.CheckFailed?)] == Opening(w, o);
    Associate(mine, [Parse(w)], [Check(w, o.CheckFailed?)], Closing(c, w, o, ok));
    assert Script(c, w, o, ok) == [Parse(w)] + [Check(w, o.CheckFailed?)] + Closing(c, w, o, ok);
  }

  lemma ScriptSettles(c: Config, w: nat, o: Outcome, ok: bool)
    ensures var p := Script(c, w, o, ok);
      && |p| > 0 && p[|p| - 1] == Settle(w, ok)
      && (forall i :: 0 <= i < |p| - 1 ==> !p[i].Settle?)
  {
  }

  lemma ScriptSends(c: Config, w: nat, o: Outcome, ok: bool)
    requires o.Delivered? ==> 1 <= o.attempts <= c.maxRetries
    ensures var p := Script(c, w, o, ok);
      && (forall i :: 0 <= i < |p| && p[i].Send? ==> 2 <= i < 2 + c.maxRetries)
      && (forall i, j :: 0 <= i < j < |p| && p[i] == Send(w, true) ==> !p[j].Send?)
  {
  }

  lemma ScriptDelivers(c: Config, w: nat, o: Outcome, ok: bool)
    requires o.Delivered? ==> 1 <= o.attempts <= c.maxRetries
    ensures (exists i :: 0 <= i < |Script(c, w, o, ok)| && Script(c, w, o, ok)[i] == Send(w, true)) <==> o.Delivered?
  {
    if o.Delivered? { assert Script(c, w, o, ok)[2 + o.attempts - 1] == Send(w, true); }
  }

  /** Every script attempts exactly one settlement, its last step, and has at most one successful send
      among at most maxRetries attempts. */
  lemma ScriptShape(c: Config, w: nat, o: Outcome, ok: bool)
    requires o.Delivered? ==> 1 <= o.attempts <= c.maxRetries
    ensures var p := Script(c, w, o, ok);
      && |p| > 0 && p[|p| - 1] == Settle(w, ok)
      && (forall i :: 0 <= i < |p| - 1 ==> !p[i].Settle?)
      && (forall i :: 0 <= i < |p| && p[i].Send? ==> 2 <= i < 2 + c.maxRetries)
      && (forall i, j :: 0 <= i < j < |p| && p[i] == Send(w, true) ==> !p[j].Send?)
      && ((exists i :: 0 <= i < |p| && p[i] == Send(w, true)) <==> o.Delivered?)
  {
    ScriptSettles(c, w, o, ok);
    ScriptSends(c, w, o, ok);
    ScriptDelivers(c, w, o, ok);
  }
}
