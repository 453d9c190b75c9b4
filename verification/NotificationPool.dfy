/** The notification service as a labelled transition system: `numWorkers` goroutines, one broker queue
    with its dead-letter queue, the Redis idempotency keys and the processed_events table.
    Each label is one atomic effect; every interleaving, every reply of the provider and every injected
    fault is a choice of label. */
module NotificationPool {
  import opened Counting
  import opened TtlStore

  type EventId = string
  type Tag = nat           // identifies one message copy at the broker

  /** What json.Unmarshal makes of a message body. */
  datatype Body = Unparsable | Event(id: EventId)

  datatype Settlement = Ack | Requeue | DeadLetter

  /** The program counter of one worker goroutine. `m` is the delivery it holds, `e` its event id. */
  datatype Worker =
    | NotStarted
    | Idle                                             // in select
    | Parsing(m: Tag)
    | Checking(m: Tag, e: EventId)
    | Sending(m: Tag, e: EventId, attempt: int)
    | Marking(m: Tag, e: EventId)                      // the send succeeded
    | Recording(m: Tag, e: EventId)                    // SET NX was issued
    | Settling(m: Tag, how: Settlement)
    | Stopped

  /** The program counter of the goroutine that called Consume. */
  datatype Main = Down | Spawning(n: nat) | AwaitDone | AwaitWorkers | Returned

  datatype Config = Config(numWorkers: nat, maxRetries: int, ttl: nat)

  /** How often a worker tries to send. */
  function Retries(c: Config): nat { if c.maxRetries > 0 then c.maxRetries else 0 }

  /** The goroutines of the one notification process. */
  datatype Process = Process(
    main: Main,
    done: bool,                    // the shutdown channel is closed
    open: bool,                    // the AMQP channel is open
    wg: int,                       // the WaitGroup counter
    workers: seq<Worker>
  )

  datatype Broker = Broker(
    body: map<Tag, Body>,          // every message copy ever published
    queue: set<Tag>,
    buffered: set<Tag>,            // delivered by the broker, not yet taken by a worker
    orphaned: set<Tag>,            // its settlement failed: unacked, and nobody holds it
    acked: set<Tag>,
    dlq: set<Tag>
  )

  datatype History = History(
    sent: multiset<EventId>,       // successful sends
    lost: multiset<EventId>,       // sends whose delivery ended without a successful mark
    expired: multiset<EventId>     // expiries of idempotency keys
  )

  datatype State = State(
    now: nat,
    proc: Process,
    broker: Broker,
    keys: Store<EventId, string>,  // notif:processed:<id>
    rows: set<EventId>,            // processed_events
    hist: History
  )

  datatype MarkReply = MarkOk | MarkError(applied: bool)

  datatype Action =
    // broker and environment
    | Publish(m: Tag, b: Body)
    | Deliver(m: Tag)
    | Tick(d: nat)
    | CloseChannel
    | CloseDone
    | Crash
    // the goroutine running Consume
    | Start | Spawn | Spawned | SeeDone | Return | Exit
    // worker w
    | Take(w: nat, m: Tag)
    | Parse(w: nat)
    | Check(w: nat, failed: bool)
    | Send(w: nat, ok: bool)
    | Mark(w: nat, reply: MarkReply)
    | Record(w: nat, ok: bool)     // ok is false also when there is no PostgreSQL store
    | Settle(w: nat, ok: bool)
    | StopOnDone(w: nat)
    | StopOnClosed(w: nat)

  // ---- weights of workers, to be summed ----

  predicate Handling(x: Worker) { !x.NotStarted? && !x.Idle? && !x.Stopped? }

  function Busy(): Worker -> nat {
    (x: Worker) => B(Handling(x))
  }

  function Holds(m: Tag): Worker -> nat {
    (x: Worker) => B(Handling(x) && x.m == m)
  }

  /** The goroutine has been started and has not returned. */
  function Live(): Worker -> nat {
    (x: Worker) => B(!x.NotStarted? && !x.Stopped?)
  }

  /** Past a negative duplicate check of `e`, with no successful send yet. */
  function SendingOf(e: EventId): Worker -> nat {
    (x: Worker) => B(x.Sending? && x.e == e)
  }

  /** Sent `e`, not yet marked. */
  function MarkingOf(e: EventId): Worker -> nat {
    (x: Worker) => B(x.Marking? && x.e == e)
  }

  // ---- what a crash or an exit of the process leaves behind ----

  function HeldTags(ws: seq<Worker>): set<Tag> {
    if ws == [] then {}
    else if Handling(ws[0]) then {ws[0].m} + HeldTags(ws[1..]) else HeldTags(ws[1..])
  }

  function UnmarkedSends(ws: seq<Worker>): multiset<EventId> {
    if ws == [] then multiset{}
    else if ws[0].Marking? then multiset{ws[0].e} + UnmarkedSends(ws[1..]) else UnmarkedSends(ws[1..])
  }

  function AllNotStarted(n: nat): seq<Worker> { seq(n, _ => NotStarted) }

  // ---- when an action may happen ----

  function Unacked(s: State): nat {
    |s.broker.buffered| + Sum(s.proc.workers, Busy()) + |s.broker.orphaned|
  }

  predicate At(s: State, w: nat, x: Worker) { w < |s.proc.workers| && s.proc.workers[w] == x }

  predicate Enabled(c: Config, s: State, a: Action) {
    var p, ws := s.proc, s.proc.workers;
    match a
    case Publish(m, b) => m !in s.broker.body
    case Deliver(m) => p.open && m in s.broker.queue && Unacked(s) < c.numWorkers     // Qos(numWorkers, 0, false)
    case Tick(d) => true
    case CloseChannel => p.open
    case CloseDone => !p.main.Down?
    case Crash => !p.main.Down?
    case Start => p.main.Down?
    case Spawn => p.main.Spawning? && p.main.n < |ws|
    case Spawned => p.main.Spawning? && p.main.n == |ws|
    case SeeDone => p.main.AwaitDone? && p.done
    case Return => p.main.AwaitWorkers? && p.wg == 0
    case Exit => p.main.Returned?
    case Take(w, m) => At(s, w, Idle) && m in s.broker.buffered
    case Parse(w) => w < |ws| && ws[w].Parsing? && ws[w].m in s.broker.body
    case Check(w, failed) => w < |ws| && ws[w].Checking?
    case Send(w, ok) => w < |ws| && ws[w].Sending?
    case Mark(w, reply) => w < |ws| && ws[w].Marking?
    case Record(w, ok) => w < |ws| && ws[w].Recording?
    case Settle(w, ok) => w < |ws| && ws[w].Settling? && (ok ==> p.open)
    case StopOnDone(w) => At(s, w, Idle) && p.done
    case StopOnClosed(w) => At(s, w, Idle) && !p.open && s.broker.buffered == {}
  }

  predicate EndsProcess(a: Action) { a.Crash? || a.Exit? }

  predicate IsStop(a: Action) { a.StopOnDone? || a.StopOnClosed? }

  predicate ByWorker(a: Action) {
    a.Take? || a.Parse? || a.Check? || a.Send? || a.Mark? || a.Record? || a.Settle? || IsStop(a)
  }

  /** A step of handleDelivery that is not its last. */
  predicate InHandler(a: Action) {
    a.Parse? || a.Check? || a.Send? || a.Mark? || a.Record?
  }

  /** The worker whose program counter the action changes. */
  function Changed(s: State, a: Action): Option<nat> {
    if ByWorker(a) then Some(a.w)
    else if a.Spawn? && s.proc.main.Spawning? then Some(s.proc.main.n)
    else None
  }

  // ---- the effect of an action, component by component ----

  /** Where a worker goes after the duplicate check. */
  function AfterCheck(c: Config, s: State, m: Tag, e: EventId, failed: bool): Worker {
    if failed then Settling(m, Requeue)
    else if e in s.keys then Settling(m, Ack)
    else if c.maxRetries >= 1 then Sending(m, e, 1)
    else Settling(m, DeadLetter)
  }

  function AfterSend(c: Config, x: Worker, ok: bool): Worker
    requires x.Sending?
  {
    if ok then Marking(x.m, x.e)
    else if x.attempt < c.maxRetries then Sending(x.m, x.e, x.attempt + 1)
    else Settling(x.m, DeadLetter)
  }

  /** The next program counter of the worker the action changes. */
  function WorkerNext(c: Config, s: State, a: Action): (x': Worker)
    requires Enabled(c, s, a) && Changed(s, a).Some?
    ensures x' != NotStarted
    ensures InHandler(a) ==> Handling(s.proc.workers[a.w]) && Handling(x') && x'.m == s.proc.workers[a.w].m
  {
    if a.Spawn? then Idle else
    var x := s.proc.workers[a.w];
    match a
    case Take(_, m) => Parsing(m)
    case Parse(_) =>
      (match s.broker.body[x.m] case Unparsable => Settling(x.m, DeadLetter) case Event(e) => Checking(x.m, e))
    case Check(_, failed) => AfterCheck(c, s, x.m, x.e, failed)
    case Send(_, ok) => AfterSend(c, x, ok)
    case Mark(_, _) => Recording(x.m, x.e)
    case Record(_, _) => Settling(x.m, Ack)
    case Settle(_, _) => Idle
    case _ => Stopped
  }

  function WorkersNext(c: Config, s: State, a: Action): seq<Worker>
    requires Enabled(c, s, a)
  {
    if EndsProcess(a) then AllNotStarted(c.numWorkers)
    else if Changed(s, a).Some? then s.proc.workers[Changed(s, a).value := WorkerNext(c, s, a)]
    else s.proc.workers
  }

  function ProcessNext(c: Config, s: State, a: Action): Process
    requires Enabled(c, s, a)
  {
    var p := s.proc.(workers := WorkersNext(c, s, a));
    match a
    case CloseChannel => p.(open := false)
    case CloseDone => p.(done := true)
    case Start => p.(main := Spawning(0), open := true)
    case Spawn => p.(main := Spawning(p.main.n + 1), wg := p.wg + 1)
    case Spawned => p.(main := AwaitDone)
    case SeeDone => p.(main := AwaitWorkers)
    case Return => p.(main := Returned)
    case Crash => p.(main := Down, done := false, open := false, wg := 0)
    case Exit => p.(main := Down, done := false, open := false, wg := 0)
    case StopOnDone(_) => p.(wg := p.wg - 1)
    case StopOnClosed(_) => p.(wg := p.wg - 1)
    case _ => p
  }

  /** A settlement that fails leaves the delivery unacked; a rejected one goes to the dead-letter queue. */
  function Settled(b: Broker, m: Tag, how: Settlement, ok: bool): Broker {
    if !ok then b.(orphaned := b.orphaned + {m})
    else match how
      case Ack => b.(acked := b.acked + {m})
      case Requeue => b.(queue := b.queue + {m})
      case DeadLetter => b.(dlq := b.dlq + {m})
  }

  function BrokerNext(c: Config, s: State, a: Action): Broker
    requires Enabled(c, s, a)
  {
    var b := s.broker;
    if EndsProcess(a) then  // the broker takes every unacked message back into the queue
      b.(queue := b.queue + b.buffered + HeldTags(s.proc.workers) + b.orphaned, buffered := {}, orphaned := {})
    else match a
      case Publish(m, body) => b.(body := b.body[m := body], queue := b.queue + {m})
      case Deliver(m) => b.(queue := b.queue - {m}, buffered := b.buffered + {m})
      case Take(_, m) => b.(buffered := b.buffered - {m})
      case Settle(w, ok) => Settled(b, s.proc.workers[w].m, s.proc.workers[w].how, ok)
      case _ => b
  }

  function KeysNext(c: Config, s: State, a: Action): Store<EventId, string>
    requires Enabled(c, s, a)
  {
    match a
    case Tick(d) => Purge(s.keys, s.now + d)
    case Mark(w, reply) =>
      if reply.MarkError? && !reply.applied then s.keys
      else SetNX(s.keys, s.proc.workers[w].e, "1", s.now, c.ttl)
    case _ => s.keys
  }

  function RowsNext(c: Config, s: State, a: Action): set<EventId>
    requires Enabled(c, s, a)
  {
    if a.Record? && a.ok then s.rows + {s.proc.workers[a.w].e} else s.rows
  }

  function HistoryNext(c: Config, s: State, a: Action): History
    requires Enabled(c, s, a)
  {
    var h := s.hist;
    if EndsProcess(a) then h.(lost := h.lost + UnmarkedSends(s.proc.workers))
    else match a
      case Send(w, ok) => if ok then h.(sent := h.sent + multiset{s.proc.workers[w].e}) else h
      case Mark(w, reply) => if reply.MarkError? then h.(lost := h.lost + multiset{s.proc.workers[w].e}) else h
      case Tick(d) => h.(expired := h.expired + multiset(s.keys.Keys - Purge(s.keys, s.now + d).Keys))
      case _ => h
  }

  function Apply(c: Config, s: State, a: Action): State
    requires Enabled(c, s, a)
  {
    State(if a.Tick? then s.now + a.d else s.now,
          ProcessNext(c, s, a), BrokerNext(c, s, a), KeysNext(c, s, a), RowsNext(c, s, a), HistoryNext(c, s, a))
  }

  function Init(c: Config): State {
    State(0, Process(Down, false, false, 0, AllNotStarted(c.numWorkers)),
          Broker(map[], {}, {}, {}, {}, {}), map[], {}, History(multiset{}, multiset{}, multiset{}))
  }

  /** `acts` is a schedule that leads from `s` to `s'`. */
  predicate Run(c: Config, s: State, acts: seq<Action>, s': State)
    decreases |acts|
  {
    if acts == [] then s == s'
    else if Enabled(c, s, acts[0]) then Run(c, Apply(c, s, acts[0]), acts[1..], s')
    else false
  }

  /** The schedule leads from the start to `s`. The start is named by a variable, so that a proof unfolds the run
      only where it speaks of it. */
  ghost predicate Leads(c: Config, acts: seq<Action>, s: State) {
    forall start :: start == Init(c) ==> Run(c, start, acts, s)
  }

  ghost predicate Reachable(c: Config, s: State) {
    exists acts :: Leads(c, acts, s)
  }

  lemma ReachedBy(c: Config, acts: seq<Action>, s: State)
    requires Run(c, Init(c), acts, s)
    ensures Reachable(c, s)
  {
    assert Leads(c, acts, s);
  }

  lemma {:induction false} RunStep(c: Config, s: State, acts: seq<Action>, mid: State, a: Action)
    requires Run(c, s, acts, mid) && Enabled(c, mid, a)
    ensures Run(c, s, acts + [a], Apply(c, mid, a))
    decreases |acts|
  {
    var all := acts + [a];
    if acts == [] {
      assert all[0] == a && all[1..] == [];
    } else {
      RunStep(c, Apply(c, s, acts[0]), acts[1..], mid, a);
      assert all[0] == acts[0] && all[1..] == acts[1..] + [a];
    }
  }

  lemma StepReachable(c: Config, s: State, a: Action)
    requires Reachable(c, s) && Enabled(c, s, a)
    ensures Reachable(c, Apply(c, s, a))
  {
    var acts :| Leads(c, acts, s);
    RunStep(c, Init(c), acts, s, a);
    ReachedBy(c, acts + [a], Apply(c, s, a));
  }
}
