/** The order service's cache-aside protocol as a labelled transition system: concurrent CreateOrder and
    GetOrder calls over the orders table and a cache with expiry, the cache being filled by goroutines that
    outlive the request. */
module CacheAside {
  import opened Replies
  import opened TtlStore

  type OrderId = int            // int32 in the service; the sequence starts at 1
  type Call = nat                // identifies one gRPC call

  /** An orders row, and equally the JSON document cached for it. Amounts are in cents. */
  datatype Order = Order(id: OrderId, email: string, amount: int, status: string)

  const PENDING := "pending"
  const PAYMENT_FAILED := "payment_failed"

  datatype PayReply = Paid(status: string) | RpcError

  /** CreateOrder. */
  datatype Creator =
    | Inserting(email: string, amount: int)
    | Paying(id: OrderId)
    | Updating(id: OrderId, reply: PayReply)
    | Invalidating(id: OrderId, reply: PayReply)
    | Created(id: OrderId, status: string)
    | CreateFailed

  /** GetOrder. */
  datatype Reader =
    | Looking(id: OrderId)
    | Querying(id: OrderId)
    | Got(id: OrderId, order: Order)
    | GetFailed(id: OrderId)

  datatype Fill = Fill(order: Order, at: nat)

  datatype Config = Config(caching: bool, ttl: nat)   // caching is off when no cache was configured

  datatype State = State(
    now: nat,
    rows: map<OrderId, Order>,          // the orders table
    nextId: OrderId,                    // its SERIAL sequence
    cache: Store<OrderId, Order>,       // order:<id>
    creators: map<Call, Creator>,
    readers: map<Call, Reader>,
    populates: map<Call, Order>,        // goroutines about to cache the row their GetOrder read
    fills: seq<Fill>                    // history: cache writes that took effect
  )

  datatype Action =
    | Tick(d: nat)
    | Crash
    | BeginCreate(t: Call, email: string, amount: int)
    | Insert(t: Call, r: Reply)
    | Respond(t: Call, reply: PayReply)
    | Update(t: Call, r: Reply)
    | Invalidate(t: Call, r: Reply)
    | BeginGet(t: Call, id: OrderId)
    | Lookup(t: Call, failed: bool)
    | Query(t: Call, failed: bool)
    | Populate(t: Call, r: Reply)

  predicate Enabled(c: Config, s: State, a: Action) {
    match a
    case Tick(_) => true
    case Crash => true
    case BeginCreate(t, _, _) => t !in s.creators
    case Insert(t, _) => t in s.creators && s.creators[t].Inserting?
    case Respond(t, _) => t in s.creators && s.creators[t].Paying?
    case Update(t, _) => t in s.creators && s.creators[t].Updating?
    case Invalidate(t, _) => t in s.creators && s.creators[t].Invalidating?
    case BeginGet(t, _) => t !in s.readers && t !in s.populates
    case Lookup(t, _) => t in s.readers && s.readers[t].Looking?
    case Query(t, _) => t in s.readers && s.readers[t].Querying?
    case Populate(t, _) => t in s.populates
  }

  /** The status written by CreateOrder. */
  function NewStatus(reply: PayReply): string {
    match reply case Paid(status) => status case RpcError => PAYMENT_FAILED
  }

  function CreatorNext(c: Config, s: State, a: Action): Creator
    requires Enabled(c, s, a) && (a.BeginCreate? || a.Insert? || a.Respond? || a.Update? || a.Invalidate?)
  {
    match a
    case BeginCreate(_, email, amount) => Inserting(email, amount)
    case Insert(t, r) => if r.Done? then Paying(s.nextId) else CreateFailed
    case Respond(t, reply) => Updating(s.creators[t].id, reply)
    case Update(t, _) => Invalidating(s.creators[t].id, s.creators[t].reply)
    case Invalidate(t, _) =>
      (match s.creators[t].reply case Paid(status) => Created(s.creators[t].id, status) case RpcError => CreateFailed)
    case _ => CreateFailed
  }

  function CreatorsNext(c: Config, s: State, a: Action): map<Call, Creator>
    requires Enabled(c, s, a)
  {
    if a.Crash? then map[]
    else if a.BeginCreate? || a.Insert? || a.Respond? || a.Update? || a.Invalidate?
    then s.creators[a.t := CreatorNext(c, s, a)]
    else s.creators
  }

  function RowsNext(c: Config, s: State, a: Action): map<OrderId, Order>
    requires Enabled(c, s, a)
  {
    match a
    case Insert(t, r) =>
      if Applied(r) then s.rows[s.nextId := Order(s.nextId, s.creators[t].email, s.creators[t].amount, PENDING)]
        else s.rows
    case Update(t, r) =>
      var id := s.creators[t].id;
      if Applied(r) && id in s.rows then s.rows[id := s.rows[id].(status := NewStatus(s.creators[t].reply))] else s.rows
    case _ => s.rows
  }

  function ReadersNext(c: Config, s: State, a: Action): map<Call, Reader>
    requires Enabled(c, s, a)
  {
    match a
    case Crash => map[]
    case BeginGet(t, id) => s.readers[t := Looking(id)]
    case Lookup(t, failed) =>
      var id := s.readers[t].id;
      s.readers[t := if c.caching && !failed && id in s.cache then Got(id, s.cache[id].value) else Querying(id)]
    case Query(t, failed) =>
      var id := s.readers[t].id;
      s.readers[t := if !failed && id in s.rows then Got(id, s.rows[id]) else GetFailed(id)]
    case _ => s.readers
  }

  function PopulatesNext(c: Config, s: State, a: Action): map<Call, Order>
    requires Enabled(c, s, a)
  {
    match a
    case Crash => map[]
    case Query(t, failed) =>
      var id := s.readers[t].id;
      if c.caching && !failed && id in s.rows then s.populates[t := s.rows[id]] else s.populates
    case Populate(t, _) => s.populates - {t}
    case _ => s.populates
  }

  function CacheNext(c: Config, s: State, a: Action): Store<OrderId, Order>
    requires Enabled(c, s, a)
  {
    match a
    case Tick(d) => Purge(s.cache, s.now + d)
    case Invalidate(t, r) => if c.caching && Applied(r) then Del(s.cache, s.creators[t].id) else s.cache
    case Populate(t, r) =>
      if Applied(r) then Set(s.cache, s.populates[t].id, s.populates[t], s.now, c.ttl) else s.cache
    case _ => s.cache
  }

  function Apply(c: Config, s: State, a: Action): State
    requires Enabled(c, s, a)
  {
    State(if a.Tick? then s.now + a.d else s.now,
          RowsNext(c, s, a),
          if a.Insert? then s.nextId + 1 else s.nextId,
          CacheNext(c, s, a),
          CreatorsNext(c, s, a), ReadersNext(c, s, a), PopulatesNext(c, s, a),
          if a.Populate? && Applied(a.r) then s.fills + [Fill(s.populates[a.t], s.now)] else s.fills)
  }

  const INIT := State(0, map[], 1, map[], map[], map[], map[], [])

  predicate Run(c: Config, s: State, acts: seq<Action>, s': State)
    decreases |acts|
  {
    if acts == [] then s == s'
    else if Enabled(c, s, acts[0]) then Run(c, Apply(c, s, acts[0]), acts[1..], s')
    else false
  }

  /** The schedule leads from the start to `s`. The start is named by a variable, so that a proof unfolds the run
      only where it speaks of it. */
  ghost predicate Leads(c: Config, acts: seq<Action>, s: State) {
    forall start :: start == INIT ==> Run(c, start, acts, s)
  }

  ghost predicate Reachable(c: Config, s: State) {
    exists acts :: Leads(c, acts, s)
  }

  lemma ReachedBy(c: Config, acts: seq<Action>, s: State)
    requires Run(c, INIT, acts, s)
    ensures Reachable(c, s)
  {
    assert Leads(c, acts, s);
  }

  lemma {:induction false} RunStep(c: Config, s: State, acts: seq<Action>, mid: State, a: Action)
    requires Run(c, s, acts, mid) && Enabled(c, mid, a)
    ensures Run(c, s, acts + [a], Apply(c, mid, a))
    decreases |acts|
  {
    var all := acts + [a];
    if acts == [] {
      assert all[0] == a && all[1..] == [];
    } else {
      RunStep(c, Apply(c, s, acts[0]), acts[1..], mid, a);
      assert all[0] == acts[0] && all[1..] == acts[1..] + [a];
    }
  }

  lemma StepReachable(c: Config, s: State, a: Action)
    requires Reachable(c, s) && Enabled(c, s, a)
    ensures Reachable(c, Apply(c, s, a))
  {
    var acts :| Leads(c, acts, s);
    RunStep(c, INIT, acts, s, a);
    ReachedBy(c, acts + [a], Apply(c, s, a));
  }
}
