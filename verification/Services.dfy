/** The three services together, on one clock: the cache-aside, payment and notification
    protocols as components of one transition system, joined where the services call or message each other. The
    rate limiter shares no step with them; OneDatabase adds it. */
module Services {
  import opened Replies
  import opened TtlStore
  import CA = CacheAside
  import Pay = Payments
  import NP = NotificationPool

  datatype Config = Config(cache: CA.Config, pool: NP.Config)

  datatype State = State(order: CA.State, pay: Pay.State, pool: NP.State)

  datatype Action =
    | Pass(d: nat)
    | OrderStep(a: CA.Action)
    | Respond(t: CA.Call, reply: CA.PayReply)                               // the RPC of CreateOrder t returns
    | PayStep(p: Pay.Action)
    | PublishStep(rpc: Pay.Rpc, e: Pay.EventId, pub: Publication, m: NP.Tag)
    | PoolStep(n: NP.Action)

  // ---- what an action of the whole means for each component ----

  function OrderActs(a: Action): seq<CA.Action> {
    match a
    case Pass(d) => [CA.Tick(d)]
    case OrderStep(b) => [b]
    case Respond(t, reply) => [CA.Respond(t, reply)]
    case _ => []
  }

  /** A row that CreateOrder learned of sends one ProcessPayment request, with the data of the order. */
  function PayActs(s: State, a: Action): seq<Pay.Action> {
    match a
    case OrderStep(Insert(t, Done)) =>
      if t in s.order.creators && s.order.creators[t].Inserting?
      then [Pay.Receive(s.order.nextId,
        Pay.Request(s.order.nextId, s.order.creators[t].amount, s.order.creators[t].email))]
      else []
    case PayStep(p) => [p]
    case PublishStep(rpc, e, r, _) => [Pay.Publish(rpc, e, r)]
    case _ => []
  }

  function PoolActs(a: Action): seq<NP.Action> {
    match a
    case Pass(d) => [NP.Tick(d)]
    case PublishStep(_, e, r, m) => if r.taken then [NP.Publish(m, NP.Event(e))] else []
    case PoolStep(n) => [n]
    case _ => []
  }

  predicate OrderOk(c: Config, s: State, a: Action) { OrderActs(a) == [] ||
      CA.Enabled(c.cache, s.order, OrderActs(a)[0]) }
  predicate PayOk(s: State, a: Action) { PayActs(s, a) == [] || Pay.Enabled(s.pay, PayActs(s, a)[0]) }
  predicate PoolOk(c: Config, s: State, a: Action) { PoolActs(a) == [] || NP.Enabled(c.pool, s.pool, PoolActs(a)[0]) }

  /** A status comes only from the answer of the payment service; an error can come at any time. */
  predicate Answer(s: State, t: CA.Call, reply: CA.PayReply) {
    reply.Paid? ==>
      t in s.order.creators && s.order.creators[t].Paying? &&
      var id := s.order.creators[t].id;
      id in s.pay.calls && s.pay.calls[id].Answered? && reply.status == Pay.COMPLETED
  }

  /** Steps that belong to the joints are not taken by one component alone. Other messages than the service's
      events may reach the queue only as garbage. */
  predicate Alone(s: State, a: Action) {
    match a
    case OrderStep(b) => !b.Tick? && !b.Respond?
    case Respond(t, reply) => Answer(s, t, reply)
    case PayStep(p) => !p.Receive? && !p.Publish?
    case PoolStep(n) => !n.Tick? && !(n.Publish? && n.b.Event?)
    case _ => true
  }

  predicate Enabled(c: Config, s: State, a: Action) {
    Alone(s, a) && OrderOk(c, s, a) && PayOk(s, a) && PoolOk(c, s, a)
  }

  function Apply(c: Config, s: State, a: Action): State
    requires Enabled(c, s, a)
  {
    State(if OrderActs(a) == [] then s.order else CA.Apply(c.cache, s.order, OrderActs(a)[0]),
          if PayActs(s, a) == [] then s.pay else Pay.Apply(s.pay, PayActs(s, a)[0]),
          if PoolActs(a) == [] then s.pool else NP.Apply(c.pool, s.pool, PoolActs(a)[0]))
  }

  function Init(c: Config): State {
    State(CA.INIT, Pay.INIT, NP.Init(c.pool))
  }

  predicate Run(c: Config, s: State, acts: seq<Action>, s': State)
    decreases |acts|
  {
    if acts == [] then s == s'
    else if Enabled(c, s, acts[0]) then Run(c, Apply(c, s, acts[0]), acts[1..], s')
    else false
  }

  /** The schedule leads from the start to `s`. The start is named by a variable, so that a proof unfolds the run
      only where it speaks of it. */
  ghost predicate Leads(c: Config, acts: seq<Action>, s: State) {
    forall start :: start == Init(c) ==> Run(c, start, acts, s)
  }

  ghost predicate Reachable(c: Config, s: State) {
    exists acts :: Leads(c, acts, s)
  }

  lemma ReachedBy(c: Config, acts: seq<Action>, s: State)
    requires Run(c, Init(c), acts, s)
    ensures Reachable(c, s)
  {
    assert Leads(c, acts, s);
  }

  lemma {:induction false} RunStep(c: Config, s: State, acts: seq<Action>, mid: State, a: Action)
    requires Run(c, s, acts, mid) && Enabled(c, mid, a)
    ensures Run(c, s, acts + [a], Apply(c, mid, a))
    decreases |acts|
  {
    var all := acts + [a];
    if acts == [] {
      assert all[0] == a && all[1..] == [];
    } else {
      RunStep(c, Apply(c, s, acts[0]), acts[1..], mid, a);
      assert all[0] == acts[0] && all[1..] == acts[1..] + [a];
    }
  }
}
