/** Two short runs, possible in every configuration, that show what the services do not promise. */
module ServicesWitness {
  import opened Replies
  import opened TtlStore
  import opened Services
  import EndToEnd
  import CA = CacheAside
  import Pay = Payments
  import NP = NotificationPool

  const ROW := CA.Order(1, "customer", 500, CA.PENDING)
  const REQUEST := Pay.Request(1, 500, "customer")

  /** Nobody in the order and payment services sees an error. */
  predicate Smooth(a: Action) {
    match a
    case Pass(_) => true
    case OrderStep(b) =>
      (match b
       case Insert(_, r) => r.Done?
       case Update(_, r) => r.Done?
       case Invalidate(_, r) => r.Done?
       case BeginCreate(_, _, _) => true
       case _ => false)
    case Respond(_, reply) => reply.Paid?
    case PayStep(p) => (p.Begin? && p.ok) || (p.Insert? && p.ok) || (p.Commit? && p.r.Done?)
    case PublishStep(_, _, pub, _) => !pub.error
    case _ => false
  }

  /** Reached by a run, and by one without errors if so required. */
  ghost predicate Reached(c: Config, smooth: bool, s: State) {
    exists acts :: Leads(c, acts, s) && (smooth ==> AllSmooth(acts))
  }

  ghost predicate AllSmooth(acts: seq<Action>) { forall i :: 0 <= i < |acts| ==> Smooth(acts[i]) }

  lemma Step(c: Config, smooth: bool, s: State, a: Action) returns (s': State)
    requires Reached(c, smooth, s) && Enabled(c, s, a) && (smooth ==> Smooth(a))
    ensures Reached(c, smooth, s') && s' == Apply(c, s, a)
  {
    var acts :| Leads(c, acts, s) && (smooth ==> AllSmooth(acts));
    RunStep(c, Init(c), acts, s, a);
    s' := Apply(c, s, a);
    assert Leads(c, acts + [a], s') && (smooth ==> AllSmooth(acts + [a]));
  }

  lemma OrderStepTo(c: Config, smooth: bool, s: State, b: CA.Action) returns (s': State)
    requires Reached(c, smooth, s) && CA.Enabled(c.cache, s.order, b) && (b.BeginCreate? || b.Update? || b.Invalidate?)
    requires smooth ==> Smooth(OrderStep(b))
    ensures Reached(c, smooth, s') && s'.order == CA.Apply(c.cache, s.order, b) && s'.pay == s.pay && s'.pool == s.pool
  {
    s' := Step(c, smooth, s, OrderStep(b));
  }

  lemma PayStepTo(c: Config, smooth: bool, s: State, p: Pay.Action) returns (s': State)
    requires Reached(c, smooth, s) && Pay.Enabled(s.pay, p) && !p.Receive? && !p.Publish?
    requires smooth ==> Smooth(PayStep(p))
    ensures Reached(c, smooth, s') && s'.order == s.order && s'.pay == Pay.Apply(s.pay, p) && s'.pool == s.pool
  {
    s' := Step(c, smooth, s, PayStep(p));
  }

  lemma RespondTo(c: Config, smooth: bool, s: State, t: CA.Call, reply: CA.PayReply) returns (s': State)
    requires Reached(c, smooth, s) && CA.Enabled(c.cache, s.order, CA.Respond(t, reply)) && Answer(s, t, reply)
    requires smooth ==> reply.Paid?
    ensures Reached(c, smooth, s') && s'.order == CA.Apply(c.cache, s.order, CA.Respond(t, reply)) && s'.pay == s.pay &&
      s'.pool == s.pool
  {
    s' := Step(c, smooth, s, Respond(t, reply));
  }

  lemma InsertTo(c: Config, smooth: bool, s: State, t: CA.Call) returns (s': State)
    requires Reached(c, smooth, s) && t in s.order.creators && s.order.creators[t].Inserting? &&
      s.order.nextId !in s.pay.calls
    ensures Reached(c, smooth, s') && s'.order == CA.Apply(c.cache, s.order, CA.Insert(t, Done)) && s'.pool == s.pool
    ensures var x := s.order.creators[t];
      s'.pay == s.pay.(calls := s.pay.calls[s.order.nextId := Pay.Requested(Pay.Request(s.order.nextId, x.amount,
        x.email))])
  {
    s' := Step(c, smooth, s, OrderStep(CA.Insert(t, Done)));
  }

  lemma Opened(c: Config, smooth: bool) returns (s: State)
    ensures Reached(c, smooth, s) && s.pool == NP.Init(c.pool) && s.pay == Pay.INIT
    ensures s.order == CA.INIT.(creators := map[0 := CA.Inserting("customer", 500)])
  {
    assert Leads(c, [], Init(c)) && AllSmooth([]);
    s := OrderStepTo(c, smooth, Init(c), CA.BeginCreate(0, "customer", 500));
  }

  lemma Ordered(c: Config, smooth: bool) returns (s: State)
    ensures Reached(c, smooth, s) && s.pool == NP.Init(c.pool)
    ensures s.order.creators == map[0 := CA.Paying(1)] && s.order.rows == map[1 := ROW]
    ensures s.pay == Pay.INIT.(calls := map[1 := Pay.Requested(REQUEST)])
  {
    s := Opened(c, smooth);
    s := InsertTo(c, smooth, s, 0);
  }

  /** The payment is committed, its event not yet published. */
  ghost predicate PaidUp(c: Config, s: State) {
    && s.pool == NP.Init(c.pool)
    && s.order.creators == map[0 := CA.Paying(1)] && s.order.rows == map[1 := ROW]
    && s.pay.calls == map[1 := Pay.Committed(REQUEST, 1)] && s.pay.events == map[]
    && s.pay.payments == map[1 := Pay.RowOf(REQUEST, 1)]
  }

  /** What a successful transaction does. */
  lemma Transaction(p: Pay.State)
    requires p == Pay.INIT.(calls := map[1 := Pay.Requested(REQUEST)])
    ensures Pay.Enabled(p, Pay.Begin(1, true))
    ensures var p1 := Pay.Apply(p, Pay.Begin(1, true));
      Pay.Enabled(p1, Pay.Insert(1, true)) &&
      var p2 := Pay.Apply(p1, Pay.Insert(1, true));
      Pay.Enabled(p2, Pay.Commit(1, Done)) &&
      var p3 := Pay.Apply(p2, Pay.Commit(1, Done));
      p3.calls == map[1 := Pay.Committed(REQUEST, 1)] && p3.events == map[] &&
        p3.payments == map[1 := Pay.RowOf(REQUEST, 1)]
  {
  }

  lemma Pays(c: Config, smooth: bool) returns (s: State)
    ensures Reached(c, smooth, s) && PaidUp(c, s)
  {
    s := Ordered(c, smooth);
    Transaction(s.pay);
    s := PayStepTo(c, smooth, s, Pay.Begin(1, true));
    s := PayStepTo(c, smooth, s, Pay.Insert(1, true));
    s := PayStepTo(c, smooth, s, Pay.Commit(1, Done));
  }

  lemma PublishTo(c: Config, smooth: bool, s: State, rpc: Pay.Rpc, e: Pay.EventId, r: Publication,
      m: NP.Tag) returns (s': State)
    requires Reached(c, smooth, s) && Pay.Enabled(s.pay, Pay.Publish(rpc, e, r)) && (smooth ==> !r.error)
    requires NP.Enabled(c.pool, s.pool, NP.Publish(m, NP.Event(e)))
    ensures Reached(c, smooth, s') && s'.order == s.order && s'.pay == Pay.Apply(s.pay, Pay.Publish(rpc, e, r))
    ensures r.taken ==> s'.pool == NP.Apply(c.pool, s.pool, NP.Publish(m, NP.Event(e)))
  {
    s' := Step(c, smooth, s, PublishStep(rpc, e, r, m));
  }

  lemma FirstMessage(c: NP.Config, e: NP.EventId)
    ensures NP.Enabled(c, NP.Init(c), NP.Publish(0, NP.Event(e)))
    ensures var b := NP.Apply(c, NP.Init(c), NP.Publish(0, NP.Event(e))).broker;
      0 in b.queue && b.body == map[0 := NP.Event(e)]
  {
  }

  lemma FirstEvent(p: Pay.State, r: Publication)
    requires p.calls == map[1 := Pay.Committed(REQUEST, 1)] && p.events == map[]
    ensures Pay.Enabled(p, Pay.Publish(1, "e", r))
    ensures var p' := Pay.Apply(p, Pay.Publish(1, "e", r));
      && p'.payments == p.payments && p'.calls == map[1 := Pay.Answered(REQUEST, 1, r.taken)]
      && p'.events == if r.taken then map["e" := Pay.EventOf(REQUEST, 1)] else map[]
  {
  }

  lemma Publishes(c: Config, smooth: bool, r: Publication) returns (s: State)
    requires smooth ==> !r.error
    ensures Reached(c, smooth, s)
    ensures s.order.creators == map[0 := CA.Paying(1)] && s.order.rows == map[1 := ROW]
    ensures s.pay.calls == map[1 := Pay.Answered(REQUEST, 1, r.taken)]
    ensures s.pay.payments == map[1 := Pay.RowOf(REQUEST, 1)]
    ensures s.pay.events == if r.taken then map["e" := Pay.EventOf(REQUEST, 1)] else map[]
    ensures r.taken ==> 0 in s.pool.broker.queue && s.pool.broker.body == map[0 := NP.Event("e")]
  {
    s := Pays(c, smooth);
    FirstMessage(c.pool, "e");
    FirstEvent(s.pay, r);
    s := PublishTo(c, smooth, s, 1, "e", r, 0);
  }

  /** The publication reports no error, and yet the broker never takes the event; CreateOrder answers "completed",
      and there is no event that could ever lead to a notification. Nobody has seen an error. */
  lemma CompletedWithoutEvent(c: Config) returns (acts: seq<Action>, s: State)
    ensures Run(c, Init(c), acts, s) && AllSmooth(acts) && EndToEnd.ShownCompleted(s.order, 1) && s.pay.events == map[]
    ensures 0 in s.order.creators && s.order.creators[0] == CA.Created(1, Pay.COMPLETED)
  {
    s := Publishes(c, true, Publication(false, false));
    s := RespondTo(c, true, s, 0, CA.Paid(Pay.COMPLETED));
    s := OrderStepTo(c, true, s, CA.Update(0, Done));
    s := OrderStepTo(c, true, s, CA.Invalidate(0, Done));
    acts :| Leads(c, acts, s) && AllSmooth(acts);
  }

  /** The reply is lost after the commit: the order is recorded as failed although it is paid and its event is on
      the queue of confirmations to send. */
  lemma FailedButPaid(c: Config) returns (s: State)
    ensures Reachable(c, s) && 1 in s.order.rows && s.order.rows[1].status == CA.PAYMENT_FAILED
    ensures EndToEnd.PaymentFor(s, 1, 1) && "e" in s.pay.events
    ensures 0 in s.pool.broker.queue && s.pool.broker.body == map[0 := NP.Event("e")]
  {
    s := Publishes(c, false, Publication(false, true));
    s := RespondTo(c, false, s, 0, CA.RpcError);
    s := OrderStepTo(c, false, s, CA.Update(0, Done));
  }
}
