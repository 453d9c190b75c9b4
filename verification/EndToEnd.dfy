/** What holds across the services: an order, its payment, its event and its notification. */
module EndToEnd {
  import opened Replies
  import opened TtlStore
  import opened Services
  import CA = CacheAside
  import CacheCoherence
  import Pay = Payments
  import NP = NotificationPool
  import PoolDedup

  // ---- every component runs its own protocol ----

  ghost predicate Components(c: Config, s: State) {
    && CA.Reachable(c.cache, s.order)
    && Pay.Reachable(s.pay)
    && NP.Reachable(c.pool, s.pool)
  }

  lemma ComponentsStep(c: Config, s: State, a: Action)
    requires Enabled(c, s, a) && Components(c, s)
    ensures Components(c, Apply(c, s, a))
  {
    if OrderActs(a) != [] { CA.StepReachable(c.cache, s.order, OrderActs(a)[0]); }
    if PayActs(s, a) != [] { Pay.StepReachable(s.pay, PayActs(s, a)[0]); }
    if PoolActs(a) != [] { NP.StepReachable(c.pool, s.pool, PoolActs(a)[0]); }
  }

  // ---- orders and payment calls ----

  /** The call carries the data of its order. */
  ghost predicate CallMatches(o: CA.State, x: Pay.Call, rpc: Pay.Rpc) {
    && rpc < o.nextId && rpc in o.rows
    && x.req == Pay.Request(rpc, o.rows[rpc].amount, o.rows[rpc].email)
  }

  ghost predicate Calls(o: CA.State, p: Pay.State) {
    forall rpc :: rpc in p.calls ==> CallMatches(o, p.calls[rpc], rpc)
  }

  predicate Answered(p: Pay.State, id: CA.OrderId) { id in p.calls && p.calls[id].Answered? }

  /** The status that CreateOrder was told, if it was told one. */
  function Told(x: CA.Creator): Option<string> {
    if (x.Updating? || x.Invalidating?) && x.reply.Paid? then Some(x.reply.status)
    else if x.Created? then Some(x.status)
    else None
  }

  ghost predicate Truthful(o: CA.State, p: Pay.State) {
    && (forall t :: t in o.creators && Told(o.creators[t]).Some? ==>
          Told(o.creators[t]) == Some(Pay.COMPLETED) && Answered(p, o.creators[t].id))
    && (forall id :: id in o.rows && o.rows[id].status == Pay.COMPLETED ==> Answered(p, id))
  }

  predicate SameRequest(o': CA.State, o: CA.State, id: CA.OrderId)
    requires id in o.rows
  {
    id in o'.rows && o'.rows[id].amount == o.rows[id].amount && o'.rows[id].email == o.rows[id].email
  }

  lemma OrderRows(c: CA.Config, o: CA.State, a: CA.Action)
    requires CA.Reachable(c, o) && CA.Enabled(c, o, a)
    ensures o.nextId <= CA.Apply(c, o, a).nextId
    ensures forall id :: id in o.rows ==> SameRequest(CA.Apply(c, o, a), o, id)
  {
    CacheCoherence.InvReachable(c, o);
  }

  lemma CallsOrderStep(c: Config, s: State, a: Action)
    requires Enabled(c, s, a) && Components(c, s) && Calls(s.order, s.pay) && (a.OrderStep? || a.Respond? || a.Pass?)
    ensures Calls(Apply(c, s, a).order, Apply(c, s, a).pay)
  {
    var s' := Apply(c, s, a);
    OrderRows(c.cache, s.order, OrderActs(a)[0]);
    forall rpc | rpc in s'.pay.calls ensures CallMatches(s'.order, s'.pay.calls[rpc], rpc) {
      if rpc in s.pay.calls { assert CallMatches(s.order, s.pay.calls[rpc], rpc); }
    }
  }

  lemma PayCalls(p: Pay.State, b: Pay.Action, rpc: Pay.Rpc)
    requires Pay.Enabled(p, b) && !b.Receive?
    ensures rpc in Pay.Apply(p, b).calls <==> rpc in p.calls
    ensures rpc in p.calls ==> Pay.Apply(p, b).calls[rpc].req == p.calls[rpc].req
    ensures Answered(p, rpc) ==> Answered(Pay.Apply(p, b), rpc)
  {
  }

  lemma CallsStep(c: Config, s: State, a: Action)
    requires Enabled(c, s, a) && Components(c, s) && Calls(s.order, s.pay)
    ensures Calls(Apply(c, s, a).order, Apply(c, s, a).pay)
  {
    var s' := Apply(c, s, a);
    if a.OrderStep? || a.Respond? || a.Pass? {
      CallsOrderStep(c, s, a);
    } else if PayActs(s, a) != [] {
      forall rpc | rpc in s'.pay.calls ensures CallMatches(s'.order, s'.pay.calls[rpc], rpc) {
        PayCalls(s.pay, PayActs(s, a)[0], rpc);
        assert CallMatches(s.order, s.pay.calls[rpc], rpc);
      }
    }
  }

  lemma AnswersStay(c: Config, s: State, a: Action, id: CA.OrderId)
    requires Enabled(c, s, a) && Answered(s.pay, id)
    ensures Answered(Apply(c, s, a).pay, id)
  {
    if PayActs(s, a) != [] && !PayActs(s, a)[0].Receive? { PayCalls(s.pay, PayActs(s, a)[0], id); }
  }

  /** Where a told status, or a completed row, comes from. */
  lemma StatusSources(c: CA.Config, o: CA.State, a: CA.Action)
    requires CA.Enabled(c, o, a)
    ensures var o' := CA.Apply(c, o, a);
      && (forall t :: t in o'.creators && Told(o'.creators[t]).Some? ==>
            (a.Respond? && t == a.t && a.reply == CA.Paid(Told(o'.creators[t]).value) &&
              o'.creators[t].id == o.creators[t].id)
            || (t in o.creators && Told(o.creators[t]) == Told(o'.creators[t]) &&
              o.creators[t].id == o'.creators[t].id))
      && (forall id :: id in o'.rows && o'.rows[id].status == Pay.COMPLETED ==>
            (id in o.rows && o.rows[id].status == Pay.COMPLETED)
            || (a.Update? && id == o.creators[a.t].id && Told(o.creators[a.t]) == Some(Pay.COMPLETED)))
  {
  }

  lemma TruthfulStep(c: Config, s: State, a: Action)
    requires Enabled(c, s, a) && Truthful(s.order, s.pay)
    ensures Truthful(Apply(c, s, a).order, Apply(c, s, a).pay)
  {
    var s' := Apply(c, s, a);
    forall id | Answered(s.pay, id) ensures Answered(s'.pay, id) { AnswersStay(c, s, a, id); }
    if OrderActs(a) != [] { StatusSources(c.cache, s.order, OrderActs(a)[0]); }
  }

  // ---- events and messages ----

  ghost predicate HasCopy(n: NP.State, e: NP.EventId) {
    exists m :: m in n.broker.body && n.broker.body[m] == NP.Event(e)
  }

  /** The events at the broker are those the payment service published, and there is one copy of each. */
  ghost predicate Messages(p: Pay.State, n: NP.State) {
    && (forall m :: m in n.broker.body && n.broker.body[m].Event? ==> n.broker.body[m].id in p.events)
    && (forall m, k ::
      m in n.broker.body && k in n.broker.body && n.broker.body[m].Event? && n.broker.body[m] == n.broker.body[k] ==>
        m == k)
    && (forall e :: e in n.hist.sent ==> e in p.events)
    && (forall e :: e in p.events ==> HasCopy(n, e))
  }

  lemma CopiesStay(c: NP.Config, n: NP.State, a: NP.Action, e: NP.EventId)
    requires NP.Enabled(c, n, a)
    ensures HasCopy(n, e) ==> HasCopy(NP.Apply(c, n, a), e)
    ensures a.Publish? && a.b == NP.Event(e) ==> HasCopy(NP.Apply(c, n, a), e)
  {
    PoolDedup.HistoryGrows(c, n, a);
    if HasCopy(n, e) {
      var m :| m in n.broker.body && n.broker.body[m] == NP.Event(e);
      assert NP.Apply(c, n, a).broker.body[m] == NP.Event(e);
    }
    if a.Publish? { assert NP.Apply(c, n, a).broker.body[a.m] == a.b; }
  }

  lemma SentWasPublished(c: NP.Config, n: NP.State, a: NP.Action, e: NP.EventId)
    requires NP.Reachable(c, n) && NP.Enabled(c, n, a) && e in NP.HistoryNext(c, n, a).sent
    ensures e in n.hist.sent || exists m :: m in n.broker.body && n.broker.body[m] == NP.Event(e)
  {
    if a.Send? && e !in n.hist.sent {
      PoolDedup.SafeReachable(c, n);
      var x := n.proc.workers[a.w];
      assert PoolDedup.WorkerOk(n.broker.body, n.hist.sent, x);
      assert n.broker.body[x.m] == NP.Event(e);
    }
  }

  /** Other actions than the publication of an event leave the events at the broker as they are. */
  lemma SameEvents(c: NP.Config, n: NP.State, a: NP.Action)
    requires NP.Enabled(c, n, a) && !(a.Publish? && a.b.Event?)
    ensures var body' := NP.BrokerNext(c, n, a).body;
      forall m :: m in body' && body'[m].Event? ==> m in n.broker.body && n.broker.body[m] == body'[m]
  {
  }

  lemma PoolMessages(c: NP.Config, p: Pay.State, n: NP.State, a: NP.Action)
    requires NP.Reachable(c, n) && NP.Enabled(c, n, a) && Messages(p, n) && !(a.Publish? && a.b.Event?)
    ensures Messages(p, NP.Apply(c, n, a))
  {
    SameEvents(c, n, a);
    SentComeFromEvents(c, p, n, a);
    CopiesOfEvents(c, p, n, a);
  }

  lemma SentComeFromEvents(c: NP.Config, p: Pay.State, n: NP.State, a: NP.Action)
    requires NP.Reachable(c, n) && NP.Enabled(c, n, a) && Messages(p, n)
    ensures forall e :: e in NP.HistoryNext(c, n, a).sent ==> e in p.events
  {
    forall e | e in NP.HistoryNext(c, n, a).sent ensures e in p.events { SentWasPublished(c, n, a, e); }
  }

  lemma CopiesOfEvents(c: NP.Config, p: Pay.State, n: NP.State, a: NP.Action)
    requires NP.Enabled(c, n, a) && forall e :: e in p.events ==> HasCopy(n, e)
    ensures forall e :: e in p.events ==> HasCopy(NP.Apply(c, n, a), e)
  {
    forall e | e in p.events ensures HasCopy(NP.Apply(c, n, a), e) { CopiesStay(c, n, a, e); }
  }

  lemma PublishMessages(c: NP.Config, p: Pay.State, n: NP.State, p': Pay.State, m: NP.Tag, e: NP.EventId)
    requires NP.Enabled(c, n, NP.Publish(m, NP.Event(e))) && Messages(p, n)
    requires e !in p.events && p'.events.Keys == p.events.Keys + {e}
    ensures Messages(p', NP.Apply(c, n, NP.Publish(m, NP.Event(e))))
  {
    var a := NP.Publish(m, NP.Event(e));
    CopiesOfEvents(c, p, n, a);
    CopiesStay(c, n, a, e);
    assert NP.BrokerNext(c, n, a).body == n.broker.body[m := NP.Event(e)] && NP.HistoryNext(c, n, a) == n.hist;
  }

  lemma EventsGrow(p: Pay.State, b: Pay.Action)
    requires Pay.Enabled(p, b)
    ensures Pay.Apply(p, b).events.Keys == p.events.Keys + (if b.Publish? && b.pub.taken then {b.e} else {})
  {
  }

  lemma MessagesStep(c: Config, s: State, a: Action)
    requires Enabled(c, s, a) && Components(c, s) && Messages(s.pay, s.pool)
    ensures Messages(Apply(c, s, a).pay, Apply(c, s, a).pool)
  {
    var s' := Apply(c, s, a);
    if PayActs(s, a) != [] { EventsGrow(s.pay, PayActs(s, a)[0]); }
    if a.PublishStep? && a.pub.taken {
      PublishMessages(c.pool, s.pay, s.pool, s'.pay, a.m, a.e);
    } else if PoolActs(a) != [] {
      PoolMessages(c.pool, s'.pay, s.pool, PoolActs(a)[0]);
    }
  }

  // ---- the invariant of the whole ----

  ghost predicate Inv(c: Config, s: State) {
    && Components(c, s)
    && Calls(s.order, s.pay)
    && Truthful(s.order, s.pay)
    && Messages(s.pay, s.pool)
  }

  lemma InvStep(c: Config, s: State, a: Action)
    requires Enabled(c, s, a) && Inv(c, s)
    ensures Inv(c, Apply(c, s, a))
  {
    ComponentsStep(c, s, a);
    CallsStep(c, s, a);
    TruthfulStep(c, s, a);
    MessagesStep(c, s, a);
  }

  lemma InvInit(c: Config)
    ensures Inv(c, Init(c))
  {
    CA.ReachedBy(c.cache, [], CA.INIT);
    Pay.ReachedBy([], Pay.INIT);
    NP.ReachedBy(c.pool, [], NP.Init(c.pool));
  }

  lemma {:induction false} InvRun(c: Config, s: State, acts: seq<Action>, s': State)
    requires Inv(c, s) && Run(c, s, acts, s')
    ensures Inv(c, s')
    decreases |acts|
  {
    if acts != [] {
      InvStep(c, s, acts[0]);
      InvRun(c, Apply(c, s, acts[0]), acts[1..], s');
    }
  }

  lemma InvReachable(c: Config, s: State)
    requires Reachable(c, s)
    ensures Inv(c, s)
  {
    InvInit(c);
    var acts :| Leads(c, acts, s);
    InvRun(c, Init(c), acts, s);
  }

  // ---- main results ----

  /** The composed system takes the steps of every protocol of this project, so what is proved of all reachable
      states of one protocol holds inside the whole. */
  lemma ProtocolsKeepRunning(c: Config, s: State)
    requires Reachable(c, s)
    ensures Components(c, s)
  {
    InvReachable(c, s);
  }

  lemma NextCallIsNew(c: Config, s: State)
    requires Inv(c, s)
    ensures s.order.nextId !in s.pay.calls
  {
    forall rpc | rpc in s.pay.calls ensures rpc < s.order.nextId { assert CallMatches(s.order, s.pay.calls[rpc], rpc); }
  }

  /** The joints take nothing away beyond their guards. Every step of the order service stays possible; in
      particular an inserted order always gets a payment call of its own. An answer needs only to have been given,
      and a publication only a fresh message. */
  lemma JointsNeverBlock(c: Config, s: State, a: Action)
    requires Reachable(c, s)
    requires match a
      case OrderStep(b) => !b.Tick? && !b.Respond? && CA.Enabled(c.cache, s.order, b)
      case Respond(t, reply) => Answer(s, t, reply) && CA.Enabled(c.cache, s.order, CA.Respond(t, reply))
      case PublishStep(rpc, e, pub, m) => Pay.Enabled(s.pay, Pay.Publish(rpc, e, pub)) && m !in s.pool.broker.body
      case _ => false
    ensures Enabled(c, s, a)
  {
    InvReachable(c, s);
    NextCallIsNew(c, s);
  }

  ghost predicate PaymentFor(s: State, id: CA.OrderId, k: Pay.PaymentId) {
    k in s.pay.payments && s.pay.payments[k].orderId == id
  }

  lemma PaymentIsCalled(c: Config, s: State, k: Pay.PaymentId)
    requires Inv(c, s) && k in s.pay.payments
    ensures k in s.pay.payer && s.pay.payer[k] == s.pay.payments[k].orderId && s.pay.payer[k] in s.pay.calls
    ensures var id := s.pay.payments[k].orderId;
      id in s.order.rows && s.pay.payments[k] == Pay.Payment(k, id, s.order.rows[id].amount, Pay.COMPLETED)
  {
    Pay.InvReachable(s.pay);
    assert Pay.RowOk(s.pay, k);
    assert CallMatches(s.order, s.pay.calls[s.pay.payer[k]], s.pay.payer[k]);
  }

  predicate GotCompleted(x: CA.Reader, id: CA.OrderId) {
    x.Got? && x.order.id == id && x.order.status == Pay.COMPLETED
  }

  /** Somebody has been shown the order `id` as completed: the table, the client that created it, or a client
      that asked for it, from the table or from the cache. */
  ghost predicate ShownCompleted(o: CA.State, id: CA.OrderId) {
    || (id in o.rows && o.rows[id].status == Pay.COMPLETED)
    || (exists t :: t in o.creators && o.creators[t].Created? && o.creators[t].id == id)
    || (exists t :: t in o.readers && GotCompleted(o.readers[t], id))
  }

  lemma ShownIsAnswered(c: CA.Config, o: CA.State, p: Pay.State, id: CA.OrderId)
    requires CA.Reachable(c, o) && Truthful(o, p) && ShownCompleted(o, id)
    ensures Answered(p, id)
  {
    CacheCoherence.InvReachable(c, o);
    if t :| t in o.creators && o.creators[t].Created? && o.creators[t].id == id {
      assert Told(o.creators[t]).Some?;
    } else if t :| t in o.readers && GotCompleted(o.readers[t], id) {
      assert CacheCoherence.Snapshot(o.rows, o.readers[t].order);
    }
  }

  /** An order that anybody has been shown as completed has a committed payment of its own amount. */
  lemma CompletedIsPaid(c: Config, s: State, id: CA.OrderId) returns (k: Pay.PaymentId)
    requires Reachable(c, s) && ShownCompleted(s.order, id)
    ensures id in s.order.rows && PaymentFor(s, id, k)
    ensures s.pay.payments[k] == Pay.Payment(k, id, s.order.rows[id].amount, Pay.COMPLETED)
  {
    InvReachable(c, s);
    Pay.InvReachable(s.pay);
    ShownIsAnswered(c.cache, s.order, s.pay, id);
    k := s.pay.calls[id].id;
    assert Pay.CallOk(s.pay, id);
    assert Pay.RowOk(s.pay, k);
    assert CallMatches(s.order, s.pay.calls[id], id);
  }

  /** Of the orders answered as completed exactly those have an event whose publication took effect; nothing that
      the client is told depends on it. */
  lemma AnnouncedIff(c: Config, s: State, id: CA.OrderId)
    requires Reachable(c, s) && Answered(s.pay, id)
    ensures (exists e :: e in s.pay.events && s.pay.events[e].orderId == id) <==> s.pay.calls[id].published
  {
    InvReachable(c, s);
    Pay.InvReachable(s.pay);
    assert CallMatches(s.order, s.pay.calls[id], id);
    var k := s.pay.calls[id].id;
    assert Pay.CallOk(s.pay, id) && Pay.RowOk(s.pay, k);
    if s.pay.calls[id].published {
      Pay.PublishedIsReported(s.pay, id);
      var e :| e in s.pay.events && s.pay.events[e].payment == k;
      assert Pay.EventOk(s.pay, e);
    }
    forall e | e in s.pay.events && s.pay.events[e].orderId == id ensures s.pay.calls[id].published {
      assert Pay.EventOk(s.pay, e);
      PaymentIsCalled(c, s, s.pay.events[e].payment);
      assert Pay.RowOk(s.pay, s.pay.events[e].payment);
    }
  }

  /** No order is paid twice, and a payment belongs to an order of the same amount. */
  lemma PaidAtMostOnce(c: Config, s: State, j: Pay.PaymentId, k: Pay.PaymentId)
    requires Reachable(c, s) && j in s.pay.payments && k in s.pay.payments
    ensures s.pay.payments[j].orderId == s.pay.payments[k].orderId ==> j == k
    ensures var id := s.pay.payments[k].orderId;
      id in s.order.rows && s.pay.payments[k] == Pay.Payment(k, id, s.order.rows[id].amount, Pay.COMPLETED)
  {
    InvReachable(c, s);
    PaymentIsCalled(c, s, j);
    PaymentIsCalled(c, s, k);
    if s.pay.payments[j].orderId == s.pay.payments[k].orderId { Pay.OnePaymentPerCall(s.pay, j, k); }
  }

  // ---- what a failed order may still be charged ----

  ghost predicate Paid(s: State, id: CA.OrderId) { exists k :: PaymentFor(s, id, k) }

  /** Whatever happens from `s` on, the order is not charged. */
  ghost predicate NeverPaid(c: Config, s: State, id: CA.OrderId) {
    forall acts, s' :: Run(c, s, acts, s') ==> !Paid(s', id)
  }

  /** No payment call of the order can commit any more. */
  predicate GivenUp(p: Pay.State, id: CA.OrderId) {
    id in p.calls ==> p.calls[id].Aborting? || p.calls[id].Refused? || p.calls[id].Dead?
  }

  lemma PayRows(p: Pay.State, b: Pay.Action, id: CA.OrderId)
    requires Pay.Enabled(p, b) && GivenUp(p, id) && (b.Receive? ==> b.rpc != id)
    requires forall t :: t in p.calls ==> p.calls[t].req.orderId == t
    ensures GivenUp(Pay.Apply(p, b), id)
    ensures forall k :: k in Pay.Apply(p, b).payments && Pay.Apply(p, b).payments[k].orderId == id ==>
      k in p.payments && p.payments[k].orderId == id
  {
  }

  lemma UnpaidStep(c: Config, s: State, a: Action, id: CA.OrderId)
    requires Enabled(c, s, a) && Inv(c, s) && id < s.order.nextId && GivenUp(s.pay, id) && !Paid(s, id)
    ensures GivenUp(Apply(c, s, a).pay, id) && !Paid(Apply(c, s, a), id)
  {
    forall t | t in s.pay.calls ensures s.pay.calls[t].req.orderId == t {
      assert CallMatches(s.order, s.pay.calls[t], t);
    }
    if PayActs(s, a) != [] { PayRows(s.pay, PayActs(s, a)[0], id); }
    forall k ensures !PaymentFor(Apply(c, s, a), id, k) { assert !PaymentFor(s, id, k); }
  }

  lemma {:induction false} UnpaidRun(c: Config, s: State, acts: seq<Action>, s': State, id: CA.OrderId)
    requires Inv(c, s) && Run(c, s, acts, s') && id < s.order.nextId && GivenUp(s.pay, id) && !Paid(s, id)
    ensures !Paid(s', id)
    decreases |acts|
  {
    if acts != [] {
      var t := Apply(c, s, acts[0]);
      UnpaidStep(c, s, acts[0], id);
      InvStep(c, s, acts[0]);
      OrderIdsGrow(c, s, acts[0]);
      UnpaidRun(c, t, acts[1..], s', id);
    }
  }

  lemma OrderIdsGrow(c: Config, s: State, a: Action)
    requires Enabled(c, s, a) && Components(c, s)
    ensures s.order.nextId <= Apply(c, s, a).order.nextId
  {
    if OrderActs(a) != [] { OrderRows(c.cache, s.order, OrderActs(a)[0]); }
  }

  predicate Underway(p: Pay.State, id: CA.OrderId) {
    id in p.calls && (p.calls[id].Requested? || p.calls[id].Began? || p.calls[id].Inserted?)
  }

  /** The next step of a payment call that goes well. */
  function NextPayStep(p: Pay.State, id: CA.OrderId): Pay.Action
    requires Underway(p, id)
  {
    match p.calls[id]
    case Requested(_) => Pay.Begin(id, true)
    case Began(_) => Pay.Insert(id, true)
    case _ => Pay.Commit(id, Done)
  }

  lemma NextPayStepEffect(p: Pay.State, id: CA.OrderId)
    requires Underway(p, id) && p.calls[id].req.orderId == id
    ensures var b, p' := NextPayStep(p, id), Pay.Apply(p, NextPayStep(p, id));
      if p.calls[id].Inserted?
      then p.calls[id].id in p'.payments && p'.payments[p.calls[id].id].orderId == id
      else Underway(p', id) && p'.calls[id].req == p.calls[id].req && (p.calls[id].Began? ==> p'.calls[id].Inserted?)
  {
  }

  lemma {:induction false} CanBePaid(c: Config, s: State, id: CA.OrderId) returns (acts: seq<Action>, s': State)
    requires Underway(s.pay, id) && s.pay.calls[id].req.orderId == id
    ensures Run(c, s, acts, s') && Paid(s', id)
    decreases if s.pay.calls[id].Requested? then 2 else if s.pay.calls[id].Began? then 1 else 0
  {
    var a := PayStep(NextPayStep(s.pay, id));
    var t := Apply(c, s, a);
    NextPayStepEffect(s.pay, id);
    var rest := [];
    if s.pay.calls[id].Inserted? {
      assert PaymentFor(t, id, s.pay.calls[id].id);
      s' := t;
    } else {
      rest, s' := CanBePaid(c, t, id);
    }
    acts := [a] + rest;
    assert acts[1..] == rest;
  }

  /** "payment_failed": an order is never charged, now or later, if and only if it has no payment and its payment
      call has given up or was never sent. What the order's own status says plays no part in it: as long as the
      call is on the wire or in its transaction, an order recorded as failed can still be charged. */
  lemma NeverPaidIff(c: Config, s: State, id: CA.OrderId)
    requires Reachable(c, s) && id < s.order.nextId
    ensures NeverPaid(c, s, id) <==> GivenUp(s.pay, id) && !Paid(s, id)
  {
    InvReachable(c, s);
    if GivenUp(s.pay, id) && !Paid(s, id) {
      forall acts, s' | Run(c, s, acts, s') ensures !Paid(s', id) { UnpaidRun(c, s, acts, s', id); }
    } else if Paid(s, id) {
      assert Run(c, s, [], s);
    } else {
      CommittedIsPaid(c, s, id);
      assert CallMatches(s.order, s.pay.calls[id], id);
      var acts, s' := CanBePaid(c, s, id);
    }
  }

  lemma CommittedIsPaid(c: Config, s: State, id: CA.OrderId)
    requires Inv(c, s) && id in s.pay.calls
    ensures s.pay.calls[id].Committed? || s.pay.calls[id].Answered? ==> Paid(s, id)
  {
    Pay.InvReachable(s.pay);
    assert Pay.CallOk(s.pay, id) && CallMatches(s.order, s.pay.calls[id], id);
    if s.pay.calls[id].Committed? || s.pay.calls[id].Answered? {
      assert Pay.RowOk(s.pay, s.pay.calls[id].id);
      assert PaymentFor(s, id, s.pay.calls[id].id);
    }
  }

  /** Whenever a notification of an event was sent, the event reports a committed payment of an existing order,
      with that order's amount and addressed to its customer. */
  lemma SentTracesToPayment(c: Config, s: State, e: NP.EventId)
    requires Reachable(c, s) && e in s.pool.hist.sent
    ensures e in s.pay.events && PaymentFor(s, s.pay.events[e].orderId, s.pay.events[e].payment)
    ensures s.pay.events[e].orderId in s.order.rows
    ensures var o := s.order.rows[s.pay.events[e].orderId];
      s.pay.events[e] ==
        Pay.PaymentEvent(s.pay.events[e].payment, s.pay.events[e].orderId, o.amount, o.email, Pay.COMPLETED)
  {
    InvReachable(c, s);
    Pay.InvReachable(s.pay);
    assert Pay.EventOk(s.pay, e);
    var k := s.pay.events[e].payment;
    assert Pay.RowOk(s.pay, k);
    assert CallMatches(s.order, s.pay.calls[s.pay.payer[k]], s.pay.payer[k]);
  }

  /** All notifications about one order are about one event; they are at most one, plus one for each expiry of
      that event's key and each of its sends that was left unmarked. */
  lemma NotifiedAtMostOnce(c: Config, s: State, e: NP.EventId, f: NP.EventId)
    requires Reachable(c, s) && e in s.pay.events && f in s.pay.events
    ensures s.pay.events[e].orderId == s.pay.events[f].orderId ==> e == f
    ensures s.pool.hist.sent[e] <= 1 + s.pool.hist.expired[e] + s.pool.hist.lost[e]
  {
    InvReachable(c, s);
    if s.pay.events[e].orderId == s.pay.events[f].orderId { OneEventPerOrder(c, s, e, f); }
    OneCopy(s, e);
    PoolDedup.AtMostOnce(c.pool, s.pool, e);
  }

  lemma OneEventPerOrder(c: Config, s: State, e: NP.EventId, f: NP.EventId)
    requires Inv(c, s) && e in s.pay.events && f in s.pay.events && s.pay.events[e].orderId == s.pay.events[f].orderId
    ensures e == f
  {
    Pay.InvReachable(s.pay);
    assert Pay.EventOk(s.pay, e) && Pay.EventOk(s.pay, f);
    var j, k := s.pay.events[e].payment, s.pay.events[f].payment;
    PaymentIsCalled(c, s, j);
    PaymentIsCalled(c, s, k);
    assert Pay.RowOk(s.pay, j) && Pay.RowOk(s.pay, k);
    Pay.OnePaymentPerCall(s.pay, j, k);
  }

  lemma OneCopy(s: State, e: NP.EventId)
    requires Messages(s.pay, s.pool)
    ensures |PoolDedup.Copies(s.pool, e)| <= 1
  {
    var copies := PoolDedup.Copies(s.pool, e);
    if copies != {} {
      var m :| m in copies;
      assert copies == {m};
    }
  }
}
