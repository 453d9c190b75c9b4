/** The payment service as a labelled transition system: concurrent ProcessPayment calls, each running one
    transaction on the payments table and then publishing one event. */
module Payments {
  import opened Replies

  type Rpc = int                 // identifies one ProcessPayment call
  type PaymentId = int
  type EventId = string

  datatype Request = Request(orderId: int, amount: int, email: string)

  /** A payments row. */
  datatype Payment = Payment(id: PaymentId, orderId: int, amount: int, status: string)

  /** A published PaymentEvent, with the payment it reports. */
  datatype PaymentEvent = PaymentEvent(payment: PaymentId, orderId: int, amount: int, email: string, status: string)

  const COMPLETED := "completed"

  datatype Call =
    | Requested(req: Request)                         // on the wire
    | Began(req: Request)                             // in a transaction
    | Inserted(req: Request, id: PaymentId)           // the row is written, but not committed
    | Aborting(req: Request)                          // the transaction failed; the deferred rollback is due
    | Committed(req: Request, id: PaymentId)
    | Answered(req: Request, id: PaymentId, published: bool)   // the reply is "completed"
    | Refused(req: Request)                           // the reply is an error
    | Dead(req: Request)                              // the process crashed before replying

  datatype State = State(
    calls: map<Rpc, Call>,
    payments: map<PaymentId, Payment>,     // the payments table: committed rows
    nextId: PaymentId,                     // its SERIAL sequence
    events: map<EventId, PaymentEvent>,    // events the broker has accepted
    payer: map<PaymentId, Rpc>             // history: the call that wrote the row
  )

  datatype Action =
    | Receive(rpc: Rpc, req: Request)
    | Begin(rpc: Rpc, ok: bool)
    | Insert(rpc: Rpc, ok: bool)
    | Commit(rpc: Rpc, r: Reply)
    | Rollback(rpc: Rpc)
    | Publish(rpc: Rpc, e: EventId, pub: Publication)
    | Crash

  predicate Enabled(s: State, a: Action) {
    match a
    case Receive(rpc, _) => rpc !in s.calls
    case Begin(rpc, _) => rpc in s.calls && s.calls[rpc].Requested?
    case Insert(rpc, _) => rpc in s.calls && s.calls[rpc].Began?
    case Commit(rpc, _) => rpc in s.calls && s.calls[rpc].Inserted?
    case Rollback(rpc) => rpc in s.calls && s.calls[rpc].Aborting?
    case Publish(rpc, e, _) => rpc in s.calls && s.calls[rpc].Committed? && e !in s.events     // a fresh UUID
    case Crash => true
  }

  /** The row, or the event, that a call writes. */
  function RowOf(req: Request, id: PaymentId): Payment { Payment(id, req.orderId, req.amount, COMPLETED) }

  function EventOf(req: Request, id: PaymentId): PaymentEvent {
    PaymentEvent(id, req.orderId, req.amount, req.email, COMPLETED)
  }

  function CallNext(s: State, a: Action): Call
    requires Enabled(s, a) && !a.Crash?
  {
    match a
    case Receive(_, req) => Requested(req)
    case Begin(rpc, ok) => if ok then Began(s.calls[rpc].req) else Refused(s.calls[rpc].req)
    case Insert(rpc, ok) => if ok then Inserted(s.calls[rpc].req, s.nextId) else Aborting(s.calls[rpc].req)
    case Commit(rpc, r) => if r.Done? then Committed(s.calls[rpc].req, s.calls[rpc].id) else Aborting(s.calls[rpc].req)
    case Rollback(rpc) => Refused(s.calls[rpc].req)
    case Publish(rpc, _, r) => Answered(s.calls[rpc].req, s.calls[rpc].id, r.taken)
  }

  /** A crash ends every call that has not replied; its open transaction is rolled back. */
  function Crashed(x: Call): Call {
    if x.Answered? || x.Refused? || x.Requested? then x else Dead(x.req)
  }

  function Apply(s: State, a: Action): State
    requires Enabled(s, a)
  {
    if a.Crash? then s.(calls := map rpc | rpc in s.calls :: Crashed(s.calls[rpc]))
    else
      var t := s.(calls := s.calls[a.rpc := CallNext(s, a)]);
      match a
      case Insert(_, _) => t.(nextId := s.nextId + 1)
      case Commit(rpc, r) =>
        var x := s.calls[rpc];
        if Applied(r) then t.(payments := s.payments[x.id := RowOf(x.req, x.id)], payer := s.payer[x.id := rpc]) else t
      case Publish(rpc, e, r) =>
        var x := s.calls[rpc];
        if r.taken then t.(events := s.events[e := EventOf(x.req, x.id)]) else t
      case _ => t
  }

  const INIT := State(map[], map[], 1, map[], map[])

  predicate Run(s: State, acts: seq<Action>, s': State)
    decreases |acts|
  {
    if acts == [] then s == s'
    else if Enabled(s, acts[0]) then Run(Apply(s, acts[0]), acts[1..], s')
    else false
  }

  /** The schedule leads from the start to `s`. The start is named by a variable, so that a proof unfolds the run
      only where it speaks of it. */
  ghost predicate Leads(acts: seq<Action>, s: State) {
    forall start :: start == INIT ==> Run(start, acts, s)
  }

  ghost predicate Reachable(s: State) {
    exists acts :: Leads(acts, s)
  }

  lemma ReachedBy(acts: seq<Action>, s: State)
    requires Run(INIT, acts, s)
    ensures Reachable(s)
  {
    assert Leads(acts, s);
  }

  lemma {:induction false} RunStep(s: State, acts: seq<Action>, mid: State, a: Action)
    requires Run(s, acts, mid) && Enabled(mid, a)
    ensures Run(s, acts + [a], Apply(mid, a))
    decreases |acts|
  {
    var all := acts + [a];
    if acts == [] {
      assert all[0] == a && all[1..] == [];
    } else {
      RunStep(Apply(s, acts[0]), acts[1..], mid, a);
      assert all[0] == acts[0] && all[1..] == acts[1..] + [a];
    }
  }

  lemma StepReachable(s: State, a: Action)
    requires Reachable(s) && Enabled(s, a)
    ensures Reachable(Apply(s, a))
  {
    var acts :| Leads(acts, s);
    RunStep(INIT, acts, s, a);
    ReachedBy(acts + [a], Apply(s, a));
  }

  // ---- rows, events and calls correspond ----

  /** The row was written by a call that is past its commit, with the data of its request. */
  ghost predicate RowOk(s: State, id: PaymentId)
    requires id in s.payments
  {
    && id < s.nextId && id in s.payer && s.payer[id] in s.calls
    && var x := s.calls[s.payer[id]];
       && (x.Aborting? || x.Refused? || x.Dead? || ((x.Committed? || x.Answered?) && x.id == id))
       && s.payments[id] == RowOf(x.req, id)
  }

  ghost predicate CallOk(s: State, rpc: Rpc)
    requires rpc in s.calls
  {
    var x := s.calls[rpc];
    && (x.Inserted? ==> x.id < s.nextId && x.id !in s.payments)
    && (x.Committed? || x.Answered? ==> x.id in s.payments && x.id in s.payer && s.payer[x.id] == rpc)
  }

  ghost predicate EventOk(s: State, e: EventId)
    requires e in s.events
  {
    var id := s.events[e].payment;
    && id in s.payments && id in s.payer && s.payer[id] in s.calls
    && var x := s.calls[s.payer[id]];
       x.Answered? && x.published && s.events[e] == EventOf(x.req, id)
  }

  ghost predicate Reported(s: State, id: PaymentId) { exists e :: e in s.events && s.events[e].payment == id }

  predicate OneRowPerCall(s: State) {
    forall i, j :: i in s.payments && j in s.payments && i in s.payer && j in s.payer && s.payer[i] == s.payer[j] ==>
      i == j
  }

  predicate OneCallPerId(calls: map<Rpc, Call>) {
    forall t, u ::
      t in calls && u in calls && calls[t].Inserted? && calls[u].Inserted? && calls[t].id == calls[u].id ==> t == u
  }

  predicate OneEventPerRow(events: map<EventId, PaymentEvent>) {
    forall e, f :: e in events && f in events && events[e].payment == events[f].payment ==> e == f
  }

  ghost predicate Unique(s: State) {
    && OneRowPerCall(s) && OneCallPerId(s.calls) && OneEventPerRow(s.events)
    && (forall t :: t in s.calls && s.calls[t].Answered? && s.calls[t].published ==> Reported(s, s.calls[t].id))
  }

  ghost predicate Corresponding(s: State) {
    && (forall id :: id in s.payments ==> RowOk(s, id))
    && (forall t :: t in s.calls ==> CallOk(s, t))
    && (forall e :: e in s.events ==> EventOk(s, e))
  }

  ghost predicate Inv(s: State) { Corresponding(s) && Unique(s) }

  /** A reply is final, and a committed call keeps its payment. */
  lemma CallMoves(s: State, a: Action, t: Rpc)
    requires Enabled(s, a) && t in s.calls
    ensures t in Apply(s, a).calls
    ensures var x, x' := s.calls[t], Apply(s, a).calls[t];
      && x'.req == x.req
      && (x.Refused? || x.Dead? || x.Answered? ==> x' == x)
      && (x.Aborting? ==> x'.Aborting? || x'.Refused? || x'.Dead?)
      && (x.Committed? ==> x'.Dead? || ((x'.Committed? || x'.Answered?) && x'.id == x.id))
  {
  }

  lemma RowsStep(s: State, a: Action, id: PaymentId)
    requires Enabled(s, a) && Corresponding(s) && id in Apply(s, a).payments
    ensures RowOk(Apply(s, a), id)
  {
    if id in s.payments {
      assert RowOk(s, id);
      CallMoves(s, a, s.payer[id]);
    }
    if a.Commit? { assert CallOk(s, a.rpc); }
  }

  lemma OwnCallStep(s: State, a: Action)
    requires Enabled(s, a) && Corresponding(s) && !a.Crash?
    ensures CallOk(Apply(s, a), a.rpc)
  {
    if a.rpc in s.calls { assert CallOk(s, a.rpc); }
    if a.Insert? { forall id | id in s.payments ensures id < s.nextId { assert RowOk(s, id); } }
  }

  lemma OtherCallStep(s: State, a: Action, t: Rpc)
    requires Enabled(s, a) && Corresponding(s) && !a.Crash? && t in s.calls && t != a.rpc
    requires a.Commit? && s.calls[t].Inserted? ==> s.calls[t].id != s.calls[a.rpc].id
    ensures CallOk(Apply(s, a), t)
  {
    assert CallOk(s, t);
    if a.Commit? { assert CallOk(s, a.rpc); }
  }

  lemma CrashedCall(s: State, t: Rpc)
    requires t in s.calls && CallOk(s, t)
    ensures CallOk(Apply(s, Crash), t)
  {
  }

  lemma CallsStep(s: State, a: Action, t: Rpc)
    requires Enabled(s, a) && Corresponding(s) && Unique(s) && t in Apply(s, a).calls
    ensures CallOk(Apply(s, a), t)
  {
    if a.Crash? {
      CrashedCall(s, t);
    } else if t == a.rpc {
      OwnCallStep(s, a);
    } else {
      OtherCallStep(s, a, t);
    }
  }

  lemma EventsStep(s: State, a: Action, e: EventId)
    requires Enabled(s, a) && Corresponding(s) && e in Apply(s, a).events
    ensures EventOk(Apply(s, a), e)
  {
    if e in s.events {
      assert EventOk(s, e);
      CallMoves(s, a, s.payer[s.events[e].payment]);
    }
    if a.Publish? || a.Commit? { assert CallOk(s, a.rpc); }
  }

  lemma CorrespondingStep(s: State, a: Action)
    requires Enabled(s, a) && Inv(s)
    ensures Corresponding(Apply(s, a))
  {
    var s' := Apply(s, a);
    forall id | id in s'.payments ensures RowOk(s', id) { RowsStep(s, a, id); }
    forall t | t in s'.calls ensures CallOk(s', t) { CallsStep(s, a, t); }
    forall e | e in s'.events ensures EventOk(s', e) { EventsStep(s, a, e); }
  }

  /** A commit is the first of its call, and a publication the first of its payment. */
  lemma FirstWrites(s: State, a: Action)
    requires Enabled(s, a) && Inv(s)
    ensures a.Commit? ==> forall id :: id in s.payments ==> id in s.payer && s.payer[id] != a.rpc
    ensures a.Publish? ==> !Reported(s, s.calls[a.rpc].id)
  {
    if a.Commit? {
      forall id | id in s.payments ensures id in s.payer && s.payer[id] != a.rpc { assert RowOk(s, id); }
    }
    if a.Publish? {
      assert CallOk(s, a.rpc);
      forall e | e in s.events ensures s.events[e].payment != s.calls[a.rpc].id { assert EventOk(s, e); }
    }
  }

  lemma ReportedStep(s: State, a: Action)
    requires Enabled(s, a) && Inv(s)
    ensures var s' := Apply(s, a);
      forall t :: t in s'.calls && s'.calls[t].Answered? && s'.calls[t].published ==> Reported(s', s'.calls[t].id)
  {
    var s' := Apply(s, a);
    forall t | t in s'.calls && s'.calls[t].Answered? && s'.calls[t].published ensures Reported(s', s'.calls[t].id) {
      if a.Publish? && t == a.rpc {
        assert a.e in s'.events && s'.events[a.e].payment == s'.calls[t].id;
      } else {
        assert t in s.calls && s.calls[t] == s'.calls[t];
        var e :| e in s.events && s.events[e].payment == s.calls[t].id;
        assert e in s'.events && s'.events[e] == s.events[e];
      }
    }
  }

  lemma RowPerCallStep(s: State, a: Action)
    requires Enabled(s, a) && Inv(s)
    ensures OneRowPerCall(Apply(s, a))
  {
    FirstWrites(s, a);
  }

  lemma CallPerIdStep(s: State, a: Action)
    requires Enabled(s, a) && Inv(s)
    ensures OneCallPerId(Apply(s, a).calls)
  {
    forall t | t in s.calls && s.calls[t].Inserted? ensures s.calls[t].id < s.nextId { assert CallOk(s, t); }
  }

  lemma EventPerRowStep(s: State, a: Action)
    requires Enabled(s, a) && Inv(s)
    ensures OneEventPerRow(Apply(s, a).events)
  {
    FirstWrites(s, a);
    if a.Publish? {
      forall e | e in s.events ensures s.events[e].payment != s.calls[a.rpc].id {
        assert !Reported(s, s.calls[a.rpc].id);
      }
    }
  }

  lemma UniqueStep(s: State, a: Action)
    requires Enabled(s, a) && Inv(s)
    ensures Unique(Apply(s, a))
  {
    RowPerCallStep(s, a);
    CallPerIdStep(s, a);
    EventPerRowStep(s, a);
    ReportedStep(s, a);
  }

  lemma {:induction false} InvRun(s: State, acts: seq<Action>, s': State)
    requires Inv(s) && Run(s, acts, s')
    ensures Inv(s')
    decreases |acts|
  {
    if acts != [] {
      CorrespondingStep(s, acts[0]);
      UniqueStep(s, acts[0]);
      InvRun(Apply(s, acts[0]), acts[1..], s');
    }
  }

  lemma InvReachable(s: State)
    requires Reachable(s)
    ensures Inv(s)
  {
    var acts :| Leads(acts, s);
    InvRun(INIT, acts, s);
  }

  /** A call commits at most one payment, whatever happens to it afterwards. */
  lemma OnePaymentPerCall(s: State, i: PaymentId, j: PaymentId)
    requires Reachable(s) && i in s.payments && j in s.payments && i in s.payer && j in s.payer &&
      s.payer[i] == s.payer[j]
    ensures i == j
  {
    InvReachable(s);
  }

  lemma PublishedIsReported(s: State, t: Rpc)
    requires Unique(s) && t in s.calls && s.calls[t].Answered? && s.calls[t].published
    ensures Reported(s, s.calls[t].id)
  {
  }

  /** A payment is reported by at most one event, which carries its data, and by one exactly if the publish of
      its call took effect. An answered call is no evidence of that: its caller sees "completed" either way. */
  lemma OneEventPerPayment(s: State, id: PaymentId)
    requires Reachable(s) && id in s.payments
    ensures forall e, f ::
      e in s.events && f in s.events && s.events[e].payment == id && s.events[f].payment == id ==> e == f
    ensures id in s.payer && s.payer[id] in s.calls
    ensures Reported(s, id) <==> s.calls[s.payer[id]].Answered? && s.calls[s.payer[id]].published
    ensures forall e :: e in s.events && s.events[e].payment == id ==>
      s.events[e].orderId == s.payments[id].orderId && s.events[e].amount == s.payments[id].amount
  {
    InvReachable(s);
    assert RowOk(s, id);
    forall e | e in s.events && s.events[e].payment == id
      ensures s.calls[s.payer[id]].Answered? && s.calls[s.payer[id]].published &&
        s.events[e] == EventOf(s.calls[s.payer[id]].req, id)
    {
      assert EventOk(s, e);
    }
    if s.calls[s.payer[id]].Answered? && s.calls[s.payer[id]].published { PublishedIsReported(s, s.payer[id]); }
    if Reported(s, id) { var e :| e in s.events && s.events[e].payment == id; }
  }

  /** Every event reports a committed payment. */
  lemma EventsFollowCommits(s: State, e: EventId)
    requires Reachable(s) && e in s.events
    ensures s.events[e].payment in s.payments && s.payments[s.events[e].payment].status == COMPLETED
  {
    InvReachable(s);
    assert EventOk(s, e);
    assert RowOk(s, s.events[e].payment);
  }
}
