/** The RabbitMQ topology that the payment and notification services declare, in any interleaving and with any
    declaration failing half-way, and where it routes published and rejected events. */
module Topology {
  import opened Replies

  const MAIN_EXCHANGE := "payments"
  const MAIN_QUEUE := "payment.completed"
  const ROUTING_KEY := "payment.completed"
  const DEAD_EXCHANGE := "payments.dlx"
  const DEAD_QUEUE := "payment.dead_letter"

  type EventId = string
  type Client = nat

  /** x-dead-letter-exchange and x-dead-letter-routing-key. */
  datatype Args = NoArgs | DeadLetterTo(exchange: string, key: string)

  datatype Binding = Binding(exchange: string, key: string, queue: string)

  /** All exchanges are direct. */
  datatype Declaration =
    | Exchange(name: string)
    | Queue(name: string, args: Args)
    | Bind(binding: Binding)

  const MAIN_ARGS := DeadLetterTo(DEAD_EXCHANGE, ROUTING_KEY)

  /** What NewPublisher declares, in order. */
  const PUBLISHER: seq<Declaration> := [
    Exchange(DEAD_EXCHANGE),
    Queue(DEAD_QUEUE, NoArgs),
    Bind(Binding(DEAD_EXCHANGE, ROUTING_KEY, DEAD_QUEUE)),
    Exchange(MAIN_EXCHANGE),
    Queue(MAIN_QUEUE, MAIN_ARGS),
    Bind(Binding(MAIN_EXCHANGE, ROUTING_KEY, MAIN_QUEUE))
  ]

  /** What NewNotificationConsumer declares: the queue alone. */
  const CONSUMER: seq<Declaration> := [Queue(MAIN_QUEUE, MAIN_ARGS)]

  datatype Broker = Broker(
    exchanges: set<string>,
    queues: map<string, Args>,
    bindings: set<Binding>,
    ready: map<string, multiset<EventId>>    // the messages of each queue, unacknowledged ones included
  )

  /** The broker closes the channel on a declaration that contradicts an existing queue or names an end that
      does not exist. */
  predicate Accepted(b: Broker, d: Declaration) {
    match d
    case Exchange(_) => true
    case Queue(name, args) => name in b.queues ==> b.queues[name] == args
    case Bind(x) => x.exchange in b.exchanges && x.queue in b.queues
  }

  function Declared(b: Broker, d: Declaration): Broker {
    match d
    case Exchange(name) => b.(exchanges := b.exchanges + {name})
    case Queue(name, args) =>
      if name in b.queues then b else b.(queues := b.queues[name := args], ready := b.ready[name := multiset{}])
    case Bind(x) => b.(bindings := b.bindings + {x})
  }

  predicate InEffect(b: Broker, d: Declaration) {
    match d
    case Exchange(name) => name in b.exchanges
    case Queue(name, args) => name in b.queues && b.queues[name] == args
    case Bind(x) => x in b.bindings
  }

  /** The queues that a direct exchange passes a message to. */
  function Routes(b: Broker, exchange: string, key: string): set<string> {
    set x | x in b.bindings && x.exchange == exchange && x.key == key :: x.queue
  }

  /** Where a message rejected from `queue` without requeueing goes; nowhere means that it is dropped. */
  function DeadLetters(b: Broker, queue: string): set<string> {
    if queue in b.queues && b.queues[queue].DeadLetterTo? && b.queues[queue].exchange in b.exchanges
    then Routes(b, b.queues[queue].exchange, b.queues[queue].key) else {}
  }

  function Deliver(b: Broker, qs: set<string>, e: EventId): Broker {
    b.(ready := map q | q in b.ready :: if q in qs then b.ready[q] + multiset{e} else b.ready[q])
  }

  datatype Session = Session(script: seq<Declaration>, pc: nat)

  datatype State = State(
    broker: Broker,
    sessions: map<Client, Session>,
    published: multiset<EventId>,      // history: publications the broker took
    acked: multiset<EventId>           // history
  )

  datatype Action =
    | Connect(c: Client, publishes: bool)
    | Declare(c: Client, r: Reply)           // the constructor gives up at the first error
    | Publish(c: Client, e: EventId, pub: Publication)
    | Disconnect(c: Client)
    | Ack(e: EventId)                        // by the consumer, of a message of the main queue
    | Reject(e: EventId)                     // likewise, without requeueing

  predicate Declaring(s: State, c: Client) { c in s.sessions && s.sessions[c].pc < |s.sessions[c].script| }

  predicate Constructed(s: State, c: Client) {
    c in s.sessions && s.sessions[c].script == PUBLISHER && s.sessions[c].pc == |PUBLISHER|
  }

  function Next(s: State, c: Client): Declaration
    requires Declaring(s, c)
  {
    s.sessions[c].script[s.sessions[c].pc]
  }

  predicate Holds(s: State, e: EventId) { MAIN_QUEUE in s.broker.ready && e in s.broker.ready[MAIN_QUEUE] }

  predicate Enabled(s: State, a: Action) {
    match a
    case Connect(c, _) => c !in s.sessions
    case Declare(c, r) => Declaring(s, c) && (!Accepted(s.broker, Next(s, c)) ==> r == Failed(false))
    case Publish(c, _, _) => Constructed(s, c)
    case Disconnect(c) => c in s.sessions
    case Ack(e) => Holds(s, e)
    case Reject(e) => Holds(s, e)
  }

  function Taken(b: Broker, e: EventId): Broker
    requires MAIN_QUEUE in b.ready
  {
    b.(ready := b.ready[MAIN_QUEUE := b.ready[MAIN_QUEUE] - multiset{e}])
  }

  function Apply(s: State, a: Action): State
    requires Enabled(s, a)
  {
    match a
    case Connect(c, publishes) => s.(sessions := s.sessions[c := Session(if publishes then PUBLISHER else CONSUMER, 0)])
    case Declare(c, r) =>
      var x := s.sessions[c];
      s.(broker := if Applied(r) then Declared(s.broker, Next(s, c)) else s.broker,
         sessions := if r.Done? then s.sessions[c := x.(pc := x.pc + 1)] else s.sessions - {c})
    case Publish(c, e, r) =>
      if !r.taken then s
      else s.(broker := Deliver(s.broker, Routes(s.broker, MAIN_EXCHANGE, ROUTING_KEY), e),
        published := s.published + multiset{e})
    case Disconnect(c) => s.(sessions := s.sessions - {c})
    case Ack(e) => s.(broker := Taken(s.broker, e), acked := s.acked + multiset{e})
    case Reject(e) => s.(broker := Deliver(Taken(s.broker, e), DeadLetters(s.broker, MAIN_QUEUE), e))
  }

  const INIT := State(Broker({}, map[], {}, map[]), map[], multiset{}, multiset{})

  predicate Run(s: State, acts: seq<Action>, s': State)
    decreases |acts|
  {
    if acts == [] then s == s'
    else if Enabled(s, acts[0]) then Run(Apply(s, acts[0]), acts[1..], s')
    else false
  }

  /** The schedule leads from the start to `s`. The start is named by a variable, so that a proof unfolds the run
      only where it speaks of it. */
  ghost predicate Leads(acts: seq<Action>, s: State) {
    forall start :: start == INIT ==> Run(start, acts, s)
  }

  ghost predicate Reachable(s: State) {
    exists acts :: Leads(acts, s)
  }

  lemma ReachedBy(acts: seq<Action>, s: State)
    requires Run(INIT, acts, s)
    ensures Reachable(s)
  {
    assert Leads(acts, s);
  }

  lemma {:induction false} RunStep(s: State, acts: seq<Action>, mid: State, a: Action)
    requires Run(s, acts, mid) && Enabled(mid, a)
    ensures Run(s, acts + [a], Apply(mid, a))
    decreases |acts|
  {
    var all := acts + [a];
    if acts == [] {
      assert all[0] == a && all[1..] == [];
    } else {
      RunStep(Apply(s, acts[0]), acts[1..], mid, a);
      assert all[0] == acts[0] && all[1..] == acts[1..] + [a];
    }
  }

  // ---- what is declared, and in which order ----

  /** Nothing but the intended topology exists, and each part of it only after the parts before it. */
  ghost predicate Ordered(b: Broker) {
    && (forall n :: n in b.exchanges ==> n == DEAD_EXCHANGE || n == MAIN_EXCHANGE)
    && (forall q :: q in b.queues ==> Queue(q, b.queues[q]) == PUBLISHER[1] || Queue(q, b.queues[q]) == PUBLISHER[4])
    && (forall x :: x in b.bindings ==> Bind(x) == PUBLISHER[2] || Bind(x) == PUBLISHER[5])
    && (InEffect(b, PUBLISHER[5]) ==> forall i :: 0 <= i < 5 ==> InEffect(b, PUBLISHER[i]))
    && b.ready.Keys == b.queues.Keys
  }

  ghost predicate SessionOk(b: Broker, x: Session) {
    && (x.script == PUBLISHER || x.script == CONSUMER)
    && x.pc <= |x.script|
    && forall i :: 0 <= i < x.pc ==> InEffect(b, x.script[i])
  }

  function Of(b: Broker, q: string): multiset<EventId> { if q in b.ready then b.ready[q] else multiset{} }

  ghost predicate Conserved(s: State) {
    s.published == Of(s.broker, MAIN_QUEUE) + Of(s.broker, DEAD_QUEUE) + s.acked
  }

  ghost predicate Inv(s: State) {
    && Ordered(s.broker)
    && (forall c :: c in s.sessions ==> SessionOk(s.broker, s.sessions[c]))
    && (Of(s.broker, MAIN_QUEUE) != multiset{} ==> InEffect(s.broker, PUBLISHER[5]))
    && Conserved(s)
  }

  lemma InEffectKept(b: Broker, d: Declaration, other: Declaration)
    requires Accepted(b, d) && InEffect(b, other)
    ensures InEffect(Declared(b, d), other)
  {
  }

  /** After the first k declarations of a publisher the next one is accepted. */
  lemma PublisherIsAccepted(b: Broker, k: nat)
    requires Ordered(b) && k < 6 && forall i :: 0 <= i < k ==> InEffect(b, PUBLISHER[i])
    ensures Accepted(b, PUBLISHER[k])
  {
    if k == 2 { assert InEffect(b, PUBLISHER[0]) && InEffect(b, PUBLISHER[1]); }
    if k == 5 { assert InEffect(b, PUBLISHER[3]) && InEffect(b, PUBLISHER[4]); }
  }

  lemma PublisherStaysOrdered(b: Broker, k: nat)
    requires Ordered(b) && k < 6 && forall i :: 0 <= i < k ==> InEffect(b, PUBLISHER[i])
    ensures Ordered(Declared(b, PUBLISHER[k]))
  {
    var b' := Declared(b, PUBLISHER[k]);
    PublisherIsAccepted(b, k);
    if InEffect(b', PUBLISHER[5]) {
      forall i | 0 <= i < 5 ensures InEffect(b', PUBLISHER[i]) { InEffectKept(b, PUBLISHER[k], PUBLISHER[i]); }
    }
  }

  lemma NextIsAccepted(b: Broker, x: Session)
    requires Ordered(b) && SessionOk(b, x) && x.pc < |x.script|
    ensures Accepted(b, x.script[x.pc])
    ensures Ordered(Declared(b, x.script[x.pc]))
  {
    if x.script == PUBLISHER {
      forall i | 0 <= i < x.pc ensures InEffect(b, PUBLISHER[i]) { assert InEffect(b, x.script[i]); }
      PublisherIsAccepted(b, x.pc);
      PublisherStaysOrdered(b, x.pc);
    } else {
      var d := PUBLISHER[4];
      assert x.script[x.pc] == d;
      if InEffect(b, PUBLISHER[5]) {
        forall i | 0 <= i < 5 ensures InEffect(Declared(b, d), PUBLISHER[i]) { InEffectKept(b, d, PUBLISHER[i]); }
      }
    }
  }

  lemma NowInEffect(b: Broker, d: Declaration)
    requires Accepted(b, d)
    ensures InEffect(Declared(b, d), d)
  {
  }

  lemma Routing(b: Broker)
    requires Ordered(b) && InEffect(b, PUBLISHER[5])
    ensures Routes(b, MAIN_EXCHANGE, ROUTING_KEY) == {MAIN_QUEUE}
    ensures DeadLetters(b, MAIN_QUEUE) == {DEAD_QUEUE} && DeadLetters(b, DEAD_QUEUE) == {}
  {
    assert InEffect(b, PUBLISHER[0]) && InEffect(b, PUBLISHER[1]) && InEffect(b, PUBLISHER[2]);
    assert InEffect(b, PUBLISHER[4]);
    assert PUBLISHER[2].binding in b.bindings && PUBLISHER[5].binding in b.bindings;
  }

  /** What is in effect for a session stays in effect. */
  lemma SessionKept(b: Broker, d: Declaration, x: Session)
    requires Accepted(b, d) && SessionOk(b, x)
    ensures SessionOk(Declared(b, d), x)
  {
    forall i | 0 <= i < x.pc ensures InEffect(Declared(b, d), x.script[i]) { InEffectKept(b, d, x.script[i]); }
  }

  lemma SessionAdvances(b: Broker, x: Session)
    requires x.pc < |x.script| && Accepted(b, x.script[x.pc]) && SessionOk(b, x)
    ensures SessionOk(Declared(b, x.script[x.pc]), x.(pc := x.pc + 1))
  {
    SessionKept(b, x.script[x.pc], x);
    NowInEffect(b, x.script[x.pc]);
  }

  lemma DeclaredMessages(b: Broker, d: Declaration, q: string)
    requires b.ready.Keys == b.queues.Keys
    ensures Of(Declared(b, d), q) == Of(b, q)
  {
  }

  lemma DeclareStep(s: State, a: Action)
    requires Enabled(s, a) && Inv(s) && a.Declare?
    ensures Inv(Apply(s, a))
  {
    var s', x, d := Apply(s, a), s.sessions[a.c], Next(s, a.c);
    NextIsAccepted(s.broker, x);
    SessionAdvances(s.broker, x);
    forall c | c in s'.sessions ensures SessionOk(s'.broker, s'.sessions[c]) {
      SessionKept(s.broker, d, s.sessions[c]);
    }
    DeclaredMessages(s.broker, d, MAIN_QUEUE);
    DeclaredMessages(s.broker, d, DEAD_QUEUE);
    if InEffect(s.broker, PUBLISHER[5]) { InEffectKept(s.broker, d, PUBLISHER[5]); }
  }

  predicate SameTopology(b: Broker, b': Broker) {
    b' == b.(ready := b'.ready) && b'.ready.Keys == b.ready.Keys
  }

  lemma TopologyAlone(b: Broker, b': Broker, x: Session)
    requires SameTopology(b, b') && Ordered(b)
    ensures Ordered(b')
    ensures SessionOk(b, x) ==> SessionOk(b', x)
  {
    forall d | InEffect(b, d) ensures InEffect(b', d) {}
  }

  lemma Arrives(b: Broker, q: string, e: EventId, other: string)
    requires q in b.ready && other != q
    ensures SameTopology(b, Deliver(b, {q}, e))
    ensures Of(Deliver(b, {q}, e), q) == Of(b, q) + multiset{e}
    ensures Of(Deliver(b, {q}, e), other) == Of(b, other)
  {
    var after := Deliver(b, {q}, e).ready;
    assert after.Keys == b.ready.Keys;
    assert after[q] == b.ready[q] + multiset{e};
    assert other in b.ready ==> after[other] == b.ready[other];
  }

  lemma Leaves(b: Broker, e: EventId, other: string)
    requires MAIN_QUEUE in b.ready && other != MAIN_QUEUE
    ensures SameTopology(b, Taken(b, e))
    ensures Of(Taken(b, e), MAIN_QUEUE) == Of(b, MAIN_QUEUE) - multiset{e}
    ensures Of(Taken(b, e), other) == Of(b, other)
  {
  }

  lemma AddOne(main: multiset<EventId>, dead: multiset<EventId>, acked: multiset<EventId>, e: EventId)
    ensures (main + multiset{e}) + dead + acked == (main + dead + acked) + multiset{e}
  {
  }

  lemma PublishGoesToMain(s: State, a: Action)
    requires Enabled(s, a) && Ordered(s.broker) && InEffect(s.broker, PUBLISHER[5]) && a.Publish? && a.pub.taken
    ensures Apply(s, a).broker == Deliver(s.broker, {MAIN_QUEUE}, a.e) && MAIN_QUEUE in s.broker.ready
  {
    Routing(s.broker);
    assert InEffect(s.broker, PUBLISHER[4]);
  }

  lemma PublishMoves(s: State, a: Action)
    requires Enabled(s, a) && Ordered(s.broker) && InEffect(s.broker, PUBLISHER[5]) && a.Publish?
    ensures SameTopology(s.broker, Apply(s, a).broker) && (Conserved(s) ==> Conserved(Apply(s, a)))
  {
    if a.pub.taken {
      PublishGoesToMain(s, a);
      Arrives(s.broker, MAIN_QUEUE, a.e, DEAD_QUEUE);
      AddOne(Of(s.broker, MAIN_QUEUE), Of(s.broker, DEAD_QUEUE), s.acked, a.e);
    }
  }

  lemma AckMoves(s: State, a: Action)
    requires Enabled(s, a) && a.Ack?
    ensures SameTopology(s.broker, Apply(s, a).broker) && (Conserved(s) ==> Conserved(Apply(s, a)))
  {
    Leaves(s.broker, a.e, DEAD_QUEUE);
  }

  lemma MoveOne(main: multiset<EventId>, dead: multiset<EventId>, e: EventId)
    requires e in main
    ensures (main - multiset{e}) + (dead + multiset{e}) == main + dead
  {
  }

  /** Taken out of the main queue and delivered to the dead-letter queue. */
  lemma TakenAndDelivered(b: Broker, e: EventId)
    requires MAIN_QUEUE in b.ready && DEAD_QUEUE in b.ready && e in b.ready[MAIN_QUEUE]
    ensures SameTopology(b, Deliver(Taken(b, e), {DEAD_QUEUE}, e))
    ensures var b' := Deliver(Taken(b, e), {DEAD_QUEUE}, e);
      Of(b', MAIN_QUEUE) + Of(b', DEAD_QUEUE) == Of(b, MAIN_QUEUE) + Of(b, DEAD_QUEUE)
  {
    Leaves(b, e, DEAD_QUEUE);
    Arrives(Taken(b, e), DEAD_QUEUE, e, MAIN_QUEUE);
    MoveOne(Of(b, MAIN_QUEUE), Of(b, DEAD_QUEUE), e);
  }

  lemma RejectGoesToDead(s: State, a: Action)
    requires Enabled(s, a) && Ordered(s.broker) && InEffect(s.broker, PUBLISHER[5]) && a.Reject?
    ensures Apply(s, a).broker == Deliver(Taken(s.broker, a.e), {DEAD_QUEUE}, a.e) && DEAD_QUEUE in s.broker.ready
  {
    Routing(s.broker);
    assert InEffect(s.broker, PUBLISHER[1]);
  }

  lemma RejectMoves(s: State, a: Action)
    requires Enabled(s, a) && Ordered(s.broker) && InEffect(s.broker, PUBLISHER[5]) && a.Reject?
    ensures SameTopology(s.broker, Apply(s, a).broker) && (Conserved(s) ==> Conserved(Apply(s, a)))
  {
    RejectGoesToDead(s, a);
    TakenAndDelivered(s.broker, a.e);
  }

  lemma MessagesStep(s: State, a: Action)
    requires Enabled(s, a) && Inv(s) && (a.Publish? || a.Ack? || a.Reject?)
    ensures Inv(Apply(s, a))
  {
    var s' := Apply(s, a);
    if a.Publish? { assert SessionOk(s.broker, s.sessions[a.c]) && InEffect(s.broker, s.sessions[a.c].script[5]); }
    if a.Publish? {
      PublishMoves(s, a);
    } else if a.Ack? {
      AckMoves(s, a);
    } else {
      RejectMoves(s, a);
    }
    TopologyAlone(s.broker, s'.broker, Session(CONSUMER, 0));
    assert InEffect(s'.broker, PUBLISHER[5]);
    forall c | c in s'.sessions ensures SessionOk(s'.broker, s'.sessions[c]) {
      TopologyAlone(s.broker, s'.broker, s.sessions[c]);
    }
  }

  lemma InvStep(s: State, a: Action)
    requires Enabled(s, a) && Inv(s)
    ensures Inv(Apply(s, a))
  {
    if a.Declare? {
      DeclareStep(s, a);
    } else if a.Publish? || a.Ack? || a.Reject? {
      MessagesStep(s, a);
    }
  }

  lemma {:induction false} InvRun(s: State, acts: seq<Action>, s': State)
    requires Inv(s) && Run(s, acts, s')
    ensures Inv(s')
    decreases |acts|
  {
    if acts != [] {
      InvStep(s, acts[0]);
      InvRun(Apply(s, acts[0]), acts[1..], s');
    }
  }

  lemma InvReachable(s: State)
    requires Reachable(s)
    ensures Inv(s)
  {
    var acts :| Leads(acts, s);
    InvRun(INIT, acts, s);
  }

  /** Whichever service starts first and wherever others stopped, the broker refuses no declaration. */
  lemma NoDeclarationRefused(s: State, c: Client)
    requires Reachable(s) && Declaring(s, c)
    ensures Accepted(s.broker, Next(s, c))
  {
    InvReachable(s);
    NextIsAccepted(s.broker, s.sessions[c]);
  }

  /** Every event that the broker took is in the main queue, in the dead-letter queue or acknowledged, and only
      once: none was unroutable and no rejected one was dropped or came back. */
  lemma NoEventDropped(s: State)
    requires Reachable(s)
    ensures s.published == Of(s.broker, MAIN_QUEUE) + Of(s.broker, DEAD_QUEUE) + s.acked
    ensures forall q :: q in s.broker.ready ==> q == MAIN_QUEUE || q == DEAD_QUEUE
  {
    InvReachable(s);
  }

  /** A constructed publisher reaches the main queue alone; from there a rejected event reaches the dead-letter
      queue alone, and from there nothing. */
  lemma ConstructedRoutes(s: State, c: Client)
    requires Reachable(s) && Constructed(s, c)
    ensures Routes(s.broker, "payments", "payment.completed") == {"payment.completed"}
    ensures DeadLetters(s.broker, "payment.completed") == {"payment.dead_letter"}
    ensures DeadLetters(s.broker, "payment.dead_letter") == {}
  {
    InvReachable(s);
    assert SessionOk(s.broker, s.sessions[c]) && InEffect(s.broker, s.sessions[c].script[5]);
    Routing(s.broker);
  }
}
