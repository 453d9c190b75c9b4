/** The notification of each published event, over runs of all services together. */
module Delivery {
  import opened Services
  import EndToEnd
  import CA = CacheAside
  import Pay = Payments
  import NP = NotificationPool
  import PoolDrain
  import PoolExactlyOnce

  /** The steps of a run that the broker and the worker pool take. */
  function PoolRun(acts: seq<Action>): seq<NP.Action> {
    if acts == [] then [] else PoolActs(acts[0]) + PoolRun(acts[1..])
  }

  /** A run of the whole is a run of the pool. */
  lemma {:induction false} Projects(c: Config, s: State, acts: seq<Action>, s': State)
    requires Run(c, s, acts, s')
    ensures NP.Run(c.pool, s.pool, PoolRun(acts), s'.pool)
    decreases |acts|
  {
    if acts != [] {
      var t := Apply(c, s, acts[0]);
      Projects(c, t, acts[1..], s');
      if PoolActs(acts[0]) == [] {
        assert PoolRun(acts) == PoolRun(acts[1..]);
      } else {
        assert PoolRun(acts)[0] == PoolActs(acts[0])[0] && PoolRun(acts)[1..] == PoolRun(acts[1..]);
      }
    }
  }

  lemma TheCopy(s: State, e: NP.EventId) returns (m: NP.Tag)
    requires EndToEnd.Messages(s.pay, s.pool) && e in s.pay.events
    ensures m in s.pool.broker.body && PoolExactlyOnce.OnlyCopy(s.pool.broker.body, e, m)
  {
    assert EndToEnd.HasCopy(s.pool, e);
    m :| m in s.pool.broker.body && s.pool.broker.body[m] == NP.Event(e);
  }

  /** The event's copy `m` is settled for good: notified once, or not at all and dead-lettered. */
  predicate SettledOnce(n: NP.State, e: NP.EventId, m: NP.Tag) {
    && m in n.broker.body && n.broker.body[m] == NP.Event(e)
    && ((m in n.broker.acked && m !in n.broker.dlq && n.hist.sent[e] == 1)
        || (m in n.broker.dlq && m !in n.broker.acked && n.hist.sent[e] == 0))
  }

  /** Exactly once, end to end: if the notification process lives and none of its settlements fails, no event is
      notified twice; and when the serving pool has no work left, every event that the payment service got to the
      broker has been notified exactly once, or never and lies in the dead-letter queue. The other services may
      crash, and every other command may fail. */
  lemma EveryEventSettledOnce(c: Config, acts: seq<Action>, s: State)
    requires Run(c, Init(c), acts, s) && PoolExactlyOnce.AllSettle(PoolRun(acts))
    ensures forall e :: e in s.pay.events ==> s.pool.hist.sent[e] <= 1
    ensures PoolDrain.Serving(s.pool) && PoolDrain.Quiescent(c.pool, s.pool) ==>
      forall e :: e in s.pay.events ==> exists m :: SettledOnce(s.pool, e, m)
  {
    Projects(c, Init(c), acts, s);
    ReachedBy(c, acts, s);
    EndToEnd.InvReachable(c, s);
    forall e | e in s.pay.events
      ensures s.pool.hist.sent[e] <= 1
      ensures PoolDrain.Serving(s.pool) && PoolDrain.Quiescent(c.pool, s.pool) ==> exists m :: SettledOnce(s.pool, e, m)
    {
      var m := TheCopy(s, e);
      PoolExactlyOnce.ExactlyOnce(c.pool, PoolRun(acts), s.pool, e, m);
      if PoolDrain.Serving(s.pool) && PoolDrain.Quiescent(c.pool, s.pool) { assert SettledOnce(s.pool, e, m); }
    }
  }
}
