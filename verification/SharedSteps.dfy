/** The protocols touch Redis only through single commands, so all of them can run over the one database: each
    step does to the database what the protocol does to its own store, and reads there what it would read. */
module SharedSteps {
  import opened Replies
  import opened TtlStore
  import opened SharedRedis
  import CacheAside
  import NotificationPool
  import RateLimit

  /** The commands by which a step of the cache-aside protocol touches Redis. */
  function CacheCommands(c: CacheAside.Config, s: CacheAside.State, a: CacheAside.Action): seq<Op>
    requires CacheAside.Enabled(c, s, a)
  {
    match a
    case Tick(d) => [Pass(d)]
    case Invalidate(t, r) => if c.caching && Applied(r) then [CacheDel(s.creators[t].id)] else []
    case Populate(t, r) => if Applied(r) then [CacheSet(s.populates[t], c.ttl)] else []
    case _ => []
  }

  function PoolCommands(c: NotificationPool.Config, s: NotificationPool.State, a: NotificationPool.Action): seq<Op>
    requires NotificationPool.Enabled(c, s, a)
  {
    match a
    case Tick(d) => [Pass(d)]
    case Mark(w, reply) => if reply.MarkOk? || reply.applied then [MarkSetNX(s.proc.workers[w].e, c.ttl)] else []
    case _ => []
  }

  function RateCommands(c: RateLimit.Config, s: RateLimit.State, a: RateLimit.Action): seq<Op>
    requires RateLimit.Enabled(c, s, a)
  {
    match a
    case Tick(d) => [Pass(d)]
    case Increment(r, reply) => if Applied(reply) then [RateIncr(s.requests[r].ip)] else []
    case SetExpiry(r, reply) => if Applied(reply) then [RateExpire(s.requests[r].ip, c.window)] else []
    case _ => []
  }

  /** The database `f` after the commands, when before them it held `v`. */
  lemma Commands(f: Flat, v: Stores, ops: seq<Op>)
    requires Holds(f, v) && |ops| <= 1
    ensures Holds(FlatRun(f, ops).0, if ops == [] then v else SplitApply(v, ops[0]).0)
    ensures ops != [] ==> FlatRun(f, ops).0.now == (if ops[0].Pass? then f.now + ops[0].d else f.now)
  {
    SharedRefinesSeparate(f, v, ops);
    if ops != [] { assert ops[1..] == []; }
  }

  lemma CacheStepOnShared(c: CacheAside.Config, s: CacheAside.State, a: CacheAside.Action, f: Flat, v: Stores)
    requires CacheAside.Enabled(c, s, a) && Holds(f, v) && v.cache == s.cache && v.now == s.now && !a.Tick?
    ensures Holds(FlatRun(f, CacheCommands(c, s, a)).0, v.(cache := CacheAside.CacheNext(c, s, a)))
    ensures a.Lookup? && c.caching && !a.failed ==>
      CacheAside.Apply(c, s, a).readers[a.t]
        == match FlatApply(f, CacheGet(s.readers[a.t].id)).1
           case Hit(order) => CacheAside.Got(s.readers[a.t].id, order)
           case _ => CacheAside.Querying(s.readers[a.t].id)
  {
    Commands(f, v, CacheCommands(c, s, a));
    if a.Lookup? { CacheOpRefines(f, v, CacheGet(s.readers[a.t].id)); }
  }

  lemma PoolStepOnShared(c: NotificationPool.Config, s: NotificationPool.State, a: NotificationPool.Action, f: Flat,
      v: Stores)
    requires NotificationPool.Enabled(c, s, a) && Holds(f, v) && v.marks == s.keys && v.now == s.now && !a.Tick?
    ensures Holds(FlatRun(f, PoolCommands(c, s, a)).0, v.(marks := NotificationPool.KeysNext(c, s, a)))
  {
    var ops := PoolCommands(c, s, a);
    assert NotificationPool.KeysNext(c, s, a) == if ops == [] then v.marks else SplitApply(v, ops[0]).0.marks;
    Commands(f, v, ops);
  }

  lemma CheckOnShared(c: NotificationPool.Config, s: NotificationPool.State, a: NotificationPool.Action, f: Flat,
      v: Stores)
    requires NotificationPool.Enabled(c, s, a) && Holds(f, v) && v.marks == s.keys && a.Check? && !a.failed
    ensures FlatApply(f, MarkExists(s.proc.workers[a.w].e)).1 == Flag(true) <==>
        NotificationPool.WorkerNext(c, s, a) == NotificationPool.Settling(s.proc.workers[a.w].m, NotificationPool.Ack)
  {
    MarkOpRefines(f, v, MarkExists(s.proc.workers[a.w].e));
  }

  lemma RateStepOnShared(c: RateLimit.Config, s: RateLimit.State, a: RateLimit.Action, f: Flat, v: Stores)
    requires RateLimit.Enabled(c, s, a) && Holds(f, v) && v.counters == s.counters && v.now == s.now && !a.Tick?
    ensures Holds(FlatRun(f, RateCommands(c, s, a)).0, v.(counters := RateLimit.CountersNext(c, s, a)))
    ensures a.Increment? ==>
      FlatApply(f, RateIncr(s.requests[a.r].ip)).1 == Count(RateLimit.CountAfter(s, s.requests[a.r].ip))
  {
    Commands(f, v, RateCommands(c, s, a));
    if a.Increment? { RateOpRefines(f, v, RateIncr(s.requests[a.r].ip)); }
  }

  /** Time passes for all of them at once. */
  lemma PassOnShared(f: Flat, v: Stores, d: nat)
    requires Holds(f, v)
    ensures var now := v.now + d;
      Holds(FlatRun(f, [Pass(d)]).0, Stores(now, Purge(v.cache, now), Purge(v.counters, now), Purge(v.marks, now)))
  {
    OneCommand(f, Pass(d));
    PassRefines(f, v, d);
  }

  lemma OneCommand(f: Flat, op: Op)
    ensures FlatRun(f, [op]).0 == FlatApply(f, op).0
  {
    assert [op][1..] == [];
  }
}
