/** All protocols at once over the one Redis database: the services together, and the rate limiter in front. */
module OneDatabase {
  import opened TtlStore
  import SR = SharedRedis
  import SharedSteps
  import Sys = Services
  import RL = RateLimit

  datatype Config = Config(sys: Sys.Config, rate: RL.Config)

  datatype State = State(sys: Sys.State, rate: RL.State)

  datatype Action = SysStep(a: Sys.Action) | RateStep(q: RL.Action)

  /** Time passes for the limiter when it passes for the others. */
  function RateActs(a: Action): seq<RL.Action> {
    match a
    case SysStep(b) => if b.Pass? then [RL.Tick(b.d)] else []
    case RateStep(q) => [q]
  }

  predicate Enabled(c: Config, s: State, a: Action) {
    match a
    case SysStep(b) => Sys.Enabled(c.sys, s.sys, b)
    case RateStep(q) => !q.Tick? && RL.Enabled(c.rate, s.rate, q)
  }

  function Apply(c: Config, s: State, a: Action): State
    requires Enabled(c, s, a)
  {
    State(if a.SysStep? then Sys.Apply(c.sys, s.sys, a.a) else s.sys,
          if RateActs(a) == [] then s.rate else RL.Apply(c.rate, s.rate, RateActs(a)[0]))
  }

  function Init(c: Config): State { State(Sys.Init(c.sys), RL.INIT) }

  predicate Run(c: Config, s: State, acts: seq<Action>, s': State)
    decreases |acts|
  {
    if acts == [] then s == s'
    else if Enabled(c, s, acts[0]) then Run(c, Apply(c, s, acts[0]), acts[1..], s')
    else false
  }

  /** The Redis commands of an action of the whole. */
  function Commands(c: Config, s: State, a: Action): seq<SR.Op>
    requires Enabled(c, s, a)
  {
    match a
    case SysStep(Pass(d)) => [SR.Pass(d)]
    case SysStep(OrderStep(b)) => SharedSteps.CacheCommands(c.sys.cache, s.sys.order, b)
    case SysStep(PoolStep(n)) => SharedSteps.PoolCommands(c.sys.pool, s.sys.pool, n)
    case RateStep(q) => SharedSteps.RateCommands(c.rate, s.rate, q)
    case _ => []
  }

  /** The database after a run, with all the commands of all services in the order in which they were issued. */
  function Database(c: Config, s: State, acts: seq<Action>, f: SR.Flat): SR.Flat
    decreases |acts|
  {
    if acts == [] || !Enabled(c, s, acts[0]) then f
    else Database(c, Apply(c, s, acts[0]), acts[1..], SR.FlatRun(f, Commands(c, s, acts[0])).0)
  }

  function View(s: State): SR.Stores {
    SR.Stores(s.sys.order.now, s.sys.order.cache, s.rate.counters, s.sys.pool.keys)
  }

  /** The database holds the three stores, and all clocks agree. */
  ghost predicate HoldsAll(s: State, f: SR.Flat) {
    SR.Holds(f, View(s)) && s.rate.now == s.sys.order.now && s.sys.pool.now == s.sys.order.now
  }

  lemma PassView(c: Config, s: State, a: Action, now: nat)
    requires Enabled(c, s, a) && a.SysStep? && a.a.Pass? && now == s.sys.order.now + a.a.d
    requires s.rate.now == s.sys.order.now && s.sys.pool.now == s.sys.order.now
    ensures var s', v := Apply(c, s, a), View(s);
      && View(s') == SR.Stores(now, Purge(v.cache, now), Purge(v.counters, now), Purge(v.marks, now))
      && s'.rate.now == now && s'.sys.pool.now == now
  {
  }

  lemma PassHolds(v: SR.Stores, f: SR.Flat, d: nat, now: nat)
    requires SR.Holds(f, v) && now == v.now + d
    ensures SR.Holds(SR.FlatRun(f, [SR.Pass(d)]).0,
                     SR.Stores(now, Purge(v.cache, now), Purge(v.counters, now), Purge(v.marks, now)))
  {
    SharedSteps.PassOnShared(f, v, d);
  }

  lemma PassKeeps(c: Config, s: State, a: Action, f: SR.Flat)
    requires Enabled(c, s, a) && HoldsAll(s, f) && a.SysStep? && a.a.Pass?
    ensures HoldsAll(Apply(c, s, a), SR.FlatRun(f, Commands(c, s, a)).0)
  {
    var now := s.sys.order.now + a.a.d;
    PassView(c, s, a, now);
    PassHolds(View(s), f, a.a.d, now);
  }

  lemma SysStepKeeps(c: Config, s: State, a: Action, f: SR.Flat)
    requires Enabled(c, s, a) && HoldsAll(s, f) && a.SysStep? && !a.a.Pass?
    ensures HoldsAll(Apply(c, s, a), SR.FlatRun(f, Commands(c, s, a)).0)
  {
    match a.a
    case OrderStep(b) => SharedSteps.CacheStepOnShared(c.sys.cache, s.sys.order, b, f, View(s));
    case PoolStep(n) => SharedSteps.PoolStepOnShared(c.sys.pool, s.sys.pool, n, f, View(s));
    case _ =>
  }

  lemma RateStepKeeps(c: Config, s: State, a: Action, f: SR.Flat)
    requires Enabled(c, s, a) && HoldsAll(s, f) && a.RateStep?
    ensures HoldsAll(Apply(c, s, a), SR.FlatRun(f, Commands(c, s, a)).0)
  {
    SharedSteps.RateStepOnShared(c.rate, s.rate, a.q, f, View(s));
  }

  lemma {:induction false} RunKeeps(c: Config, s: State, acts: seq<Action>, s': State, f: SR.Flat)
    requires Run(c, s, acts, s') && HoldsAll(s, f)
    ensures HoldsAll(s', Database(c, s, acts, f))
    decreases |acts|
  {
    if acts != [] {
      var a := acts[0];
      if a.RateStep? {
        RateStepKeeps(c, s, a, f);
      } else if a.a.Pass? {
        PassKeeps(c, s, a, f);
      } else {
        SysStepKeeps(c, s, a, f);
      }
      RunKeeps(c, Apply(c, s, a), acts[1..], s', SR.FlatRun(f, Commands(c, s, a)).0);
    }
  }

  /** Over every run of everything the one database, which starts empty, holds exactly the three stores that the
      protocols are proved with. */
  lemma OneDatabaseHoldsAll(c: Config, acts: seq<Action>, s: State)
    requires Run(c, Init(c), acts, s)
    ensures var f := Database(c, Init(c), acts, SR.Flat(0, map[]));
      && SR.Holds(f, SR.Stores(f.now, s.sys.order.cache, s.rate.counters, s.sys.pool.keys))
      && s.sys.order.now == f.now && s.rate.now == f.now && s.sys.pool.now == f.now
  {
    RunKeeps(c, Init(c), acts, s, SR.Flat(0, map[]));
  }

  /** The services' part of a schedule. */
  function SysPart(acts: seq<Action>): seq<Sys.Action> {
    if acts == [] then []
    else if acts[0].SysStep? then [acts[0].a] + SysPart(acts[1..]) else SysPart(acts[1..])
  }

  function RatePart(acts: seq<Action>): seq<RL.Action> {
    if acts == [] then [] else RateActs(acts[0]) + RatePart(acts[1..])
  }

  /** Sharing the database and the clock changes no behaviour: the services' part of a run is a run of the
      services, and the limiter's part is a run of the limiter. */
  lemma {:induction false} BothPartsRun(c: Config, s: State, acts: seq<Action>, s': State)
    requires Run(c, s, acts, s')
    ensures Sys.Run(c.sys, s.sys, SysPart(acts), s'.sys) && RL.Run(c.rate, s.rate, RatePart(acts), s'.rate)
    decreases |acts|
  {
    if acts != [] {
      var a := acts[0];
      BothPartsRun(c, Apply(c, s, a), acts[1..], s');
      if a.SysStep? { assert SysPart(acts)[0] == a.a && SysPart(acts)[1..] == SysPart(acts[1..]); }
      if RateActs(a) != [] {
        assert RatePart(acts)[0] == RateActs(a)[0] && RatePart(acts)[1..] == RatePart(acts[1..]);
      } else {
        assert RatePart(acts) == RatePart(acts[1..]);
      }
    }
  }
}
