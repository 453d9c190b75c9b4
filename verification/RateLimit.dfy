/** The fixed-window rate limiter as a labelled transition system: concurrent requests issue INCR, then, if
    they saw the count 1, EXPIRE as a separate command, and then decide. */
module RateLimit {
  import opened Replies
  import opened TtlStore

  type Ip = string
  type Rid = nat              // identifies one HTTP request

  datatype Config = Config(maxRequests: int, window: nat)

  /** The history of one INCR that took effect: the window it fell into (the ordinal of that window for this
      client, and when it began), the count it produced, and whether the request learned of it. */
  datatype Hit = Hit(ip: Ip, at: nat, window: nat, start: nat, count: int, seen: bool)

  datatype Window = Window(ordinal: nat, start: nat)

  datatype Request =
    | Arrived(ip: Ip)
    | Expiring(ip: Ip, window: nat)              // saw count 1; EXPIRE not yet issued
    | Deciding(ip: Ip, window: nat, count: int)
    | Admitted(ip: Ip, window: nat, count: int)
    | Rejected(ip: Ip, window: nat, count: int)
    | FailedOpen(ip: Ip)

  datatype State = State(
    now: nat,
    counters: Store<Ip, int>,          // rate:<ip>
    requests: map<Rid, Request>,
    last: map<Ip, Window>,             // history: the latest window of each client
    hits: seq<Hit>,                    // history
    unset: set<(Ip, nat)>              // history: windows whose EXPIRE never took effect and never will
  )

  datatype Action =
    | Tick(d: nat)
    | Crash
    | Arrive(r: Rid, ip: Ip)
    | Increment(r: Rid, reply: Reply)
    | SetExpiry(r: Rid, reply: Reply)
    | Decide(r: Rid)

  predicate Enabled(c: Config, s: State, a: Action) {
    match a
    case Tick(_) => true
    case Crash => true
    case Arrive(r, _) => r !in s.requests
    case Increment(r, _) => r in s.requests && s.requests[r].Arrived?
    case SetExpiry(r, _) => r in s.requests && s.requests[r].Expiring?
    case Decide(r) => r in s.requests && s.requests[r].Deciding?
  }

  /** The window an INCR of `ip` falls into: the current one, or a new one if the key is absent. */
  function WindowOf(s: State, ip: Ip): Window {
    if ip in s.counters && ip in s.last then s.last[ip]
    else Window(if ip in s.last then s.last[ip].ordinal + 1 else 0, s.now)
  }

  function CountAfter(s: State, ip: Ip): int { Incr(s.counters, ip)[ip].value }

  /** What a request does after its INCR returned. */
  function AfterIncrement(s: State, ip: Ip, reply: Reply): Request {
    if reply.Failed? then FailedOpen(ip)
    else if CountAfter(s, ip) == 1 then Expiring(ip, WindowOf(s, ip).ordinal)
    else Deciding(ip, WindowOf(s, ip).ordinal, CountAfter(s, ip))
  }

  function RequestNext(c: Config, s: State, a: Action): Request
    requires Enabled(c, s, a) && !a.Tick? && !a.Crash?
  {
    match a
    case Arrive(_, ip) => Arrived(ip)
    case Increment(r, reply) => AfterIncrement(s, s.requests[r].ip, reply)
    case SetExpiry(r, _) => Deciding(s.requests[r].ip, s.requests[r].window, 1)
    case Decide(r) =>
      var x := s.requests[r];
      if x.count > c.maxRequests then Rejected(x.ip, x.window, x.count) else Admitted(x.ip, x.window, x.count)
  }

  function RequestsNext(c: Config, s: State, a: Action): map<Rid, Request>
    requires Enabled(c, s, a)
  {
    if a.Crash? then map[] else if a.Tick? then s.requests else s.requests[a.r := RequestNext(c, s, a)]
  }

  function CountersNext(c: Config, s: State, a: Action): Store<Ip, int>
    requires Enabled(c, s, a)
  {
    match a
    case Tick(d) => Purge(s.counters, s.now + d)
    case Increment(r, reply) => if Applied(reply) then Incr(s.counters, s.requests[r].ip) else s.counters
    case SetExpiry(r, reply) =>
      if Applied(reply) then Expire(s.counters, s.requests[r].ip, s.now, c.window) else s.counters
    case _ => s.counters
  }

  function HitOf(s: State, ip: Ip, seen: bool): Hit {
    Hit(ip, s.now, WindowOf(s, ip).ordinal, WindowOf(s, ip).start, CountAfter(s, ip), seen)
  }

  function UnsetNext(c: Config, s: State, a: Action): set<(Ip, nat)>
    requires Enabled(c, s, a)
  {
    match a
    case Crash => s.unset + set r | r in s.requests && s.requests[r].Expiring? ::
      (s.requests[r].ip, s.requests[r].window)
    case Increment(r, reply) =>
      if reply.Failed? && reply.applied && CountAfter(s, s.requests[r].ip) == 1
      then s.unset + {(s.requests[r].ip, WindowOf(s, s.requests[r].ip).ordinal)} else s.unset
    case SetExpiry(r, reply) => if Applied(reply) then s.unset else s.unset + {(s.requests[r].ip, s.requests[r].window)}
    case _ => s.unset
  }

  function Apply(c: Config, s: State, a: Action): State
    requires Enabled(c, s, a)
  {
    var hit := a.Increment? && Applied(a.reply);
    State(if a.Tick? then s.now + a.d else s.now,
          CountersNext(c, s, a), RequestsNext(c, s, a),
          if hit then s.last[s.requests[a.r].ip := WindowOf(s, s.requests[a.r].ip)] else s.last,
          if hit then s.hits + [HitOf(s, s.requests[a.r].ip, a.reply.Done?)] else s.hits,
          UnsetNext(c, s, a))
  }

  const INIT := State(0, map[], map[], map[], [], {})

  predicate Run(c: Config, s: State, acts: seq<Action>, s': State)
    decreases |acts|
  {
    if acts == [] then s == s'
    else if Enabled(c, s, acts[0]) then Run(c, Apply(c, s, acts[0]), acts[1..], s')
    else false
  }

  /** The schedule leads from the start to `s`. The start is named by a variable, so that a proof unfolds the run
      only where it speaks of it. */
  ghost predicate Leads(c: Config, acts: seq<Action>, s: State) {
    forall start :: start == INIT ==> Run(c, start, acts, s)
  }

  ghost predicate Reachable(c: Config, s: State) {
    exists acts :: Leads(c, acts, s)
  }

  lemma ReachedBy(c: Config, acts: seq<Action>, s: State)
    requires Run(c, INIT, acts, s)
    ensures Reachable(c, s)
  {
    assert Leads(c, acts, s);
  }

  lemma {:induction false} RunStep(c: Config, s: State, acts: seq<Action>, mid: State, a: Action)
    requires Run(c, s, acts, mid) && Enabled(c, mid, a)
    ensures Run(c, s, acts + [a], Apply(c, mid, a))
    decreases |acts|
  {
    var all := acts + [a];
    if acts == [] {
      assert all[0] == a && all[1..] == [];
    } else {
      RunStep(c, Apply(c, s, acts[0]), acts[1..], mid, a);
      assert all[0] == acts[0] && all[1..] == acts[1..] + [a];
    }
  }

  lemma StepReachable(c: Config, s: State, a: Action)
    requires Reachable(c, s) && Enabled(c, s, a)
    ensures Reachable(c, Apply(c, s, a))
  {
    var acts :| Leads(c, acts, s);
    RunStep(c, INIT, acts, s, a);
    ReachedBy(c, acts + [a], Apply(c, s, a));
  }

}
