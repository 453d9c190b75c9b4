/** ServeHTTP of the rate limiter, written as the middleware writes it, over the shared counters. Before each
    of its own commands a request may be interrupted by any steps of the clock and of other requests. */
module Limiter {
  import opened Replies
  import opened Counting
  import opened TtlStore
  import opened RateLimit
  import opened RateBounds
  import RateTheorems

  function Own(acts: seq<Action>, r: Rid): seq<Action> {
    if acts == [] then []
    else Own(acts[..|acts| - 1], r) + (if By(r, acts[|acts| - 1]) then [acts[|acts| - 1]] else [])
  }

  predicate By(r: Rid, a: Action) { !a.Tick? && !a.Crash? && a.r == r }

  /** What ServeHTTP met: only a request that saw count 1 issues EXPIRE, whose error is ignored. */
  datatype ServeLog = RedisDown(applied: bool) | Counted(window: nat, count: int, expired: Option<Reply>)

  function ServeScript(r: Rid, ip: Ip, l: ServeLog): seq<Action> {
    match l
    case RedisDown(applied) => [Arrive(r, ip), Increment(r, Failed(applied))]
    case Counted(_, _, None) => [Arrive(r, ip), Increment(r, Done), Decide(r)]
    case Counted(_, _, Some(reply)) => [Arrive(r, ip), Increment(r, Done), SetExpiry(r, reply), Decide(r)]
  }

  /** Some INCR of the client in that window was preceded there by count - 1 others. */
  ghost predicate Ranked(hits: seq<Hit>, ip: Ip, window: nat, count: int) {
    exists i :: 0 <= i < |hits| && hits[i].ip == ip && hits[i].window == window
                && count == RateTheorems.InWindow(hits[..i], ip, window) + 1
  }

  lemma RankedGrows(hits: seq<Hit>, hits': seq<Hit>, ip: Ip, window: nat, count: int)
    requires Ranked(hits, ip, window, count) && hits <= hits'
    ensures Ranked(hits', ip, window, count)
  {
    var i :| 0 <= i < |hits| && hits[i].ip == ip && hits[i].window == window
             && count == RateTheorems.InWindow(hits[..i], ip, window) + 1;
    assert hits'[i] == hits[i] && hits'[..i] == hits[..i];
  }

  /** The count an INCR returns is its place in its window. */
  lemma NextRank(c: Config, trace: seq<Action>, s: State, ip: Ip)
    requires Run(c, INIT, trace, s) && c.window >= 1
    ensures CountAfter(s, ip) == RateTheorems.InWindow(s.hits, ip, WindowOf(s, ip).ordinal) + 1
  {
    InvRun(c, INIT, trace, s);
    NewHitFollows(c, s, ip, true);
    RateTheorems.CountIsRank(c.window, s.hits + [HitOf(s, ip, true)], |s.hits|);
    assert (s.hits + [HitOf(s, ip, true)])[..|s.hits|] == s.hits;
  }

  datatype Response = Forwarded | TooManyRequests(retryAfter: nat)

  class RateLimiter {
    const cfg: Config
    const self: Rid
    var next: Option<string>          // the wrapped handler
    var served: seq<string>           // handlers invoked by this request
    var st: State
    ghost var trace: seq<Action>

    ghost predicate Valid()
      reads this
    {
      Run(cfg, INIT, trace, st)
    }

    ghost function Mine(): seq<Action>
      reads this
    {
      Own(trace, self)
    }

    constructor (cfg: Config, self: Rid)
      ensures Valid() && st == INIT && Mine() == [] && next == None && served == []
      ensures this.cfg == cfg && this.self == self
    {
      this.cfg, this.self := cfg, self;
      next, served, st, trace := None, [], INIT, [];
    }

    /** The limiter is its own wrapper: wrapping another handler redirects every user of it. */
    method Wrap(handler: string) returns (wrapped: RateLimiter)
      requires Valid()
      modifies this`next
      ensures Valid() && next == Some(handler) && wrapped == this
    {
      next := Some(handler);
      return this;
    }

    method Act(a: Action)
      requires Valid() && Enabled(cfg, st, a)
      modifies this`st, this`trace
      ensures Valid() && st == Apply(cfg, old(st), a) && Mine() == old(Mine()) + (if By(self, a) then [a] else [])
    {
      RunStep(cfg, INIT, trace, st, a);
      st := Apply(cfg, st, a);
      trace := trace + [a];
      assert trace[..|trace| - 1] == old(trace);
    }

    method Interfere()
      requires Valid()
      modifies this`st, this`trace
      ensures Valid() && Mine() == old(Mine())
      ensures self in old(st).requests ==> self in st.requests && st.requests[self] == old(st).requests[self]
      ensures old(st).hits <= st.hits
    {
      var n: nat :| true;
      for i := 0 to n
        invariant Valid() && Mine() == old(Mine())
        invariant self in old(st).requests ==> self in st.requests && st.requests[self] == old(st).requests[self]
        invariant old(st).hits <= st.hits
      {
        var a: Action := *;
        if Enabled(cfg, st, a) && !By(self, a) && !a.Crash? {
          Act(a);
        }
      }
    }

    /** The request arrives and issues INCR: the count is one more than the INCRs its window has received before. */
    method Incr(ip: Ip, reply: Reply) returns (window: nat, count: int)
      requires Valid() && cfg.window >= 1 && self !in st.requests
      modifies this`st, this`trace
      ensures Valid() && Mine() == old(Mine()) + [Arrive(self, ip), Increment(self, reply)] && self in st.requests
      ensures reply.Failed? ==> st.requests[self] == FailedOpen(ip)
      ensures reply.Done? ==>
        && st.requests[self] == (if count == 1 then Expiring(ip, window) else Deciding(ip, window, count))
        && Ranked(st.hits, ip, window, count)
    {
      Act(Arrive(self, ip));
      Interfere();
      window := WindowOf(st, ip).ordinal;
      count := CountAfter(st, ip);
      NextRank(cfg, trace, st, ip);
      ghost var hits := st.hits;
      Act(Increment(self, reply));
      if reply.Done? {
        assert st.hits[|hits|].ip == ip && st.hits[|hits|].window == window && st.hits[..|hits|] == hits;
      }
    }

    /** EXPIRE; its result is not looked at. */
    method ExpireKey(ip: Ip, window: nat, reply: Reply)
      requires Valid() && self in st.requests && st.requests[self] == Expiring(ip, window)
      modifies this`st, this`trace
      ensures Valid() && Mine() == old(Mine()) + [SetExpiry(self, reply)]
      ensures self in st.requests && st.requests[self] == Deciding(ip, window, 1) && old(st).hits <= st.hits
    {
      Interfere();
      Act(SetExpiry(self, reply));
    }

    /** The Redis part of ServeHTTP: INCR, and EXPIRE if the count is 1. */
    method CountRequest(ip: Ip, incremented: Reply, expired: Reply) returns (log: ServeLog)
      requires Valid() && cfg.window >= 1 && self !in st.requests
      modifies this`st, this`trace
      ensures Valid() && self in st.requests
      ensures incremented.Failed? ==>
        && log == RedisDown(incremented.applied) && st.requests[self] == FailedOpen(ip)
        && Mine() == old(Mine()) + ServeScript(self, ip, log)
      ensures incremented.Done? ==>
        && log.Counted? && log.expired == (if log.count == 1 then Some(expired) else None)
        && Mine() + [Decide(self)] == old(Mine()) + ServeScript(self, ip, log)
        && st.requests[self] == Deciding(ip, log.window, log.count) && Ranked(st.hits, ip, log.window, log.count)
    {
      ghost var mine := Mine();
      var window, count := Incr(ip, incremented);
      if incremented.Failed? {
        return RedisDown(incremented.applied);
      }
      if count != 1 {
        log := Counted(window, count, None);
        assert mine + [Arrive(self, ip), Increment(self, Done)] + [Decide(self)] == mine + ServeScript(self, ip, log);
        return;
      }
      ghost var hits := st.hits;
      ExpireKey(ip, window, expired);
      RankedGrows(hits, st.hits, ip, window, count);
      log := Counted(window, count, Some(expired));
      assert mine + [Arrive(self, ip), Increment(self, Done)] + [SetExpiry(self, expired)] + [Decide(self)] ==
        mine + ServeScript(self, ip, log);
    }

    /** A request is counted for the client that a forwarding header names, whatever address it comes from; without
        the header for the host of that address, whatever the port; and for the address as it is only if it has no
        host. `host` is what net.SplitHostPort makes of the address. The request is forwarded if its INCR failed, or
        if fewer than maxRequests INCRs came before it in its window; otherwise it is rejected with the window length
        as Retry-After. */
    method ServeHTTP(remoteAddr: string, host: Option<string>, forwarded: string, incremented: Reply,
        expired: Reply) returns (w: Response, log: ServeLog)
      requires Valid() && cfg.window >= 1 && self !in st.requests && next.Some?
      modifies this`st, this`trace, this`served
      ensures Valid() && self in st.requests
      ensures forwarded != "" ==> st.requests[self].ip == forwarded
      ensures forwarded == "" && host.Some? ==> st.requests[self].ip == host.value
      ensures forwarded == "" && host.None? ==> st.requests[self].ip == remoteAddr
      ensures Mine() == old(Mine()) + ServeScript(self, st.requests[self].ip, log)
      ensures incremented.Failed? ==>
        log == RedisDown(incremented.applied) && w.Forwarded? && st.requests[self].FailedOpen?
      ensures incremented.Done? ==>
        && log.Counted? && log.expired == (if log.count == 1 then Some(expired) else None)
        && Ranked(st.hits, st.requests[self].ip, log.window, log.count)
        && (log.count <= cfg.maxRequests ==>
              w.Forwarded? && st.requests[self] == Admitted(st.requests[self].ip, log.window, log.count))
        && (log.count > cfg.maxRequests ==>
              w == TooManyRequests(cfg.window)
              && st.requests[self] == Rejected(st.requests[self].ip, log.window, log.count))
      ensures served == old(served) + (if w.Forwarded? then [next.value] else [])
    {
      var ip := remoteAddr;
      if host.Some? {
        ip := host.value;
      }
      if forwarded != "" {
        ip := forwarded;
      }
      log := CountRequest(ip, incremented, expired);
      if incremented.Failed? {
        served := served + [next.value];
        return Forwarded, log;
      }
      Act(Decide(self));
      if log.count > cfg.maxRequests {
        return TooManyRequests(cfg.window), log;
      }
      served := served + [next.value];
      return Forwarded, log;
    }
  }
}
