/** What the rate limiter admits: per window, per arbitrary time interval, and per client. */
module RateBounds {
  import opened Replies
  import opened Counting
  import opened TtlStore
  import opened RateLimit

  // ---- histories of hits ----

  /** The index of the last hit of `ip` among the first n, if any. */
  function Latest(hits: seq<Hit>, ip: Ip): (r: Option<nat>)
    ensures r.Some? ==> r.value < |hits| && hits[r.value].ip == ip
    ensures r.None? ==> forall i :: 0 <= i < |hits| ==> hits[i].ip != ip
  {
    if hits == [] then None
    else if hits[|hits| - 1].ip == ip then Some(|hits| - 1)
    else Latest(hits[..|hits| - 1], ip)
  }

  /** A hit either continues the window of the client's previous hit, with the next count, or begins the next
      window with count 1, at least `w` after the previous window began and later than its last hit. */
  predicate Follows(w: nat, prev: Hit, h: Hit) {
    && prev.at <= h.at
    && ((h.window == prev.window && h.start == prev.start && h.count == prev.count + 1)
        || (h.window == prev.window + 1 && h.start == h.at && h.count == 1 && prev.start + w <= h.start &&
          prev.at < h.at))
  }

  predicate First(h: Hit) { h.window == 0 && h.start == h.at && h.count == 1 }

  predicate Chained(w: nat, hits: seq<Hit>) {
    hits == [] ||
    (var h, before := hits[|hits| - 1], hits[..|hits| - 1];
     && Chained(w, before)
     && h.count >= 1 && h.start <= h.at
     && (match Latest(before, h.ip) case None => First(h) case Some(i) => Follows(w, before[i], h))
     && (forall i :: 0 <= i < |before| ==> before[i].at <= h.at))
  }

  lemma LatestAppend(hits: seq<Hit>, h: Hit, ip: Ip)
    ensures Latest(hits + [h], ip) == if h.ip == ip then Some(|hits|) else Latest(hits, ip)
  {
    assert (hits + [h])[..|hits|] == hits;
  }

  // ---- counters and history ----

  /** The live counter of `ip` continues the client's latest hit and expires no earlier than the window length
      after its window began; without a live counter that time has passed. */
  ghost predicate CounterOk(c: Config, s: State, ip: Ip) {
    match Latest(s.hits, ip)
    case None => ip !in s.counters && ip !in s.last
    case Some(i) =>
      && ip in s.last && s.last[ip] == Window(s.hits[i].window, s.hits[i].start)
      && s.hits[i].start <= s.now && s.hits[i].count >= 1
      && (if ip in s.counters
          then s.counters[ip].value == s.hits[i].count && s.hits[i].at <= s.now && LiveAt(s.counters[ip], s.now)
               && (s.counters[ip].expiry.Some? ==> s.hits[i].start + c.window <= s.counters[ip].expiry.value)
          else s.hits[i].start + c.window <= s.now && s.hits[i].at < s.now)
  }

  ghost predicate History(c: Config, s: State) {
    && Chained(c.window, s.hits)
    && (forall i :: 0 <= i < |s.hits| ==> s.hits[i].at <= s.now)
    && (forall ip :: CounterOk(c, s, ip))
  }

  lemma NewHitFollows(c: Config, s: State, ip: Ip, seen: bool)
    requires History(c, s)
    ensures var h := HitOf(s, ip, seen); Chained(c.window, s.hits + [h])
  {
    var h := HitOf(s, ip, seen);
    assert CounterOk(c, s, ip);
    assert (s.hits + [h])[..|s.hits|] == s.hits;
  }

  lemma OwnCounterAfterHit(c: Config, s: State, a: Action)
    requires Enabled(c, s, a) && a.Increment? && Applied(a.reply) && CounterOk(c, s, s.requests[a.r].ip)
    ensures CounterOk(c, Apply(c, s, a), s.requests[a.r].ip)
  {
    var ip, s' := s.requests[a.r].ip, Apply(c, s, a);
    var h := HitOf(s, ip, a.reply.Done?);
    LatestAppend(s.hits, h, ip);
    assert s'.hits[|s.hits|] == h && s'.last[ip] == WindowOf(s, ip) && s'.counters == Incr(s.counters, ip);
    NewCounter(c, s, ip);
  }

  /** The counter after an INCR continues the window, or begins a new one. */
  lemma NewCounter(c: Config, s: State, ip: Ip)
    requires CounterOk(c, s, ip)
    ensures CountAfter(s, ip) >= 1 && WindowOf(s, ip).start <= s.now && LiveAt(Incr(s.counters, ip)[ip], s.now)
    ensures var cell := Incr(s.counters, ip)[ip];
      cell.expiry.Some? ==> WindowOf(s, ip).start + c.window <= cell.expiry.value
  {
  }

  lemma OtherCounterAfterHit(c: Config, s: State, a: Action, ip: Ip)
    requires Enabled(c, s, a) && a.Increment? && Applied(a.reply) && CounterOk(c, s, ip) && ip != s.requests[a.r].ip
    ensures CounterOk(c, Apply(c, s, a), ip)
  {
    var s', own := Apply(c, s, a), s.requests[a.r].ip;
    LatestAppend(s.hits, HitOf(s, own, a.reply.Done?), ip);
    assert s'.hits == s.hits + [HitOf(s, own, a.reply.Done?)];
    assert ip in s'.counters <==> ip in s.counters;
    assert ip in s.counters ==> s'.counters[ip] == s.counters[ip];
    assert ip in s'.last <==> ip in s.last;
    assert ip in s.last ==> s'.last[ip] == s.last[ip];
  }

  lemma CounterAfterHit(c: Config, s: State, a: Action, ip: Ip)
    requires Enabled(c, s, a) && a.Increment? && Applied(a.reply) && History(c, s)
    ensures CounterOk(c, Apply(c, s, a), ip)
  {
    assert CounterOk(c, s, ip);
    if ip == s.requests[a.r].ip { OwnCounterAfterHit(c, s, a); } else { OtherCounterAfterHit(c, s, a, ip); }
  }

  lemma CounterAfterOther(c: Config, s: State, a: Action, ip: Ip)
    requires Enabled(c, s, a) && !(a.Increment? && Applied(a.reply)) && CounterOk(c, s, ip) && c.window >= 1
    ensures CounterOk(c, Apply(c, s, a), ip)
  {
  }

  lemma HistoryStep(c: Config, s: State, a: Action)
    requires Enabled(c, s, a) && History(c, s) && c.window >= 1
    ensures History(c, Apply(c, s, a))
  {
    if a.Increment? && Applied(a.reply) {
      NewHitFollows(c, s, s.requests[a.r].ip, a.reply.Done?);
      forall ip ensures CounterOk(c, Apply(c, s, a), ip) { CounterAfterHit(c, s, a, ip); }
    } else {
      forall ip ensures CounterOk(c, Apply(c, s, a), ip) {
        assert CounterOk(c, s, ip);
        CounterAfterOther(c, s, a, ip);
      }
    }
  }

  // ---- expiries ----

  /** Some request that saw count 1 in the client's window `v` has still to issue EXPIRE. */
  ghost predicate Outstanding(s: State, ip: Ip, v: nat) {
    exists r :: r in s.requests && s.requests[r] == Expiring(ip, v)
  }

  /** `v` is the window of a live counter of `ip`, and the counter has no expiry. */
  ghost predicate Unexpiring(s: State, ip: Ip, v: nat) {
    ip in s.counters && ip in s.last && s.last[ip].ordinal == v && s.counters[ip].expiry == None
  }

  ghost predicate CounterTtl(s: State, ip: Ip) {
    ip in s.counters ==>
      && ip in s.last && LiveAt(s.counters[ip], s.now) && s.counters[ip].value >= 1
      && (s.counters[ip].expiry == None ==>
        Outstanding(s, ip, s.last[ip].ordinal) || (ip, s.last[ip].ordinal) in s.unset)
  }

  ghost predicate RequestTtl(s: State, x: Request) {
    x.Expiring? ==> Unexpiring(s, x.ip, x.window) && (x.ip, x.window) !in s.unset
  }

  predicate SoleExpiring(requests: map<Rid, Request>) {
    forall q, r ::
      q in requests && r in requests && requests[q].Expiring? && requests[r].Expiring? &&
        requests[q].ip == requests[r].ip
      ==> q == r
  }

  ghost predicate Expiries(s: State) {
    && (forall ip :: ip in s.counters ==> CounterTtl(s, ip))
    && (forall r :: r in s.requests ==> RequestTtl(s, s.requests[r]))
    && SoleExpiring(s.requests)
    && (forall x :: x in s.unset ==> Unexpiring(s, x.0, x.1))
  }

  lemma KeepsOutstanding(c: Config, s: State, a: Action, ip: Ip, v: nat)
    requires Enabled(c, s, a) && Outstanding(s, ip, v)
    ensures var s' := Apply(c, s, a);
      Outstanding(s', ip, v) || (ip, v) in s'.unset || (a.SetExpiry? && s.requests[a.r] == Expiring(ip, v))
  {
    var r :| r in s.requests && s.requests[r] == Expiring(ip, v);
    if !a.Crash? && !(a.SetExpiry? && a.r == r) { assert Apply(c, s, a).requests[r] == Expiring(ip, v); }
  }

  lemma CounterTtlStep(c: Config, s: State, a: Action, ip: Ip)
    requires Enabled(c, s, a) && Expiries(s) && c.window >= 1
    ensures CounterTtl(Apply(c, s, a), ip)
  {
    var s' := Apply(c, s, a);
    if ip in s'.counters && s'.counters[ip].expiry == None {
      if ip in s.counters {
        assert CounterTtl(s, ip);
        if Outstanding(s, ip, s.last[ip].ordinal) { KeepsOutstanding(c, s, a, ip, s.last[ip].ordinal); }
      } else {
        assert a.Increment? && Applied(a.reply) && s.requests[a.r].ip == ip;
        if a.reply.Done? { assert s'.requests[a.r] == Expiring(ip, s'.last[ip].ordinal); }
      }
    }
  }

  lemma UnexpiringStep(c: Config, s: State, a: Action, ip: Ip, v: nat)
    requires Enabled(c, s, a) && Unexpiring(s, ip, v) && !(a.SetExpiry? && s.requests[a.r].ip == ip && Applied(a.reply))
    ensures Unexpiring(Apply(c, s, a), ip, v)
  {
  }

  /** An INCR returns 1 exactly if the key was absent; then no EXPIRE is outstanding or lost for it. */
  lemma CountOneIsNew(s: State, ip: Ip)
    requires Expiries(s)
    ensures CountAfter(s, ip) == 1 <==> ip !in s.counters
    ensures ip !in s.counters ==> forall r :: r in s.requests && s.requests[r].Expiring? ==> s.requests[r].ip != ip
    ensures ip !in s.counters ==> forall v :: (ip, v) !in s.unset
  {
    assert ip in s.counters ==> CounterTtl(s, ip);
    forall r | r in s.requests && s.requests[r].Expiring? ensures s.requests[r].ip in s.counters {
      assert RequestTtl(s, s.requests[r]);
    }
    forall v | (ip, v) in s.unset ensures ip in s.counters { assert Unexpiring(s, (ip, v).0, (ip, v).1); }
  }

  lemma RequestTtlStep(c: Config, s: State, a: Action, r: Rid)
    requires Enabled(c, s, a) && Expiries(s) && r in Apply(c, s, a).requests
    ensures RequestTtl(Apply(c, s, a), Apply(c, s, a).requests[r])
  {
    var s' := Apply(c, s, a);
    var x := s'.requests[r];
    if a.Increment? { CountOneIsNew(s, s.requests[a.r].ip); }
    if x.Expiring? && r in s.requests && s.requests[r] == x {
      assert RequestTtl(s, x);
      if a.SetExpiry? { assert a.r != r; }
      UnexpiringStep(c, s, a, x.ip, x.window);
    }
  }

  lemma SoleExpiringStep(c: Config, s: State, a: Action)
    requires Enabled(c, s, a) && Expiries(s)
    ensures SoleExpiring(Apply(c, s, a).requests)
  {
    if a.Increment? { CountOneIsNew(s, s.requests[a.r].ip); }
  }

  lemma UnsetStep(c: Config, s: State, a: Action, ip: Ip, v: nat)
    requires Enabled(c, s, a) && Expiries(s) && (ip, v) in Apply(c, s, a).unset
    ensures Unexpiring(Apply(c, s, a), ip, v)
  {
    if (ip, v) in s.unset {
      assert Unexpiring(s, (ip, v).0, (ip, v).1);
      if a.SetExpiry? { assert RequestTtl(s, s.requests[a.r]); }
      UnexpiringStep(c, s, a, ip, v);
    } else if a.Increment? {
      CountOneIsNew(s, ip);
    } else if a.Crash? {
      var r :| r in s.requests && s.requests[r] == Expiring(ip, v);
      assert RequestTtl(s, s.requests[r]);
    } else {
      assert RequestTtl(s, s.requests[a.r]);
    }
  }

  lemma ExpiriesStep(c: Config, s: State, a: Action)
    requires Enabled(c, s, a) && Expiries(s) && c.window >= 1
    ensures Expiries(Apply(c, s, a))
  {
    var s' := Apply(c, s, a);
    forall ip | ip in s'.counters ensures CounterTtl(s', ip) { CounterTtlStep(c, s, a, ip); }
    forall r | r in s'.requests ensures RequestTtl(s', s'.requests[r]) { RequestTtlStep(c, s, a, r); }
    SoleExpiringStep(c, s, a);
    forall x | x in s'.unset ensures Unexpiring(s', x.0, x.1) { UnsetStep(c, s, a, x.0, x.1); }
  }

  // ---- over every run ----

  ghost predicate Inv(c: Config, s: State) { History(c, s) && Expiries(s) && Outcomes(c, s) }

  /** What a request that has its count will or did decide. */
  ghost predicate Outcomes(c: Config, s: State) {
    forall r :: r in s.requests ==>
      match s.requests[r]
      case Deciding(ip, v, n) => HasHit(s.hits, ip, v, n)
      case Expiring(ip, v) => HasHit(s.hits, ip, v, 1)
      case Admitted(ip, v, n) => HasHit(s.hits, ip, v, n) && n <= c.maxRequests
      case Rejected(ip, v, n) => HasHit(s.hits, ip, v, n) && n > c.maxRequests
      case _ => true
  }

  ghost predicate HasHit(hits: seq<Hit>, ip: Ip, v: nat, n: int) {
    exists i :: 0 <= i < |hits| && hits[i].ip == ip && hits[i].window == v && hits[i].count == n && hits[i].seen
  }

  lemma HasHitGrows(hits: seq<Hit>, h: Hit)
    ensures forall ip, v, n :: HasHit(hits, ip, v, n) ==> HasHit(hits + [h], ip, v, n)
    ensures h.seen ==> HasHit(hits + [h], h.ip, h.window, h.count)
  {
    assert (hits + [h])[|hits|] == h;
    forall ip, v, n | HasHit(hits, ip, v, n) ensures HasHit(hits + [h], ip, v, n) {
      var i :| 0 <= i < |hits| && hits[i].ip == ip && hits[i].window == v && hits[i].count == n && hits[i].seen;
      assert (hits + [h])[i] == hits[i];
    }
  }

  lemma OutcomesStep(c: Config, s: State, a: Action)
    requires Enabled(c, s, a) && Outcomes(c, s)
    ensures Outcomes(c, Apply(c, s, a))
  {
    if a.Increment? && Applied(a.reply) { HasHitGrows(s.hits, HitOf(s, s.requests[a.r].ip, a.reply.Done?)); }
  }

  lemma {:induction false} InvRun(c: Config, s: State, acts: seq<Action>, s': State)
    requires Inv(c, s) && Run(c, s, acts, s') && c.window >= 1
    ensures Inv(c, s')
    decreases |acts|
  {
    if acts != [] {
      HistoryStep(c, s, acts[0]);
      ExpiriesStep(c, s, acts[0]);
      OutcomesStep(c, s, acts[0]);
      InvRun(c, Apply(c, s, acts[0]), acts[1..], s');
    }
  }

  lemma InvReachable(c: Config, s: State)
    requires Reachable(c, s) && c.window >= 1
    ensures Inv(c, s)
  {
    var acts :| Leads(c, acts, s);
    InvRun(c, INIT, acts, s);
  }

  /** A live counter has no expiry exactly if the EXPIRE of the request that saw count 1 is outstanding or
      never took effect; and whoever still has to issue it, has to issue it for the current window. */
  lemma NoExpiryIff(c: Config, s: State, ip: Ip)
    requires Reachable(c, s) && c.window >= 1 && ip in s.counters
    ensures ip in s.last
    ensures s.counters[ip].expiry == None <==>
      Outstanding(s, ip, s.last[ip].ordinal) || (ip, s.last[ip].ordinal) in s.unset
    ensures forall r :: r in s.requests && s.requests[r].Expiring? && s.requests[r].ip == ip ==>
      s.requests[r].window == s.last[ip].ordinal
  {
    InvReachable(c, s);
    assert CounterTtl(s, ip);
    forall r | r in s.requests && s.requests[r].Expiring? && s.requests[r].ip == ip
      ensures s.requests[r].window == s.last[ip].ordinal && s.counters[ip].expiry == None
    {
      assert RequestTtl(s, s.requests[r]);
    }
    if (ip, s.last[ip].ordinal) in s.unset {
      assert Unexpiring(s, (ip, s.last[ip].ordinal).0, (ip, s.last[ip].ordinal).1);
    }
  }
}
