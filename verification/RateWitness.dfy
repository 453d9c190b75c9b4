/** The interval bound is attained, and clients do not influence each other. */
module RateWitness {
  import opened Replies
  import opened Arithmetic
  import opened Counting
  import opened TtlStore
  import opened RateLimit
  import opened RateBounds
  import opened RateTheorems

  function Value(s: State, ip: Ip): int { if ip in s.counters then s.counters[ip].value else 0 }

  predicate RequestsBelow(s: State, n: nat) { forall r :: r in s.requests ==> r < n }

  lemma CountOnce(c: Config, s: State, ip: Ip, n: Rid, lo: nat, hi: nat) returns (s': State)
    requires Reachable(c, s) && n in s.requests && s.requests[n] == Arrived(ip) && lo <= s.now < hi &&
      Value(s, ip) + 1 <= c.maxRequests
    ensures Reachable(c, s') && s'.now == s.now
    ensures s'.requests == s.requests[n := AfterIncrement(s, ip, Done)] && s'.counters == Incr(s.counters, ip)
    ensures AdmittedIn(c.maxRequests, s'.hits, ip, lo, hi) == AdmittedIn(c.maxRequests, s.hits, ip, lo, hi) + 1
  {
    StepReachable(c, s, Increment(n, Done));
    s' := Apply(c, s, Increment(n, Done));
    assert s'.hits[..|s'.hits| - 1] == s.hits;
  }

  /** One more request of `ip`, up to its INCR. */
  lemma HitOnce(c: Config, s: State, ip: Ip, n: nat, lo: nat, hi: nat) returns (s': State)
    requires Reachable(c, s) && RequestsBelow(s, n) && lo <= s.now < hi && Value(s, ip) + 1 <= c.maxRequests
    ensures Reachable(c, s') && RequestsBelow(s', n + 1) && s'.now == s.now && Value(s', ip) == Value(s, ip) + 1
    ensures s'.requests == s.requests[n := AfterIncrement(s, ip, Done)] && s'.counters == Incr(s.counters, ip)
    ensures AdmittedIn(c.maxRequests, s'.hits, ip, lo, hi) == AdmittedIn(c.maxRequests, s.hits, ip, lo, hi) + 1
  {
    var t := ArriveOnce(c, s, ip, n);
    s' := CountOnce(c, t, ip, n, lo, hi);
    assert AfterIncrement(t, ip, Done) == AfterIncrement(s, ip, Done);
    assert t.requests[n := AfterIncrement(s, ip, Done)] == s.requests[n := AfterIncrement(s, ip, Done)];
  }

  lemma ArriveOnce(c: Config, s: State, ip: Ip, n: nat) returns (s': State)
    requires Reachable(c, s) && n !in s.requests
    ensures Reachable(c, s') && s' == s.(requests := s.requests[n := Arrived(ip)])
  {
    StepReachable(c, s, Arrive(n, ip));
    s' := Apply(c, s, Arrive(n, ip));
  }

  lemma {:induction false} HitTimes(c: Config, s: State, ip: Ip, n: nat, k: nat, lo: nat, hi: nat) returns (s': State)
    requires Reachable(c, s) && RequestsBelow(s, n) && lo <= s.now < hi && Value(s, ip) + k <= c.maxRequests
    ensures Reachable(c, s') && RequestsBelow(s', n + k) && s'.now == s.now
    ensures ip in s.counters ==> ip in s'.counters && s'.counters[ip].expiry == s.counters[ip].expiry
    ensures AdmittedIn(c.maxRequests, s'.hits, ip, lo, hi) == AdmittedIn(c.maxRequests, s.hits, ip, lo, hi) + k
    decreases k
  {
    if k == 0 {
      s' := s;
    } else {
      var t := HitOnce(c, s, ip, n, lo, hi);
      s' := HitTimes(c, t, ip, n + 1, k - 1, lo, hi);
    }
  }

  lemma SetExpiryOf(c: Config, s: State, ip: Ip, n: nat, m: nat) returns (s': State)
    requires Reachable(c, s) && RequestsBelow(s, m) && n in s.requests && s.requests[n].Expiring? &&
      s.requests[n].ip == ip
    requires ip in s.counters && c.window >= 1
    ensures Reachable(c, s') && RequestsBelow(s', m) && s'.now == s.now && s'.hits == s.hits
    ensures s'.counters == s.counters[ip := Cell(s.counters[ip].value, Some(s.now + c.window))]
  {
    StepReachable(c, s, SetExpiry(n, Done));
    s' := Apply(c, s, SetExpiry(n, Done));
  }

  lemma Wait(c: Config, s: State, ip: Ip, n: nat, d: nat) returns (s': State)
    requires Reachable(c, s) && RequestsBelow(s, n)
    ensures Reachable(c, s') && RequestsBelow(s', n) && s'.now == s.now + d && s'.hits == s.hits &&
      s'.requests == s.requests
    ensures ip in s'.counters <==> ip in s.counters && LiveAt(s.counters[ip], s.now + d)
    ensures ip in s'.counters ==> s'.counters[ip] == s.counters[ip]
  {
    StepReachable(c, s, Tick(d));
    s' := Apply(c, s, Tick(d));
  }

  /** A new window, filled at once. */
  lemma FullWindow(c: Config, s: State, ip: Ip, n: nat, lo: nat, hi: nat) returns (s': State)
    requires Reachable(c, s) && RequestsBelow(s, n) && ip !in s.counters && lo <= s.now < hi
    requires c.maxRequests >= 1 && c.window >= 1
    ensures Reachable(c, s') && RequestsBelow(s', n + c.maxRequests) && s'.now == s.now
    ensures ip in s'.counters && s'.counters[ip].expiry == Some(s.now + c.window)
    ensures AdmittedIn(c.maxRequests, s'.hits, ip, lo, hi) ==
      AdmittedIn(c.maxRequests, s.hits, ip, lo, hi) + c.maxRequests
  {
    var t := NewWindow(c, s, ip, n, lo, hi);
    s' := HitTimes(c, t, ip, n + 1, c.maxRequests - 1, lo, hi);
  }

  lemma NewWindow(c: Config, s: State, ip: Ip, n: nat, lo: nat, hi: nat) returns (s': State)
    requires Reachable(c, s) && RequestsBelow(s, n) && ip !in s.counters && lo <= s.now < hi
    requires c.maxRequests >= 1 && c.window >= 1
    ensures Reachable(c, s') && RequestsBelow(s', n + 1) && s'.now == s.now
    ensures ip in s'.counters && s'.counters[ip] == Cell(1, Some(s.now + c.window))
    ensures AdmittedIn(c.maxRequests, s'.hits, ip, lo, hi) == AdmittedIn(c.maxRequests, s.hits, ip, lo, hi) + 1
  {
    var t := HitOnce(c, s, ip, n, lo, hi);
    s' := SetExpiryOf(c, t, ip, n, n + 1);
  }

  /** `k` full windows, one right after the other. */
  lemma {:induction false} FullWindows(c: Config, s: State, ip: Ip, n: nat, k: nat, lo: nat,
      hi: nat) returns (s': State)
    requires Reachable(c, s) && RequestsBelow(s, n) && ip !in s.counters && lo <= s.now
    requires c.maxRequests >= 1 && c.window >= 1 && k >= 1 && s.now + (k - 1) * c.window < hi
    ensures Reachable(c, s')
    ensures AdmittedIn(c.maxRequests, s'.hits, ip, lo, hi) ==
      AdmittedIn(c.maxRequests, s.hits, ip, lo, hi) + c.maxRequests * k
    decreases k
  {
    OneWindowLess(s.now, c.window, k, hi, c.maxRequests);
    s' := FullWindow(c, s, ip, n, lo, hi);
    if k > 1 {
      var t := Wait(c, s', ip, n + c.maxRequests, c.window);
      s' := FullWindows(c, t, ip, n + c.maxRequests, k - 1, lo, hi);
    }
  }

  lemma OneWindowLess(now: nat, w: nat, k: nat, hi: nat, max: nat)
    requires k >= 1 && now + (k - 1) * w < hi
    ensures now < hi && (k > 1 ==> now + w + (k - 2) * w < hi)
    ensures max * k == max + max * (k - 1)
  {
    MulMonotone(0, k - 1, w);
    MulAdd(k - 2, 1, w);
    MulAdd(k - 1, 1, max);
  }

  /** A window whose EXPIRE came one unit late is alive at time `window`, one unit before its end. */
  lemma LateWindow(c: Config, ip: Ip) returns (s: State)
    requires c.maxRequests >= 1 && c.window >= 1
    ensures Reachable(c, s) && RequestsBelow(s, 1) && s.now == c.window
    ensures ip in s.counters && s.counters[ip] == Cell(1, Some(c.window + 1))
    ensures forall i :: 0 <= i < |s.hits| ==> s.hits[i].at < c.window
  {
    ReachedBy(c, [], INIT);
    s := HitOnce(c, INIT, ip, 0, 0, 1);
    assert forall i :: 0 <= i < |s.hits| ==> s.hits[i].at == 0 by { InvReachable(c, s); }
    s := Wait(c, s, ip, 1, 1);
    s := SetExpiryOf(c, s, ip, 0, 1);
    s := Wait(c, s, ip, 1, c.window - 1);
  }

  /** There, all that is left of its limit, and full windows from its end on. */
  lemma LateThenFull(c: Config, ip: Ip, k: nat, hi: nat) returns (s: State)
    requires c.maxRequests >= 1 && c.window >= 1 && k >= 1 && c.window + 1 + (k - 1) * c.window < hi
    ensures Reachable(c, s)
    ensures AdmittedIn(c.maxRequests, s.hits, ip, c.window, hi) == c.maxRequests * (k + 1) - 1
  {
    MulMonotone(0, k - 1, c.window);
    MulAdd(k, 1, c.maxRequests);
    s := LateWindow(c, ip);
    NothingBefore(c.maxRequests, s.hits, ip, c.window, hi);
    s := HitTimes(c, s, ip, 1, c.maxRequests - 1, c.window, hi);
    s := Wait(c, s, ip, c.maxRequests, 1);
    s := FullWindows(c, s, ip, c.maxRequests, k, c.window, hi);
  }

  lemma CeilFits(length: nat, w: nat)
    requires w >= 1 && length >= 1
    ensures Ceil(length, w) >= 1 && (Ceil(length, w) - 1) * w < length
  {
    var k := Ceil(length, w);
    MulAdd(k - 1, 1, w);
    if k < 1 { MulMonotone(k, 0, w); }
  }

  /** In `s` the client has exactly the bound's number of requests admitted in [lo, lo + length). */
  ghost predicate Attains(c: Config, s: State, ip: Ip, lo: nat, length: nat)
    requires c.maxRequests >= 0 && c.window >= 1 && length >= 1
  {
    AdmittedIn(c.maxRequests, s.hits, ip, lo, lo + length) == SharpBound(c.maxRequests, c.window, length)
  }

  lemma FullWindowsAttain(c: Config, ip: Ip, length: nat) returns (s: State)
    requires c.maxRequests >= 1 && c.window >= 1 && length >= 1 && Ceil(length, c.window) > Ceil(length - 1, c.window)
    ensures Reachable(c, s) && Attains(c, s, ip, 0, length)
  {
    CeilFits(length, c.window);
    ReachedBy(c, [], INIT);
    s := FullWindows(c, INIT, ip, 0, Ceil(length, c.window), 0, length);
  }

  lemma LateWindowAttains(c: Config, ip: Ip, length: nat) returns (s: State)
    requires c.maxRequests >= 1 && c.window >= 1 && length > 1 && Ceil(length, c.window) == Ceil(length - 1, c.window)
    ensures Reachable(c, s) && Attains(c, s, ip, c.window, length)
  {
    CeilFits(length - 1, c.window);
    s := LateThenFull(c, ip, Ceil(length - 1, c.window), c.window + length);
  }

  /** The sliding-interval bound cannot be improved: for every limit, every window length and every length of the
      interval, a client can have exactly that many requests admitted in such an interval. */
  lemma IntervalBoundAttained(c: Config, ip: Ip, length: nat)
    requires c.maxRequests >= 1 && c.window >= 1 && length >= 1
    ensures exists s, lo: nat :: Reachable(c, s) && Attains(c, s, ip, lo, length)
  {
    CeilStep(length, c.window);
    CeilFits(length, c.window);
    if Ceil(length, c.window) > Ceil(length - 1, c.window) {
      var s := FullWindowsAttain(c, ip, length);
    } else {
      var s := LateWindowAttains(c, ip, length);
    }
  }

  // ---- other clients have no effect ----

  function HitsOf(hits: seq<Hit>, ip: Ip): seq<Hit> {
    if hits == [] then []
    else HitsOf(hits[..|hits| - 1], ip) + (if hits[|hits| - 1].ip == ip then [hits[|hits| - 1]] else [])
  }

  /** The entry of one client. */
  function Entry(counters: Store<Ip, int>, ip: Ip): Store<Ip, int> {
    if ip in counters then map[ip := counters[ip]] else map[]
  }

  /** What concerns the client `ip` alone. */
  function Only(s: State, ip: Ip): State {
    State(s.now,
          Entry(s.counters, ip),
          map r | r in s.requests && s.requests[r].ip == ip :: s.requests[r],
          map k | k in s.last && k == ip :: s.last[k],
          HitsOf(s.hits, ip),
          set x | x in s.unset && x.0 == ip)
  }

  predicate Concerns(s: State, a: Action, ip: Ip) {
    match a
    case Tick(_) => true
    case Crash => true
    case Arrive(_, ip') => ip' == ip
    case Increment(r, _) => r in s.requests && s.requests[r].ip == ip
    case SetExpiry(r, _) => r in s.requests && s.requests[r].ip == ip
    case Decide(r) => r in s.requests && s.requests[r].ip == ip
  }

  lemma ForeignStep(c: Config, s: State, a: Action, ip: Ip)
    requires Enabled(c, s, a) && !Concerns(s, a, ip)
    ensures Only(Apply(c, s, a), ip) == Only(s, ip)
  {
    ForeignRequests(c, s, a, ip);
    HitsAfter(c, s, a, ip);
    ForeignUnset(c, s, a, ip);
    ForeignCounters(c, s, a, ip);
    ForeignLast(c, s, a, ip);
  }

  lemma ForeignCounters(c: Config, s: State, a: Action, ip: Ip)
    requires Enabled(c, s, a) && !Concerns(s, a, ip)
    ensures Only(Apply(c, s, a), ip).counters == Only(s, ip).counters
  {
    if a.Increment? || a.SetExpiry? { OtherEntry(s.counters, s.requests[a.r].ip, s.now, c.window, ip); }
  }

  lemma OtherEntry(counters: Store<Ip, int>, other: Ip, now: nat, d: nat, ip: Ip)
    requires other != ip
    ensures Entry(Incr(counters, other), ip) == Entry(counters, ip)
    ensures Entry(Expire(counters, other, now, d), ip) == Entry(counters, ip)
  {
  }

  lemma ForeignLast(c: Config, s: State, a: Action, ip: Ip)
    requires Enabled(c, s, a) && !Concerns(s, a, ip)
    ensures Only(Apply(c, s, a), ip).last == Only(s, ip).last
  {
  }

  lemma ForeignRequests(c: Config, s: State, a: Action, ip: Ip)
    requires Enabled(c, s, a) && !Concerns(s, a, ip)
    ensures Only(Apply(c, s, a), ip).requests == Only(s, ip).requests
  {
  }

  lemma HitsAfter(c: Config, s: State, a: Action, ip: Ip)
    requires Enabled(c, s, a)
    ensures HitsOf(Apply(c, s, a).hits, ip) == HitsOf(s.hits, ip)
            + (if a.Increment? && Applied(a.reply) &&
              s.requests[a.r].ip == ip then [HitOf(s, ip, a.reply.Done?)] else [])
  {
    if a.Increment? && Applied(a.reply) { assert Apply(c, s, a).hits[..|s.hits|] == s.hits; }
  }

  lemma ForeignUnset(c: Config, s: State, a: Action, ip: Ip)
    requires Enabled(c, s, a) && !Concerns(s, a, ip)
    ensures Only(Apply(c, s, a), ip).unset == Only(s, ip).unset
  {
    var added := UnsetNext(c, s, a) - s.unset;
    assert forall x :: x in added ==> x.0 != ip;
  }

  lemma UnsetUnion(u: set<(Ip, nat)>, ip: Ip, v: nat)
    ensures (set x | x in u + {(ip, v)} && x.0 == ip) == (set x | x in u && x.0 == ip) + {(ip, v)}
  {
  }

  lemma OwnUnset(c: Config, s: State, a: Action, ip: Ip)
    requires Enabled(c, s, a) && Concerns(s, a, ip) && !a.Crash? && Enabled(c, Only(s, ip), a)
    ensures UnsetNext(c, Only(s, ip), a) == Only(Apply(c, s, a), ip).unset
  {
    SameView(s, ip);
    if a.Increment? {
      UnsetUnion(s.unset, ip, WindowOf(s, ip).ordinal);
    } else if a.SetExpiry? {
      UnsetUnion(s.unset, ip, s.requests[a.r].window);
    }
  }

  lemma UnsetAfterCrash(c: Config, s: State, ip: Ip)
    ensures UnsetNext(c, Only(s, ip), Crash) == Only(Apply(c, s, Crash), ip).unset
  {
    forall v | (ip, v) in Only(Apply(c, s, Crash), ip).unset ensures (ip, v) in UnsetNext(c, Only(s, ip), Crash) {
      if (ip, v) !in s.unset {
        var r :| r in s.requests && s.requests[r] == Expiring(ip, v);
        assert r in Only(s, ip).requests;
      }
    }
    forall x | x in UnsetNext(c, Only(s, ip), Crash) ensures x in Only(Apply(c, s, Crash), ip).unset {
      if x !in s.unset {
        var r :| r in Only(s, ip).requests && s.requests[r] == Expiring(x.0, x.1);
        assert r in s.requests;
      }
    }
    assert UnsetNext(c, Only(s, ip), Crash) == Only(Apply(c, s, Crash), ip).unset;
  }

  /** What an INCR of `ip` sees does not depend on the other clients. */
  lemma SameView(s: State, ip: Ip)
    ensures WindowOf(Only(s, ip), ip) == WindowOf(s, ip) && CountAfter(Only(s, ip), ip) == CountAfter(s, ip)
  {
  }

  lemma EntryCommands(counters: Store<Ip, int>, ip: Ip, now: nat, d: nat)
    ensures Entry(Purge(counters, now), ip) == Purge(Entry(counters, ip), now)
    ensures Entry(Incr(counters, ip), ip) == Incr(Entry(counters, ip), ip)
    ensures Entry(Expire(counters, ip, now, d), ip) == Expire(Entry(counters, ip), ip, now, d)
  {
  }

  lemma OwnCounters(c: Config, s: State, a: Action, ip: Ip)
    requires Enabled(c, s, a) && Concerns(s, a, ip) && Enabled(c, Only(s, ip), a)
    ensures CountersNext(c, Only(s, ip), a) == Only(Apply(c, s, a), ip).counters
  {
    if a.Tick? {
      EntryCommands(s.counters, ip, s.now + a.d, 0);
    } else {
      EntryCommands(s.counters, ip, s.now, c.window);
    }
  }

  lemma OwnRequests(c: Config, s: State, a: Action, ip: Ip)
    requires Enabled(c, s, a) && Concerns(s, a, ip)
    ensures Enabled(c, Only(s, ip), a) && RequestsNext(c, Only(s, ip), a) == Only(Apply(c, s, a), ip).requests
  {
    if !a.Tick? && !a.Crash? { OwnRequest(c, s, a, ip); }
  }

  lemma OwnRequest(c: Config, s: State, a: Action, ip: Ip)
    requires Enabled(c, s, a) && Concerns(s, a, ip) && !a.Tick? && !a.Crash?
    ensures Enabled(c, Only(s, ip), a)
    ensures RequestNext(c, Only(s, ip), a) == RequestNext(c, s, a) && RequestNext(c, s, a).ip == ip
  {
    SameView(s, ip);
  }

  lemma OwnLast(c: Config, s: State, a: Action, ip: Ip)
    requires Enabled(c, s, a) && Concerns(s, a, ip) && Enabled(c, Only(s, ip), a)
    ensures Apply(c, Only(s, ip), a).last == Only(Apply(c, s, a), ip).last
  {
    SameView(s, ip);
  }

  lemma OwnHits(c: Config, s: State, a: Action, ip: Ip)
    requires Enabled(c, s, a) && Concerns(s, a, ip) && Enabled(c, Only(s, ip), a)
    ensures Apply(c, Only(s, ip), a).hits == Only(Apply(c, s, a), ip).hits
  {
    SameView(s, ip);
    HitsAfter(c, s, a, ip);
  }

  lemma OwnStep(c: Config, s: State, a: Action, ip: Ip)
    requires Enabled(c, s, a) && Concerns(s, a, ip)
    ensures Enabled(c, Only(s, ip), a) && Apply(c, Only(s, ip), a) == Only(Apply(c, s, a), ip)
  {
    OwnRequests(c, s, a, ip);
    OwnCounters(c, s, a, ip);
    OwnLast(c, s, a, ip);
    OwnHits(c, s, a, ip);
    if a.Crash? { UnsetAfterCrash(c, s, ip); } else { OwnUnset(c, s, a, ip); }
  }

  /** The steps of a schedule that concern `ip`. */
  function Concerning(c: Config, s: State, acts: seq<Action>, ip: Ip): seq<Action>
    decreases |acts|
  {
    if acts == [] || !Enabled(c, s, acts[0]) then []
    else (if Concerns(s, acts[0], ip) then [acts[0]] else []) + Concerning(c, Apply(c, s, acts[0]), acts[1..], ip)
  }

  /** Per-client isolation: dropping every step of the other clients from a run leaves a run, and in it the
      client's counter, its requests with their outcomes, and its history of counts are the same. */
  lemma {:induction false} OtherClientsDoNotMatter(c: Config, s: State, acts: seq<Action>, s': State, ip: Ip)
    requires Run(c, s, acts, s')
    ensures Run(c, Only(s, ip), Concerning(c, s, acts, ip), Only(s', ip))
    decreases |acts|
  {
    if acts != [] {
      var a, t := acts[0], Apply(c, s, acts[0]);
      OtherClientsDoNotMatter(c, t, acts[1..], s', ip);
      if Concerns(s, a, ip) {
        OwnStep(c, s, a, ip);
        assert Concerning(c, s, acts, ip)[1..] == Concerning(c, t, acts[1..], ip);
      } else {
        ForeignStep(c, s, a, ip);
        assert Concerning(c, s, acts, ip) == Concerning(c, t, acts[1..], ip);
      }
    }
  }
}
