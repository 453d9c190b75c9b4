/** The rate limiter's guarantees over every run: per time interval, per window, per client. */
module RateTheorems {
  import opened Replies
  import opened Arithmetic
  import opened Counting
  import opened TtlStore
  import opened RateLimit
  import opened RateBounds

  // ---- any interval of time ----

  /** The INCRs of `ip` in [lo, hi) whose requests are admitted. */
  function AdmittedIn(max: int, hits: seq<Hit>, ip: Ip, lo: nat, hi: nat): nat {
    if hits == [] then 0
    else
      var h := hits[|hits| - 1];
      AdmittedIn(max, hits[..|hits| - 1], ip, lo, hi)
      + B(h.ip == ip && lo <= h.at < hi && h.count <= max && h.seen)
  }

  function Ceil(length: nat, w: nat): nat
    requires w >= 1
  {
    (length + w - 1) / w
  }

  /** A whole limit for every period of length `w` that has passed. */
  function Passed(max: nat, w: nat, x: int): int
    requires w >= 1
  {
    max * (x / w)
  }

  /** The admissions that a latest count of `n` leaves possible, given what the earlier windows can have had. */
  predicate Fits(max: nat, admitted: nat, count: nat, since: int, passed: int, passedLate: int) {
    var n := if count <= max then count else max;
    if since < 0 then admitted <= n - 1
    else admitted <= passed + n || (since > 0 && admitted <= max - 1 + passedLate + n)
  }

  /** Everything admitted so far, when the client's latest hit `h` lies before `hi`. The windows that began in the
      interval are at least `w` apart. If the client was already in a window when the interval began, the first
      INCR of that window lies outside and the next window begins at least one unit into the interval. */
  predicate Potential(max: nat, w: nat, admitted: nat, h: Hit, lo: nat)
    requires w >= 1
  {
    h.count >= 0 &&
    Fits(max, admitted, h.count, h.start - lo, Passed(max, w, h.start - lo), Passed(max, w, h.start - lo - 1))
  }

  /** Windows that begin at least `w` apart lie in different periods of length `w`. */
  lemma NextPeriod(max: nat, w: nat, x: nat, y: nat)
    requires w >= 1 && x + w <= y
    ensures Passed(max, w, x) + max <= Passed(max, w, y)
  {
    QuotientAddOne(x, w);
    QuotientMonotone(x + w, y, w);
    MulMonotone(x / w + 1, y / w, max);
    MulAdd(x / w, 1, max);
  }

  lemma PassedIsNatural(max: nat, w: nat, x: nat)
    requires w >= 1
    ensures Passed(max, w, x) >= 0
  {
    MulMonotone(0, x / w, max);
  }

  /** One more hit in the same window. */
  lemma FitsMore(max: nat, admitted: nat, count: nat, since: int, p: int, q: int, admitted': nat)
    requires Fits(max, admitted, count, since, p, q) && count >= 1
    requires admitted <= admitted' <= admitted + B(count + 1 <= max)
    ensures Fits(max, admitted', count + 1, since, p, q)
  {
  }

  /** The first hit of a new window that begins in the interval. */
  lemma FitsNew(max: nat, admitted: nat, count: nat, since: int, p: int, q: int, since': int, p': int, q': int,
      admitted': nat)
    requires max >= 1 && Fits(max, admitted, count, since, p, q) && admitted <= admitted' <= admitted + 1 && since' >= 0
    requires since >= 0 ==> p + max <= p'
    requires since > 0 ==> since' > 0 && q + max <= q'
    requires since < 0 ==> (admitted == 0 && p' >= 0) || (since' > 0 && q' >= 0)
    ensures Fits(max, admitted', 1, since', p', q')
  {
  }

  /** A hit before the interval, while nothing is admitted in it. */
  lemma FitsBefore(max: nat, count: nat, since: int, p: int, q: int)
    requires max >= 1 && count >= 1 && since < 0
    ensures Fits(max, 0, count, since, p, q)
  {
  }

  lemma PotentialStep(max: nat, w: nat, admitted: nat, prev: Hit, h: Hit, lo: nat, admitted': nat)
    requires w >= 1 && max >= 1 && prev.count >= 1 && Follows(w, prev, h) && Potential(max, w, admitted, prev, lo)
    requires prev.start <= prev.at && h.start <= h.at
    requires (h.at < lo ==> admitted == 0) && (prev.at < lo ==> admitted == 0)
    requires admitted <= admitted' <= admitted + B(lo <= h.at && h.count <= max)
    ensures Potential(max, w, admitted', h, lo)
  {
    var since, since' := prev.start - lo, h.start - lo;
    if h.window == prev.window {
      FitsMore(max, admitted, prev.count, since, Passed(max, w, since), Passed(max, w, since - 1), admitted');
    } else if since' < 0 {
      FitsBefore(max, 1, since', Passed(max, w, since'), Passed(max, w, since' - 1));
    } else {
      PassedIsNatural(max, w, since');
      if since' > 0 { PassedIsNatural(max, w, since' - 1); }
      if since >= 0 { NextPeriod(max, w, since, since'); }
      if since > 0 { NextPeriod(max, w, since - 1, since' - 1); }
      FitsNew(max, admitted, prev.count, since, Passed(max, w, since), Passed(max, w, since - 1),
              since', Passed(max, w, since'), Passed(max, w, since' - 1), admitted');
    }
  }

  /** Every window that begins in an interval of length `length` begins in one of its periods. */
  lemma LastPeriod(max: nat, w: nat, x: nat, length: nat)
    requires w >= 1 && x < length
    ensures Passed(max, w, x) + max <= max * Ceil(length, w)
  {
    QuotientAddOne(length - 1, w);
    QuotientMonotone(x, length - 1, w);
    MulMonotone(x / w + 1, Ceil(length, w), max);
    MulAdd(x / w, 1, max);
  }

  /** The most that fits into an interval of the given length: either a whole limit in every window that can begin
      in it, or one less than a limit at its very start and a whole limit in every window that can begin later. */
  function SharpBound(max: nat, w: nat, length: nat): int
    requires w >= 1 && length >= 1
  {
    if Ceil(length, w) > Ceil(length - 1, w) then max * Ceil(length, w) else max * (Ceil(length - 1, w) + 1) - 1
  }

  lemma CeilStep(length: nat, w: nat)
    requires w >= 1 && length >= 1
    ensures Ceil(length - 1, w) <= Ceil(length, w) <= Ceil(length - 1, w) + 1
  {
    QuotientMonotone(length - 1 + w - 1, length + w - 1, w);
    QuotientMonotone(length + w - 1, length + w - 2 + w, w);
    QuotientAddOne(length + w - 2, w);
  }

  /** Both ways of filling an interval stay within the bound. */
  lemma SharpIsLarger(max: nat, w: nat, length: nat)
    requires w >= 1 && length >= 1 && max >= 1
    ensures max * Ceil(length, w) <= SharpBound(max, w, length)
    ensures max - 1 + max * Ceil(length - 1, w) <= SharpBound(max, w, length)
    ensures SharpBound(max, w, length) < max * (Ceil(length, w) + 1)
  {
    CeilStep(length, w);
    MulAdd(Ceil(length - 1, w), 1, max);
    MulAdd(Ceil(length, w), 1, max);
  }

  lemma PotentialBound(max: nat, w: nat, admitted: nat, h: Hit, lo: nat, hi: nat)
    requires w >= 1 && max >= 1 && lo < hi && h.start < hi && Potential(max, w, admitted, h, lo)
    ensures admitted <= SharpBound(max, w, hi - lo)
  {
    SharpIsLarger(max, w, hi - lo);
    MulMonotone(0, Ceil(hi - lo - 1, w), max);
    if h.start >= lo { LastPeriod(max, w, h.start - lo, hi - lo); }
    if h.start > lo { LastPeriod(max, w, h.start - lo - 1, hi - lo - 1); }
  }

  lemma {:induction false} NothingBefore(max: int, hits: seq<Hit>, ip: Ip, lo: nat, hi: nat)
    requires forall i :: 0 <= i < |hits| ==> hits[i].at < lo
    ensures AdmittedIn(max, hits, ip, lo, hi) == 0
  {
    if hits != [] { NothingBefore(max, hits[..|hits| - 1], ip, lo, hi); }
  }

  lemma {:induction false} ChainedAt(w: nat, hits: seq<Hit>, i: nat)
    requires Chained(w, hits) && i < |hits|
    ensures hits[i].count >= 1 && hits[i].start <= hits[i].at
  {
    if i < |hits| - 1 { ChainedAt(w, hits[..|hits| - 1], i); }
  }

  /** If the latest hit of a client lies before the interval, so do all its hits. */
  lemma {:induction false} NoneYet(max: nat, w: nat, hits: seq<Hit>, ip: Ip, lo: nat, hi: nat)
    requires Chained(w, hits)
    requires match Latest(hits, ip) case None => true case Some(i) => hits[i].at < lo
    ensures AdmittedIn(max, hits, ip, lo, hi) == 0
  {
    if hits != [] {
      var h, before := hits[|hits| - 1], hits[..|hits| - 1];
      if h.ip == ip { NothingBefore(max, before, ip, lo, hi); } else { NoneYet(max, w, before, ip, lo, hi); }
    }
  }

  lemma PotentialOfHit(max: nat, w: nat, before: seq<Hit>, h: Hit, lo: nat, hi: nat)
    requires Chained(w, before + [h]) && w >= 1 && max >= 1 && lo < hi && h.at < hi
    requires match Latest(before, h.ip)
      case None => AdmittedIn(max, before, h.ip, lo, hi) == 0
      case Some(i) => Potential(max, w, AdmittedIn(max, before, h.ip, lo, hi), before[i], lo)
    ensures Potential(max, w, AdmittedIn(max, before + [h], h.ip, lo, hi), h, lo)
  {
    assert (before + [h])[..|before|] == before;
    var a, a' := AdmittedIn(max, before, h.ip, lo, hi), AdmittedIn(max, before + [h], h.ip, lo, hi);
    if h.at < lo { NothingBefore(max, before, h.ip, lo, hi); }
    if Latest(before, h.ip).Some? && before[Latest(before, h.ip).value].at < lo {
      NoneYet(max, w, before, h.ip, lo, hi);
    }
    match Latest(before, h.ip) {
      case None => if h.start >= lo { PassedIsNatural(max, w, h.start - lo); }
      case Some(i) =>
        ChainedAt(w, before, i);
        PotentialStep(max, w, a, before[i], h, lo, a');
    }
  }

  lemma {:induction false} IntervalPotential(max: nat, w: nat, hits: seq<Hit>, ip: Ip, lo: nat, hi: nat)
    requires Chained(w, hits) && w >= 1 && max >= 1 && lo < hi
    ensures AdmittedIn(max, hits, ip, lo, hi) <= SharpBound(max, w, hi - lo)
    ensures match Latest(hits, ip)
      case None => AdmittedIn(max, hits, ip, lo, hi) == 0
      case Some(i) => hits[i].at < hi ==> Potential(max, w, AdmittedIn(max, hits, ip, lo, hi), hits[i], lo)
  {
    if hits == [] {
      SharpIsLarger(max, w, hi - lo);
      MulMonotone(0, Ceil(hi - lo, w), max);
    } else {
      var h, before := hits[|hits| - 1], hits[..|hits| - 1];
      IntervalPotential(max, w, before, ip, lo, hi);
      if h.ip == ip && h.at < hi {
        assert hits == before + [h];
        PotentialOfHit(max, w, before, h, lo, hi);
        PotentialBound(max, w, AdmittedIn(max, hits, ip, lo, hi), h, lo, hi);
      }
    }
  }

  lemma {:induction false} NoneAdmitted(max: int, hits: seq<Hit>, w: nat, ip: Ip, lo: nat, hi: nat)
    requires max < 1 && Chained(w, hits)
    ensures AdmittedIn(max, hits, ip, lo, hi) == 0
  {
    if hits != [] { NoneAdmitted(max, hits[..|hits| - 1], w, ip, lo, hi); }
  }

  /** In any interval [lo, hi) whatsoever, however the commands of concurrent requests interleave and however
      late an EXPIRE arrives, a client has at most SharpBound requests admitted on a successful INCR: fewer than
      maxRequests * (ceil(L / W) + 1), where L = hi - lo and W is the window length. */
  lemma SlidingIntervalBound(c: Config, s: State, ip: Ip, lo: nat, hi: nat)
    requires Reachable(c, s) && c.window >= 1 && lo < hi
    ensures c.maxRequests >= 1 ==>
      AdmittedIn(c.maxRequests, s.hits, ip, lo, hi) <= SharpBound(c.maxRequests, c.window, hi - lo)
    ensures c.maxRequests >= 1 ==>
      AdmittedIn(c.maxRequests, s.hits, ip, lo, hi) < c.maxRequests * (Ceil(hi - lo, c.window) + 1)
    ensures c.maxRequests < 1 ==> AdmittedIn(c.maxRequests, s.hits, ip, lo, hi) == 0
  {
    InvReachable(c, s);
    if c.maxRequests >= 1 {
      IntervalPotential(c.maxRequests, c.window, s.hits, ip, lo, hi);
      SharpIsLarger(c.maxRequests, c.window, hi - lo);
      MulAdd(Ceil(hi - lo, c.window), 1, c.maxRequests);
    } else {
      NoneAdmitted(c.maxRequests, s.hits, c.window, ip, lo, hi);
    }
  }

  // ---- one window ----

  /** How many INCRs fell into the client's window `v`, and how many of those found room. */
  function InWindow(hits: seq<Hit>, ip: Ip, v: nat): nat {
    if hits == [] then 0
    else InWindow(hits[..|hits| - 1], ip, v) + B(hits[|hits| - 1].ip == ip && hits[|hits| - 1].window == v)
  }

  function RoomIn(max: int, hits: seq<Hit>, ip: Ip, v: nat): nat {
    if hits == [] then 0
    else RoomIn(max, hits[..|hits| - 1], ip, v)
         + B(hits[|hits| - 1].ip == ip && hits[|hits| - 1].window == v && hits[|hits| - 1].count <= max)
  }

  lemma {:induction false} LatestCounts(w: nat, max: nat, hits: seq<Hit>, ip: Ip, v: nat)
    requires Chained(w, hits)
    ensures match Latest(hits, ip)
      case None => InWindow(hits, ip, v) == 0
      case Some(i) => (v == hits[i].window ==> InWindow(hits, ip, v) == hits[i].count)
                      && (v > hits[i].window ==> InWindow(hits, ip, v) == 0)
    ensures RoomIn(max, hits, ip, v) == Min(InWindow(hits, ip, v), max)
  {
    if hits != [] { LatestCounts(w, max, hits[..|hits| - 1], ip, v); }
  }

  /** A hit with count n is the n-th INCR of its window. */
  lemma {:induction false} CountIsRank(w: nat, hits: seq<Hit>, i: nat)
    requires Chained(w, hits) && i < |hits|
    ensures hits[i].count == InWindow(hits[..i], hits[i].ip, hits[i].window) + 1
  {
    if i == |hits| - 1 {
      LatestCounts(w, 0, hits[..i], hits[i].ip, hits[i].window);
    } else {
      CountIsRank(w, hits[..|hits| - 1], i);
      assert hits[..|hits| - 1][..i] == hits[..i];
    }
  }

  lemma {:induction false} InWindowGrows(hits: seq<Hit>, i: nat, ip: Ip, v: nat)
    requires i <= |hits|
    ensures InWindow(hits[..i], ip, v) <= InWindow(hits, ip, v)
    ensures i < |hits| && hits[i].ip == ip && hits[i].window == v ==> InWindow(hits[..i], ip, v) < InWindow(hits, ip, v)
  {
    if i < |hits| {
      InWindowGrows(hits[..|hits| - 1], i, ip, v);
      assert hits[..|hits| - 1][..i] == hits[..i];
    } else {
      assert hits[..i] == hits;
    }
  }

  /** A window that received n INCRs has room for exactly the first min(n, maxRequests) of them, in INCR order,
      whatever other requests of this and other clients do: every admitted request is one of these, and a
      rejected one came after maxRequests others in that same window. */
  lemma WindowExactness(c: Config, s: State, ip: Ip, v: nat)
    requires Reachable(c, s) && c.window >= 1 && c.maxRequests >= 0
    ensures RoomIn(c.maxRequests, s.hits, ip, v) == Min(InWindow(s.hits, ip, v), c.maxRequests)
    ensures forall r, n :: r in s.requests && s.requests[r] == Admitted(ip, v, n) ==>
      exists i :: 0 <= i < |s.hits| && s.hits[i].ip == ip && s.hits[i].window == v &&
        InWindow(s.hits[..i], ip, v) == n - 1 < c.maxRequests
    ensures forall r, n :: r in s.requests && s.requests[r] == Rejected(ip, v, n) ==>
      exists i :: 0 <= i < |s.hits| && s.hits[i].ip == ip && s.hits[i].window == v &&
        InWindow(s.hits[..i], ip, v) == n - 1 >= c.maxRequests
  {
    InvReachable(c, s);
    LatestCounts(c.window, c.maxRequests, s.hits, ip, v);
    forall r, n | r in s.requests && (s.requests[r] == Admitted(ip, v, n) || s.requests[r] == Rejected(ip, v, n))
      ensures exists i ::
        0 <= i < |s.hits| && s.hits[i].ip == ip && s.hits[i].window == v && InWindow(s.hits[..i], ip, v) == n - 1
    {
      var i :| 0 <= i < |s.hits| && s.hits[i].ip == ip && s.hits[i].window == v && s.hits[i].count == n &&
        s.hits[i].seen;
      CountIsRank(c.window, s.hits, i);
    }
  }

  // ---- an EXPIRE that never took effect ----

  lemma LockStep(c: Config, s: State, a: Action, ip: Ip, v: nat)
    requires Enabled(c, s, a) && Expiries(s) && (ip, v) in s.unset
    ensures var s' := Apply(c, s, a);
      && (ip, v) in s'.unset && Unexpiring(s, ip, v) && ip in s'.counters &&
        s.counters[ip].value <= s'.counters[ip].value
      && s.hits <= s'.hits
      && forall i :: |s.hits| <= i < |s'.hits| && s'.hits[i].ip == ip ==>
        s'.hits[i].window == v && s'.hits[i].count > s.counters[ip].value
  {
    assert Unexpiring(s, (ip, v).0, (ip, v).1);
    UnsetStep(c, s, a, ip, v) by { assert (ip, v) in Apply(c, s, a).unset; }
  }

  /** After an EXPIRE that never took effect the client's window never ends: every later INCR of the client
      falls into it, with a count above the present one, so once maxRequests are used up the client is
      rejected for the rest of the run. */
  lemma {:induction false} LostExpireLocksOut(c: Config, s: State, acts: seq<Action>, s': State, ip: Ip, v: nat)
    requires Inv(c, s) && c.window >= 1 && (ip, v) in s.unset && Run(c, s, acts, s')
    ensures (ip, v) in s'.unset && Unexpiring(s, ip, v) && Unexpiring(s', ip, v) && s.hits <= s'.hits
    ensures forall i :: |s.hits| <= i < |s'.hits| && s'.hits[i].ip == ip ==>
      s'.hits[i].window == v && s'.hits[i].count > s.counters[ip].value
    decreases |acts|
  {
    assert Unexpiring(s, (ip, v).0, (ip, v).1);
    if acts != [] {
      var t := Apply(c, s, acts[0]);
      LockStep(c, s, acts[0], ip, v);
      HistoryStep(c, s, acts[0]);
      ExpiriesStep(c, s, acts[0]);
      OutcomesStep(c, s, acts[0]);
      LostExpireLocksOut(c, t, acts[1..], s', ip, v);
      forall i | |s.hits| <= i < |s'.hits| && s'.hits[i].ip == ip
        ensures s'.hits[i].window == v && s'.hits[i].count > s.counters[ip].value
      {
        if i < |t.hits| { assert s'.hits[i] == t.hits[i]; }
      }
    }
  }
}
