/** Who is admitted on one window's counter, over whole runs and across restarts of the order service. */
module RateAdmissions {
  import opened Replies
  import opened Counting
  import opened TtlStore
  import opened RateLimit
  import opened RateBounds
  import opened RateTheorems

  /** The client, window and count a request got. */
  function Place(x: Request): Option<(Ip, nat, int)> {
    match x
    case Expiring(ip, v) => Some((ip, v, 1))
    case Deciding(ip, v, n) => Some((ip, v, n))
    case Admitted(ip, v, n) => Some((ip, v, n))
    case Rejected(ip, v, n) => Some((ip, v, n))
    case _ => None
  }

  predicate PlacedIn(x: Request, ip: Ip, v: nat) {
    Place(x).Some? && Place(x).value.0 == ip && Place(x).value.1 == v
  }

  predicate Undecided(x: Request) { x.Expiring? || x.Deciding? }

  /** The requests that will be admitted in the window unless the service crashes first. */
  function Pending(requests: map<Rid, Request>, max: int, ip: Ip, v: nat): set<Rid> {
    set r | r in requests && Undecided(requests[r]) && PlacedIn(requests[r], ip, v) && Place(requests[r]).value.2 <= max
  }

  function AdmittedRequests(s: State, ip: Ip, v: nat): set<Rid> {
    set r | r in s.requests && s.requests[r].Admitted? && s.requests[r].ip == ip && s.requests[r].window == v
  }

  /** The action admits a request in the window. */
  predicate Admits(c: Config, s: State, a: Action, ip: Ip, v: nat) {
    && a.Decide? && Enabled(c, s, a)
    && s.requests[a.r].ip == ip && s.requests[a.r].window == v && s.requests[a.r].count <= c.maxRequests
  }

  /** How many admissions happen in the window during a run, whether or not the process lives to remember them. */
  function Admissions(c: Config, s: State, acts: seq<Action>, ip: Ip, v: nat): nat
    decreases |acts|
  {
    if acts == [] || !Enabled(c, s, acts[0]) then 0
    else B(Admits(c, s, acts[0], ip, v)) + Admissions(c, Apply(c, s, acts[0]), acts[1..], ip, v)
  }

  /** No restart of the service, and no error from INCR. */
  predicate Clean(a: Action) { !a.Crash? && !(a.Increment? && a.reply.Failed?) }

  function Room(c: Config, s: State, ip: Ip, v: nat): nat { RoomIn(c.maxRequests, s.hits, ip, v) }

  lemma RoomStep(c: Config, s: State, a: Action, ip: Ip, v: nat)
    requires Enabled(c, s, a)
    ensures Room(c, Apply(c, s, a), ip, v) == Room(c, s, ip, v) +
      B(a.Increment? && Applied(a.reply) && s.requests[a.r].ip == ip && WindowOf(s, ip).ordinal == v &&
        CountAfter(s, ip) <= c.maxRequests)
  {
    if a.Increment? && Applied(a.reply) { assert Apply(c, s, a).hits[..|s.hits|] == s.hits; }
  }

  /** A request that changes from `x` to `y` enters or leaves a set of requests. */
  lemma OneMoved<T>(before: set<T>, after: set<T>, r: T)
    requires forall q :: q != r ==> (q in after <==> q in before)
    ensures |after| == |before| + B(r in after) - B(r in before)
  {
    if r in after && r !in before { assert after == before + {r}; }
    if r !in after && r in before { assert before == after + {r}; }
    if r in after <==> r in before { assert after == before; }
  }

  lemma PendingStep(c: Config, s: State, a: Action, ip: Ip, v: nat)
    requires Enabled(c, s, a) && !a.Crash? && !a.Tick?
    ensures var p, p' := Pending(s.requests, c.maxRequests, ip, v),
      Pending(RequestsNext(c, s, a), c.maxRequests, ip, v);
      |p'| == |p| + B(a.r in p') - B(a.r in p)
  {
    OneMoved(Pending(s.requests, c.maxRequests, ip, v), Pending(RequestsNext(c, s, a), c.maxRequests, ip, v), a.r);
  }

  /** A place in the window's room is taken by an INCR, held by a pending request, and turned into an admission. */
  lemma SeatsStep(c: Config, s: State, a: Action, ip: Ip, v: nat)
    requires Enabled(c, s, a) && Expiries(s)
    ensures var s' := Apply(c, s, a);
      && |Pending(s'.requests, c.maxRequests, ip, v)| + B(Admits(c, s, a, ip, v)) + Room(c, s, ip, v)
         <= |Pending(s.requests, c.maxRequests, ip, v)| + Room(c, s', ip, v)
      && (Clean(a) ==>
            |Pending(s'.requests, c.maxRequests, ip, v)| + B(Admits(c, s, a, ip, v)) + Room(c, s, ip, v)
            == |Pending(s.requests, c.maxRequests, ip, v)| + Room(c, s', ip, v))
  {
    RoomStep(c, s, a, ip, v);
    if a.Crash? {
      assert Pending(map[], c.maxRequests, ip, v) == {};
    } else if !a.Tick? {
      PendingStep(c, s, a, ip, v);
      if a.Increment? { CountOneIsNew(s, s.requests[a.r].ip); }
    }
  }

  lemma AdmittedStep(c: Config, s: State, a: Action, ip: Ip, v: nat)
    requires Enabled(c, s, a)
    ensures |AdmittedRequests(Apply(c, s, a), ip, v)| <= |AdmittedRequests(s, ip, v)| + B(Admits(c, s, a, ip, v))
    ensures !a.Crash? ==>
      |AdmittedRequests(Apply(c, s, a), ip, v)| == |AdmittedRequests(s, ip, v)| + B(Admits(c, s, a, ip, v))
  {
    if a.Crash? {
      assert AdmittedRequests(Apply(c, s, a), ip, v) == {};
    } else if a.Tick? {
      assert AdmittedRequests(Apply(c, s, a), ip, v) == AdmittedRequests(s, ip, v);
    } else {
      OneMoved(AdmittedRequests(s, ip, v), AdmittedRequests(Apply(c, s, a), ip, v), a.r);
    }
  }

  predicate AllClean(acts: seq<Action>) { forall i :: 0 <= i < |acts| ==> Clean(acts[i]) }

  /** In every run the admissions and the pending requests fit into the room; in a clean one they fill it. */
  lemma {:induction false} SeatsRun(c: Config, s: State, acts: seq<Action>, s': State, ip: Ip, v: nat)
    requires Inv(c, s) && c.window >= 1 && Run(c, s, acts, s')
    ensures |Pending(s'.requests, c.maxRequests, ip, v)| + Admissions(c, s, acts, ip, v) + Room(c, s, ip, v)
         <= |Pending(s.requests, c.maxRequests, ip, v)| + Room(c, s', ip, v)
    ensures AllClean(acts) ==>
      |Pending(s'.requests, c.maxRequests, ip, v)| + Admissions(c, s, acts, ip, v) + Room(c, s, ip, v)
      == |Pending(s.requests, c.maxRequests, ip, v)| + Room(c, s', ip, v)
    ensures |AdmittedRequests(s', ip, v)| <= |AdmittedRequests(s, ip, v)| + Admissions(c, s, acts, ip, v)
    ensures AllClean(acts) ==>
      |AdmittedRequests(s', ip, v)| == |AdmittedRequests(s, ip, v)| + Admissions(c, s, acts, ip, v)
    decreases |acts|
  {
    if acts != [] {
      SeatsStep(c, s, acts[0], ip, v);
      AdmittedStep(c, s, acts[0], ip, v);
      HistoryStep(c, s, acts[0]);
      ExpiriesStep(c, s, acts[0]);
      OutcomesStep(c, s, acts[0]);
      assert AllClean(acts) ==> Clean(acts[0]) && AllClean(acts[1..]);
      SeatsRun(c, Apply(c, s, acts[0]), acts[1..], s', ip, v);
    }
  }

  lemma SeatsFromInit(c: Config, acts: seq<Action>, s: State, ip: Ip, v: nat)
    requires Run(c, INIT, acts, s) && c.window >= 1 && c.maxRequests >= 0
    ensures |Pending(s.requests, c.maxRequests, ip, v)| + Admissions(c, INIT, acts, ip, v) <=
      Min(InWindow(s.hits, ip, v), c.maxRequests)
    ensures AllClean(acts) ==>
      |Pending(s.requests, c.maxRequests, ip, v)| + Admissions(c, INIT, acts, ip, v) ==
        Min(InWindow(s.hits, ip, v), c.maxRequests)
    ensures |AdmittedRequests(s, ip, v)| <= Admissions(c, INIT, acts, ip, v)
    ensures AllClean(acts) ==> |AdmittedRequests(s, ip, v)| == Admissions(c, INIT, acts, ip, v)
  {
    InvRun(c, INIT, acts, s);
    LatestCounts(c.window, c.maxRequests, s.hits, ip, v);
    SeatsRun(c, INIT, acts, s, ip, v);
    assert Pending(INIT.requests, c.maxRequests, ip, v) == {} && AdmittedRequests(INIT, ip, v) == {};
  }

  /** On one window's counter there are at most maxRequests admissions ever, restarts of the service included. */
  lemma AtMostMaxPerWindow(c: Config, acts: seq<Action>, s: State, ip: Ip, v: nat)
    requires Run(c, INIT, acts, s) && c.window >= 1 && c.maxRequests >= 0
    ensures Admissions(c, INIT, acts, ip, v) <= Min(InWindow(s.hits, ip, v), c.maxRequests)
    ensures |AdmittedRequests(s, ip, v)| <= c.maxRequests
  {
    SeatsFromInit(c, acts, s, ip, v);
  }

  // ---- exactly the first ones are admitted ----

  ghost predicate Taken(requests: map<Rid, Request>, h: Hit) {
    exists r :: r in requests && Place(requests[r]) == Some((h.ip, h.window, h.count))
  }

  ghost predicate AllTaken(s: State) { forall i :: 0 <= i < |s.hits| ==> Taken(s.requests, s.hits[i]) }

  lemma TakenStep(c: Config, s: State, a: Action, h: Hit)
    requires Enabled(c, s, a) && Clean(a) && Taken(s.requests, h)
    ensures Taken(RequestsNext(c, s, a), h)
  {
    var r :| r in s.requests && Place(s.requests[r]) == Some((h.ip, h.window, h.count));
    assert Place(RequestsNext(c, s, a)[r]) == Place(s.requests[r]);
  }

  lemma AllTakenStep(c: Config, s: State, a: Action)
    requires Enabled(c, s, a) && Clean(a) && AllTaken(s) && Expiries(s)
    ensures AllTaken(Apply(c, s, a))
  {
    var s' := Apply(c, s, a);
    forall i | 0 <= i < |s'.hits| ensures Taken(s'.requests, s'.hits[i]) {
      if i < |s.hits| {
        TakenStep(c, s, a, s.hits[i]);
      } else {
        var ip := s.requests[a.r].ip;
        assert Place(s'.requests[a.r]) == Some((ip, WindowOf(s, ip).ordinal, CountAfter(s, ip)));
      }
    }
  }

  lemma {:induction false} AllTakenRun(c: Config, s: State, acts: seq<Action>, s': State)
    requires Inv(c, s) && c.window >= 1 && Run(c, s, acts, s') && AllClean(acts) && AllTaken(s)
    ensures AllTaken(s')
    decreases |acts|
  {
    if acts != [] {
      AllTakenStep(c, s, acts[0]);
      HistoryStep(c, s, acts[0]);
      ExpiriesStep(c, s, acts[0]);
      OutcomesStep(c, s, acts[0]);
      AllTakenRun(c, Apply(c, s, acts[0]), acts[1..], s');
    }
  }

  /** Some request of the window was admitted, or rejected, on the n-th INCR. */
  ghost predicate Decided(s: State, ip: Ip, v: nat, n: int, admitted: bool) {
    exists r :: r in s.requests && s.requests[r] == (if admitted then Admitted(ip, v, n) else Rejected(ip, v, n))
  }

  predicate AllDecided(s: State, ip: Ip, v: nat) {
    forall r :: r in s.requests && Undecided(s.requests[r]) ==> !PlacedIn(s.requests[r], ip, v)
  }

  lemma TakenIsDecided(c: Config, s: State, h: Hit)
    requires Taken(s.requests, h) && Outcomes(c, s) && AllDecided(s, h.ip, h.window)
    ensures Decided(s, h.ip, h.window, h.count, h.count <= c.maxRequests)
  {
    var r :| r in s.requests && Place(s.requests[r]) == Some((h.ip, h.window, h.count));
    assert !Undecided(s.requests[r]);
  }

  lemma HitIsDecided(c: Config, s: State, i: nat)
    requires Inv(c, s) && AllTaken(s) && i < |s.hits| && AllDecided(s, s.hits[i].ip, s.hits[i].window)
    ensures var h, n := s.hits[i], InWindow(s.hits[..i], s.hits[i].ip, s.hits[i].window) + 1;
      Decided(s, h.ip, h.window, n, n <= c.maxRequests)
  {
    CountIsRank(c.window, s.hits, i);
    TakenIsDecided(c, s, s.hits[i]);
  }

  /** Of every INCR of the window, in INCR order, the request was admitted if it was among the first maxRequests,
      and rejected otherwise. */
  ghost predicate FirstServed(s: State, max: int, ip: Ip, v: nat) {
    forall i :: 0 <= i < |s.hits| && s.hits[i].ip == ip && s.hits[i].window == v ==>
      ByPlace(s, max, ip, v, InWindow(s.hits[..i], ip, v) + 1)
  }

  ghost predicate ByPlace(s: State, max: int, ip: Ip, v: nat, n: int) { Decided(s, ip, v, n, n <= max) }

  lemma AllHitsDecided(c: Config, s: State, ip: Ip, v: nat)
    requires Inv(c, s) && AllTaken(s) && AllDecided(s, ip, v)
    ensures FirstServed(s, c.maxRequests, ip, v)
  {
    forall i | 0 <= i < |s.hits| && s.hits[i].ip == ip && s.hits[i].window == v
      ensures ByPlace(s, c.maxRequests, ip, v, InWindow(s.hits[..i], ip, v) + 1)
    {
      HitIsDecided(c, s, i);
    }
  }

  lemma NobodyPending(s: State, max: int, ip: Ip, v: nat)
    requires AllDecided(s, ip, v)
    ensures Pending(s.requests, max, ip, v) == {}
  {
  }

  /** Window exactness: without restarts and INCR errors, once every request of the window has been decided, those
      of its first min(n, maxRequests) INCRs have been admitted, those of all later ones rejected, and there were
      no other admissions; in whatever order the concurrent requests decided. */
  lemma FirstAreAdmitted(c: Config, acts: seq<Action>, s: State, ip: Ip, v: nat)
    requires Run(c, INIT, acts, s) && AllClean(acts) && c.window >= 1 && c.maxRequests >= 0 && AllDecided(s, ip, v)
    ensures |AdmittedRequests(s, ip, v)| == Min(InWindow(s.hits, ip, v), c.maxRequests)
    ensures FirstServed(s, c.maxRequests, ip, v)
  {
    SeatsFromInit(c, acts, s, ip, v);
    NobodyPending(s, c.maxRequests, ip, v);
    InvRun(c, INIT, acts, s);
    AllTakenRun(c, INIT, acts, s);
    AllHitsDecided(c, s, ip, v);
  }
}
