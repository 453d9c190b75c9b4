/** What the cache can hold, when it is coherent for good, and how long it can be stale. */
module CacheCoherence {
  import opened Replies
  import opened Counting
  import opened TtlStore
  import opened CacheAside

  // ---- one status change per row ----

  /** The row a CreateOrder call still works on. */
  function Owned(x: Creator): Option<OrderId> {
    if x.Paying? || x.Updating? || x.Invalidating? then Some(x.id) else None
  }

  /** A CreateOrder call that has not yet written the status of its row. */
  predicate StillToUpdate(x: Creator) { x.Paying? || x.Updating? }

  ghost predicate SoleOwners(creators: map<Call, Creator>) {
    forall t, u ::
      t in creators && u in creators && Owned(creators[t]).Some? && Owned(creators[t]) == Owned(creators[u]) ==> t == u
  }

  ghost predicate OwnsPending(s: State, x: Creator) {
    Owned(x).Some? ==> x.id in s.rows && (StillToUpdate(x) ==> s.rows[x.id].status == PENDING)
  }

  ghost predicate Ownership(s: State) {
    && (forall id :: id in s.rows ==> id < s.nextId && s.rows[id].id == id)
    && (forall t :: t in s.creators ==> OwnsPending(s, s.creators[t]))
    && SoleOwners(s.creators)
  }

  /** `o` is the current row of its id, or that row before its status was written. */
  predicate Snapshot(rows: map<OrderId, Order>, o: Order) {
    o.id in rows && (o == rows[o.id] || o == rows[o.id].(status := PENDING))
  }

  ghost predicate Snapshots(s: State) {
    && (forall id :: id in s.cache ==> s.cache[id].value.id == id && Snapshot(s.rows, s.cache[id].value))
    && (forall t :: t in s.populates ==> Snapshot(s.rows, s.populates[t]))
    && (forall t :: t in s.readers && s.readers[t].Got? ==>
      s.readers[t].order.id == s.readers[t].id && Snapshot(s.rows, s.readers[t].order))
  }

  lemma OwnersStep(c: Config, s: State, a: Action, t: Call)
    requires Enabled(c, s, a) && Ownership(s) && t in Apply(c, s, a).creators
    ensures OwnsPending(Apply(c, s, a), Apply(c, s, a).creators[t])
    ensures var x' := Owned(Apply(c, s, a).creators[t]);
      x'.None? || (a.Insert? && t == a.t && x' == Some(s.nextId)) ||
        (t in s.creators && Owned(s.creators[t]) == x' && x'.value < s.nextId)
  {
    if t in s.creators {
      assert OwnsPending(s, s.creators[t]);
      if a.Update? { assert OwnsPending(s, s.creators[a.t]); }
    }
  }

  lemma OwnershipStep(c: Config, s: State, a: Action)
    requires Enabled(c, s, a) && Ownership(s)
    ensures Ownership(Apply(c, s, a))
  {
    var s' := Apply(c, s, a);
    forall t | t in s'.creators ensures OwnsPending(s', s'.creators[t]) { OwnersStep(c, s, a, t); }
    forall t, u | t in s'.creators && u in s'.creators && Owned(s'.creators[t]).Some? &&
      Owned(s'.creators[t]) == Owned(s'.creators[u])
      ensures t == u
    {
      OwnersStep(c, s, a, t);
      OwnersStep(c, s, a, u);
    }
  }

  /** A snapshot stays one: a row changes only from pending, and only its status. */
  lemma SnapshotKept(c: Config, s: State, a: Action, o: Order)
    requires Enabled(c, s, a) && Ownership(s) && Snapshot(s.rows, o)
    ensures Snapshot(RowsNext(c, s, a), o)
  {
    if a.Update? { assert OwnsPending(s, s.creators[a.t]); }
  }

  lemma SnapshotsStep(c: Config, s: State, a: Action)
    requires Enabled(c, s, a) && Ownership(s) && Snapshots(s)
    ensures Snapshots(Apply(c, s, a))
  {
    var s' := Apply(c, s, a);
    forall o | Snapshot(s.rows, o) ensures Snapshot(s'.rows, o) { SnapshotKept(c, s, a, o); }
  }

  /** Every cached entry was written by a fill that still backs it; being read does not extend it. */
  ghost predicate Backed(c: Config, fills: seq<Fill>, cell: Cell<Order>) {
    exists i :: 0 <= i < |fills| && fills[i].order == cell.value && cell.expiry == Deadline(fills[i].at, c.ttl)
  }

  ghost predicate CacheBacked(c: Config, s: State) {
    && (forall id :: id in s.cache ==> Backed(c, s.fills, s.cache[id]) && LiveAt(s.cache[id], s.now))
    && (forall i :: 0 <= i < |s.fills| ==> s.fills[i].at <= s.now)
  }

  lemma BackedGrows(c: Config, fills: seq<Fill>, f: Fill, cell: Cell<Order>)
    requires Backed(c, fills, cell)
    ensures Backed(c, fills + [f], cell)
  {
    var i :| 0 <= i < |fills| && fills[i].order == cell.value && cell.expiry == Deadline(fills[i].at, c.ttl);
    assert (fills + [f])[i] == fills[i];
  }

  lemma CacheBackedStep(c: Config, s: State, a: Action)
    requires Enabled(c, s, a) && CacheBacked(c, s)
    ensures CacheBacked(c, Apply(c, s, a))
  {
    var s' := Apply(c, s, a);
    if a.Populate? && Applied(a.r) {
      var f := Fill(s.populates[a.t], s.now);
      assert (s.fills + [f])[|s.fills|] == f;
      forall id | id in s'.cache ensures Backed(c, s'.fills, s'.cache[id]) {
        if id in s.cache { BackedGrows(c, s.fills, f, s.cache[id]); }
      }
    }
  }

  ghost predicate Inv(c: Config, s: State) {
    Ownership(s) && Snapshots(s) && CacheBacked(c, s)
  }

  lemma {:induction false} InvRun(c: Config, s: State, acts: seq<Action>, s': State)
    requires Inv(c, s) && Run(c, s, acts, s')
    ensures Inv(c, s')
    decreases |acts|
  {
    if acts != [] {
      OwnershipStep(c, s, acts[0]);
      SnapshotsStep(c, s, acts[0]);
      CacheBackedStep(c, s, acts[0]);
      InvRun(c, Apply(c, s, acts[0]), acts[1..], s');
    }
  }

  lemma InvReachable(c: Config, s: State)
    requires Reachable(c, s)
    ensures Inv(c, s)
  {
    var acts :| Leads(c, acts, s);
    InvRun(c, INIT, acts, s);
  }

  /** In every reachable state a cached entry, a pending fill and a returned order agree with the table on
      id, email and amount, and their status is the current one or "pending". */
  lemma CurrentOrPredecessor(c: Config, s: State)
    requires Reachable(c, s)
    ensures forall id :: id in s.cache ==>
      id in s.rows && s.cache[id].value.(status := s.rows[id].status) == s.rows[id]
      && s.cache[id].value.status in {s.rows[id].status, PENDING}
    ensures forall t :: t in s.populates ==> Snapshot(s.rows, s.populates[t])
    ensures forall t :: t in s.readers && s.readers[t].Got? ==> Snapshot(s.rows, s.readers[t].order)
  {
    InvReachable(c, s);
  }

  // ---- settled rows ----

  /** The row exists and nobody is going to change it. */
  ghost predicate Settled(s: State, id: OrderId) {
    id in s.rows && id < s.nextId && forall t :: t in s.creators && StillToUpdate(s.creators[t]) ==>
      s.creators[t].id != id
  }

  lemma SettledStep(c: Config, s: State, a: Action, id: OrderId)
    requires Enabled(c, s, a) && Settled(s, id)
    ensures Settled(Apply(c, s, a), id) && Apply(c, s, a).rows[id] == s.rows[id]
  {
  }

  lemma OtherOwners(s: State, t: Call)
    requires Ownership(s) && t in s.creators && Owned(s.creators[t]).Some?
    ensures forall u :: u in s.creators && u != t && Owned(s.creators[u]).Some? ==> s.creators[u].id != s.creators[t].id
  {
    forall u | u in s.creators && u != t && Owned(s.creators[u]).Some? ensures s.creators[u].id != s.creators[t].id {
      assert Owned(s.creators[u]) != Owned(s.creators[t]);
    }
  }

  /** The call that created `id`, once past its update, leaves the row settled. */
  lemma UpdateSettles(c: Config, s: State, t: Call, r: Reply)
    requires Reachable(c, s) && Enabled(c, s, Update(t, r))
    ensures Settled(Apply(c, s, Update(t, r)), s.creators[t].id)
  {
    InvReachable(c, s);
    assert OwnsPending(s, s.creators[t]);
    OtherOwners(s, t);
  }

  predicate Stale(s: State, id: OrderId, o: Order)
    requires id in s.rows
  {
    o.id == id && o != s.rows[id]
  }

  /** The goroutines that hold an old version of the row and may still cache it. */
  function Holders(s: State, id: OrderId): set<Call>
    requires id in s.rows
  {
    set t | t in s.populates && Stale(s, id, s.populates[t])
  }

  // ---- coherence is absorbing ----

  ghost predicate Coherent(s: State, id: OrderId) {
    Settled(s, id) && Holders(s, id) == {} && (id in s.cache ==> s.cache[id].value == s.rows[id])
  }

  lemma CoherentStep(c: Config, s: State, a: Action, id: OrderId)
    requires Enabled(c, s, a) && Ownership(s) && Coherent(s, id)
    ensures Coherent(Apply(c, s, a), id)
  {
    var s' := Apply(c, s, a);
    SettledStep(c, s, a, id);
    forall t | t in s'.populates ensures !Stale(s', id, s'.populates[t]) {
      if t in s.populates && s'.populates[t] == s.populates[t] { assert t !in Holders(s, id); }
    }
    if a.Populate? { assert a.t !in Holders(s, id); }
  }

  /** Calls not among `before` that return an order `id` return `o`. */
  ghost predicate ReturnsFresh(s: State, before: map<Call, Reader>, id: OrderId, o: Order) {
    forall t :: t in s.readers && t !in before && s.readers[t].Got? && s.readers[t].id == id ==> s.readers[t].order == o
  }

  /** The calls that began after `s` return the row of `s`. */
  ghost predicate FreshSince(s: State, s': State, id: OrderId) {
    id in s.rows && ReturnsFresh(s', s.readers, id, s.rows[id])
  }

  lemma ReadsFreshStep(c: Config, s: State, a: Action, before: map<Call, Reader>, id: OrderId)
    requires Enabled(c, s, a) && Coherent(s, id) && ReturnsFresh(s, before, id, s.rows[id])
    ensures ReturnsFresh(Apply(c, s, a), before, id, s.rows[id])
  {
  }

  lemma {:induction false} CoherentReads(c: Config, s: State, before: map<Call, Reader>, acts: seq<Action>,
      s': State, id: OrderId)
    requires Inv(c, s) && Coherent(s, id) && Run(c, s, acts, s') && ReturnsFresh(s, before, id, s.rows[id])
    ensures Coherent(s', id) && s'.rows[id] == s.rows[id] && ReturnsFresh(s', before, id, s.rows[id])
    decreases |acts|
  {
    if acts != [] {
      var t := Apply(c, s, acts[0]);
      CoherentStep(c, s, acts[0], id);
      SettledStep(c, s, acts[0], id);
      ReadsFreshStep(c, s, acts[0], before, id);
      OwnershipStep(c, s, acts[0]);
      SnapshotsStep(c, s, acts[0]);
      CacheBackedStep(c, s, acts[0]);
      CoherentReads(c, t, before, acts[1..], s', id);
    }
  }

  /** Once nobody will change the row, no goroutine holds an old version of it, and the cache agrees with it,
      this stays so in every later state, and every GetOrder begun from then on returns the current row. */
  lemma CoherenceIsAbsorbing(c: Config, s: State, acts: seq<Action>, s': State, id: OrderId)
    requires Reachable(c, s) && Coherent(s, id) && Run(c, s, acts, s')
    ensures Coherent(s', id) && s'.rows[id] == s.rows[id] && FreshSince(s, s', id)
  {
    InvReachable(c, s);
    CoherentReads(c, s, s.readers, acts, s', id);
  }

  // ---- exactly when the cache serves no stale data ----

  /** Whatever happens from `s` on, no GetOrder begun later returns an outdated order `id`. */
  ghost predicate NeverServesStale(c: Config, s: State, id: OrderId) {
    forall acts, s' :: Run(c, s, acts, s') ==> FreshSince(s, s', id)
  }

  lemma UnusedCall(m: map<Call, Reader>, p: map<Call, Order>) returns (t: Call)
    ensures t !in m && t !in p
  {
    t := Above(m.Keys + p.Keys);
  }

  lemma {:induction false} Above(s: set<nat>) returns (n: nat)
    ensures forall x :: x in s ==> x < n
    decreases |s|
  {
    if s == {} {
      n := 0;
    } else {
      var x :| x in s;
      var k := Above(s - {x});
      n := if x < k then k else x + 1;
      forall y | y in s ensures y < n { assert y == x || y in s - {x}; }
    }
  }

  /** A stale entry is returned by the next reader. */
  lemma StaleEntryIsServed(c: Config, s: State, id: OrderId, mid: State, acts: seq<Action>)
    requires c.caching && id in s.rows && Run(c, s, acts, mid) && mid.readers == s.readers
    requires id in mid.cache && mid.cache[id].value != s.rows[id]
    ensures !NeverServesStale(c, s, id)
  {
    var t := UnusedCall(mid.readers, mid.populates);
    var a, b := BeginGet(t, id), Lookup(t, false);
    RunStep(c, s, acts, mid, a);
    var u := Apply(c, mid, a);
    assert u.readers[t] == Looking(id) && u.cache == mid.cache;
    RunStep(c, s, acts + [a], u, b);
    var v := Apply(c, u, b);
    assert v.readers[t] == Got(id, mid.cache[id].value);
    assert !FreshSince(s, v, id);
  }

  /** "This prevents serving stale data": for a settled row, every later read is fresh if and only if the
      state is coherent, that is, no goroutine is left with an old version and none is cached. In particular
      a successful invalidation suffices exactly if no such goroutine is outstanding. */
  lemma NeverServesStaleIff(c: Config, s: State, id: OrderId)
    requires Reachable(c, s) && c.caching && Settled(s, id)
    ensures NeverServesStale(c, s, id) <==> Coherent(s, id)
  {
    InvReachable(c, s);
    if Coherent(s, id) {
      forall acts, s' | Run(c, s, acts, s') ensures FreshSince(s, s', id) { CoherenceIsAbsorbing(c, s, acts, s', id); }
    } else if id in s.cache && s.cache[id].value != s.rows[id] {
      assert Run(c, s, [], s);
      StaleEntryIsServed(c, s, id, s, []);
    } else {
      var t :| t in Holders(s, id);
      var a := Populate(t, Done);
      assert Run(c, s, [], s);
      RunStep(c, s, [], s, a);
      assert [] + [a] == [a];
      StaleEntryIsServed(c, s, id, Apply(c, s, a), [a]);
    }
  }

  // ---- bounded staleness ----

  /** How many of the fills wrote an old version of `id`. */
  function StaleFills(fills: seq<Fill>, id: OrderId, row: Order): nat {
    if fills == [] then 0
    else StaleFills(fills[..|fills| - 1], id, row)
         + (if fills[|fills| - 1].order.id == id && fills[|fills| - 1].order != row then 1 else 0)
  }

  lemma HoldersStep(c: Config, s: State, a: Action, id: OrderId)
    requires Enabled(c, s, a) && Ownership(s) && Settled(s, id)
    ensures var s' := Apply(c, s, a);
      && s.fills <= s'.fills
      && |Holders(s', id)| + StaleFills(s'.fills, id, s.rows[id]) <=
        |Holders(s, id)| + StaleFills(s.fills, id, s.rows[id])
  {
    var s' := Apply(c, s, a);
    SettledStep(c, s, a, id);
    assert Holders(s', id) <= Holders(s, id);
    SubsetSize(Holders(s', id), Holders(s, id));
    if a.Populate? && Applied(a.r) {
      assert s'.fills[..|s'.fills| - 1] == s.fills;
      if a.t in Holders(s, id) {
        assert Holders(s', id) == Holders(s, id) - {a.t};
      }
    }
  }

  /** Once the status is written, stale fills are used up: what was cached stale since plus what may still
      be is at most what was outstanding at that moment. */
  lemma {:induction false} StaleFillsBounded(c: Config, s: State, acts: seq<Action>, s': State, id: OrderId)
    requires Inv(c, s) && Settled(s, id) && Run(c, s, acts, s')
    ensures Settled(s', id) && s'.rows[id] == s.rows[id] && s.fills <= s'.fills
    ensures |Holders(s', id)| + StaleFills(s'.fills, id, s.rows[id]) <=
      |Holders(s, id)| + StaleFills(s.fills, id, s.rows[id])
    decreases |acts|
  {
    if acts != [] {
      HoldersStep(c, s, acts[0], id);
      SettledStep(c, s, acts[0], id);
      OwnershipStep(c, s, acts[0]);
      SnapshotsStep(c, s, acts[0]);
      CacheBackedStep(c, s, acts[0]);
      StaleFillsBounded(c, Apply(c, s, acts[0]), acts[1..], s', id);
    }
  }

  /** The entry is the one of `s` (never rewritten since), or was written by a fill after the first `n`. */
  ghost predicate SameOrRefilled(c: Config, s: State, n: nat, s': State, id: OrderId) {
    id in s'.cache ==>
      || (id in s.cache && s'.cache[id] == s.cache[id])
      || (exists i :: n <= i < |s'.fills| && s'.fills[i].order == s'.cache[id].value
                      && s'.cache[id].expiry == Deadline(s'.fills[i].at, c.ttl))
  }

  lemma SameOrRefilledStep(c: Config, s: State, n: nat, mid: State, a: Action, id: OrderId)
    requires Enabled(c, mid, a) && n <= |mid.fills| && Snapshots(mid) && SameOrRefilled(c, s, n, mid, id)
    ensures SameOrRefilled(c, s, n, Apply(c, mid, a), id)
  {
    var s' := Apply(c, mid, a);
    assert mid.fills <= s'.fills;
    if id in s'.cache {
      if a.Populate? && Applied(a.r) && mid.populates[a.t].id == id {
        assert s'.fills[|mid.fills|] == Fill(mid.populates[a.t], mid.now);
      } else {
        assert id in mid.cache && s'.cache[id] == mid.cache[id];
        if !(id in s.cache && mid.cache[id] == s.cache[id]) {
          var i :| n <= i < |mid.fills| && mid.fills[i].order == mid.cache[id].value
                   && mid.cache[id].expiry == Deadline(mid.fills[i].at, c.ttl);
          assert s'.fills[i] == mid.fills[i];
        }
      }
    }
  }

  lemma {:induction false} SameOrRefilledRun(c: Config, s: State, n: nat, mid: State, acts: seq<Action>, s': State,
      id: OrderId)
    requires Inv(c, mid) && Run(c, mid, acts, s') && n <= |mid.fills| && SameOrRefilled(c, s, n, mid, id)
    ensures SameOrRefilled(c, s, n, s', id)
    decreases |acts|
  {
    if acts != [] {
      var t := Apply(c, mid, acts[0]);
      SameOrRefilledStep(c, s, n, mid, acts[0], id);
      assert mid.fills <= t.fills;
      OwnershipStep(c, mid, acts[0]);
      SnapshotsStep(c, mid, acts[0]);
      CacheBackedStep(c, mid, acts[0]);
      SameOrRefilledRun(c, s, n, t, acts[1..], s', id);
    }
  }

  /** One of the fills from the n-th on wrote an old version of the settled row, less than ttl ago. */
  ghost predicate StaleSince(c: Config, fills: seq<Fill>, n: nat, id: OrderId, row: Order, now: nat) {
    exists i :: n <= i < |fills| && fills[i].order.id == id && fills[i].order != row &&
      (c.ttl > 0 ==> now < fills[i].at + c.ttl)
  }

  lemma BackedIsStale(c: Config, fills: seq<Fill>, cell: Cell<Order>, row: Order, now: nat)
    requires Backed(c, fills, cell) && LiveAt(cell, now) && cell.value != row
    ensures StaleSince(c, fills, 0, cell.value.id, row, now)
  {
  }

  lemma RefillIsStale(c: Config, s: State, n: nat, s': State, id: OrderId, row: Order)
    requires SameOrRefilled(c, s, n, s', id) && id in s'.cache && s'.cache[id].value != row &&
      s'.cache[id].value.id == id
    requires LiveAt(s'.cache[id], s'.now) && !(id in s.cache && s'.cache[id] == s.cache[id])
    ensures StaleSince(c, s'.fills, n, id, row, s'.now)
  {
  }

  /** How long a settled order can be served stale: an entry that is stale later on is the entry of `s`, cached
      by a fill before `s`, or was cached stale after `s`; in both cases at most ttl ago. If the entry of `s` is
      gone (a successful invalidation) only the second case is left, and there are at most |Holders(s, id)| such
      fills. */
  lemma BoundedStaleness(c: Config, s: State, acts: seq<Action>, s': State, id: OrderId)
    requires Reachable(c, s) && Settled(s, id) && Run(c, s, acts, s')
    ensures id in s'.rows && s'.rows[id] == s.rows[id] && s.fills <= s'.fills
    ensures StaleFills(s'.fills, id, s.rows[id]) <= StaleFills(s.fills, id, s.rows[id]) + |Holders(s, id)|
    ensures id in s'.cache && s'.cache[id].value != s.rows[id] ==>
      || (id in s.cache && s'.cache[id] == s.cache[id] && LiveAt(s.cache[id], s'.now)
          && Backed(c, s.fills, s.cache[id]) && StaleSince(c, s.fills, 0, id, s.rows[id], s'.now))
      || StaleSince(c, s'.fills, |s.fills|, id, s.rows[id], s'.now)
  {
    InvReachable(c, s);
    StaleFillsBounded(c, s, acts, s', id);
    SameOrRefilledRun(c, s, |s.fills|, s, acts, s', id);
    InvRun(c, s, acts, s');
    if id in s'.cache && s'.cache[id].value != s.rows[id] {
      if id in s.cache && s'.cache[id] == s.cache[id] {
        BackedIsStale(c, s.fills, s.cache[id], s.rows[id], s'.now);
      } else {
        RefillIsStale(c, s, |s.fills|, s', id, s.rows[id]);
      }
    }
  }

  /** A CreateOrder call about to invalidate works on a settled row. */
  lemma InvalidatingIsSettled(c: Config, s: State, t: Call)
    requires Reachable(c, s) && t in s.creators && s.creators[t].Invalidating?
    ensures Settled(s, s.creators[t].id)
  {
    InvReachable(c, s);
    assert OwnsPending(s, s.creators[t]);
    OtherOwners(s, t);
  }

  /** After a successful invalidation, stale data is served only within ttl of a stale fill that happened
      after it, and there are at most as many of those as goroutines held the old version at that moment. */
  lemma StalenessAfterInvalidation(c: Config, s: State, t: Call, u: State, acts: seq<Action>, s': State, id: OrderId)
    requires Reachable(c, s) && c.caching && Enabled(c, s, Invalidate(t, Done)) && id == s.creators[t].id
    requires u == Apply(c, s, Invalidate(t, Done)) && Run(c, u, acts, s')
    ensures id in s.rows && id in s'.rows && s'.rows[id] == s.rows[id]
    ensures StaleFills(s'.fills, id, s.rows[id]) <= StaleFills(s.fills, id, s.rows[id]) + |Holders(s, id)|
    ensures id in s'.cache && s'.cache[id].value != s.rows[id] ==>
      StaleSince(c, s'.fills, |s.fills|, id, s.rows[id], s'.now)
  {
    InvalidatingIsSettled(c, s, t);
    StepReachable(c, s, Invalidate(t, Done));
    SettledStep(c, s, Invalidate(t, Done), id);
    assert u.populates == s.populates && u.rows == s.rows && u.fills == s.fills && id !in u.cache;
    assert Holders(u, id) == Holders(s, id);
    BoundedStaleness(c, u, acts, s', id);
  }

  // ---- invalidation alone does not prevent stale reads ----

  lemma Inserted(c: Config) returns (s: State)
    ensures Reachable(c, s)
    ensures s == INIT.(rows := map[1 := Order(1, "a", 5, PENDING)], nextId := 2, creators := map[0 := Paying(1)])
  {
    ReachedBy(c, [], INIT);
    StepReachable(c, INIT, BeginCreate(0, "a", 5));
    var t := Apply(c, INIT, BeginCreate(0, "a", 5));
    assert t == INIT.(creators := map[0 := Inserting("a", 5)]);
    StepReachable(c, t, Insert(0, Done));
    s := Apply(c, t, Insert(0, Done));
  }

  lemma BeginsGet(c: Config, s: State, t: Call, id: OrderId) returns (s': State)
    requires Reachable(c, s) && t !in s.readers && t !in s.populates
    ensures Reachable(c, s') && s' == s.(readers := s.readers[t := Looking(id)])
  {
    StepReachable(c, s, BeginGet(t, id));
    s' := Apply(c, s, BeginGet(t, id));
  }

  lemma LooksUp(c: Config, s: State, t: Call, id: OrderId) returns (s': State)
    requires Reachable(c, s) && t in s.readers && s.readers[t] == Looking(id) && id !in s.cache
    ensures Reachable(c, s') && s' == s.(readers := s.readers[t := Querying(id)])
  {
    StepReachable(c, s, Lookup(t, false));
    s' := Apply(c, s, Lookup(t, false));
  }

  lemma Queries(c: Config, s: State, t: Call, id: OrderId) returns (s': State)
    requires Reachable(c, s) && c.caching && t in s.readers && s.readers[t] == Querying(id) && id in s.rows
    ensures Reachable(c, s')
    ensures s' == s.(readers := s.readers[t := Got(id, s.rows[id])], populates := s.populates[t := s.rows[id]])
  {
    StepReachable(c, s, Query(t, false));
    s' := Apply(c, s, Query(t, false));
  }

  lemma Overwrite<K, V>(m: map<K, V>, k: K, x: V, y: V)
    ensures m[k := x][k := y] == m[k := y]
  {
  }

  lemma MissCache(c: Config, s: State, t: Call, id: OrderId) returns (s': State)
    requires Reachable(c, s) && t !in s.readers && t !in s.populates && id !in s.cache
    ensures Reachable(c, s') && s' == s.(readers := s.readers[t := Querying(id)])
  {
    var u := BeginsGet(c, s, t, id);
    s' := LooksUp(c, u, t, id);
    Overwrite(s.readers, t, Looking(id), Querying(id));
  }

  lemma ReadRow(c: Config, s: State, t: Call, id: OrderId) returns (s': State)
    requires Reachable(c, s) && c.caching && t !in s.readers && t !in s.populates && id in s.rows && id !in s.cache
    ensures Reachable(c, s')
    ensures s' == s.(readers := s.readers[t := Got(id, s.rows[id])], populates := s.populates[t := s.rows[id]])
  {
    var u := MissCache(c, s, t, id);
    s' := Queries(c, u, t, id);
    Overwrite(s.readers, t, Querying(id), Got(id, s.rows[id]));
  }

  lemma WriteStatus(c: Config, s: State, t: Call, id: OrderId, status: string) returns (s': State)
    requires Reachable(c, s) && t in s.creators && s.creators[t] == Paying(id) && id in s.rows
    ensures Reachable(c, s')
    ensures s' ==
      s.(creators := s.creators[t := Invalidating(id, Paid(status))],
        rows := s.rows[id := s.rows[id].(status := status)])
  {
    StepReachable(c, s, Respond(t, Paid(status)));
    var u := Apply(c, s, Respond(t, Paid(status)));
    assert u == s.(creators := s.creators[t := Updating(id, Paid(status))]);
    StepReachable(c, u, Update(t, Done));
    s' := Apply(c, u, Update(t, Done));
    assert u.creators[t := Invalidating(id, Paid(status))] == s.creators[t := Invalidating(id, Paid(status))];
  }

  lemma CompleteOrder(c: Config, s: State, t: Call, id: OrderId, status: string) returns (s': State)
    requires Reachable(c, s) && c.caching && t in s.creators && s.creators[t] == Paying(id) && id in s.rows
    ensures Reachable(c, s')
    ensures s' ==
      s.(creators := s.creators[t := Created(id, status)], rows := s.rows[id := s.rows[id].(status := status)],
                     cache := Del(s.cache, id))
  {
    var u := WriteStatus(c, s, t, id, status);
    StepReachable(c, u, Invalidate(t, Done));
    s' := Apply(c, u, Invalidate(t, Done));
    assert u.creators[t := Created(id, status)] == s.creators[t := Created(id, status)];
  }

  /** A run in which the order is completed and its entry invalidated without any failure, and yet a later
      GetOrder returns "pending": a GetOrder had read the row before the update and caches it afterwards. */
  lemma InvalidationIsNotEnough(c: Config)
    requires c.caching
    ensures exists s :: Reachable(c, s) && 0 in s.creators && s.creators[0] == Created(1, "completed")
                        && 1 in s.rows && s.rows[1].status == "completed" && 1 !in s.cache
                        && Settled(s, 1) && !NeverServesStale(c, s, 1)
  {
    var t := Inserted(c);
    var u := ReadRow(c, t, 0, 1);
    var s := CompleteOrder(c, u, 0, 1, "completed");
    assert 0 in Holders(s, 1);
    NeverServesStaleIff(c, s, 1);
  }
}
