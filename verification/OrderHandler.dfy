/** CreateOrder and GetOrder, written as the order service writes them, over the shared table and cache. What the
    stores and the payment service reply to a call is an argument of it.
    Before each of its own steps a call may be interrupted by any steps of the clock, of other calls and of
    the goroutines that populate the cache; every contract holds for all such interleavings. */
module OrderService {
  import opened Replies
  import opened TtlStore
  import opened CacheAside
  import opened CacheCoherence

  predicate CreatorStep(a: Action) { a.BeginCreate? || a.Insert? || a.Respond? || a.Update? || a.Invalidate? }
  predicate ReaderStep(a: Action) { a.BeginGet? || a.Lookup? || a.Query? }

  /** The steps of a schedule taken by the CreateOrder call, or by the GetOrder call, `t`. */
  predicate By(creating: bool, t: Call, a: Action) {
    if creating then CreatorStep(a) && a.t == t else ReaderStep(a) && a.t == t
  }

  function Own(acts: seq<Action>, creating: bool, t: Call): seq<Action> {
    if acts == [] then []
    else Own(acts[..|acts| - 1], creating, t) + (if By(creating, t, acts[|acts| - 1]) then [acts[|acts| - 1]] else [])
  }

  datatype CreateResult = CreatedOrder(id: OrderId, status: string) | CreateError

  /** What a CreateOrder call met. */
  datatype CreateLog = InsertFailed(applied: bool) | Went(id: OrderId, reply: PayReply, updated: Reply, deleted: Reply)

  /** Insert, pay, write the status, invalidate: always in this order, whatever fails after the insert. */
  function CreateScript(t: Call, email: string, amount: int, l: CreateLog): seq<Action> {
    match l
    case InsertFailed(applied) => [BeginCreate(t, email, amount), Insert(t, Failed(applied))]
    case Went(_, reply, updated, deleted) =>
      [BeginCreate(t, email, amount), Insert(t, Done), Respond(t, reply), Update(t, updated), Invalidate(t, deleted)]
  }

  datatype GetResult = Found(order: Order) | GetError

  /** What a GetOrder call met: only a missed or failed lookup goes on to the table. */
  datatype GetLog = Hit | Missed(lookupFailed: bool, queryFailed: bool)

  function GetScript(t: Call, id: OrderId, l: GetLog): seq<Action> {
    match l
    case Hit => [BeginGet(t, id), Lookup(t, false)]
    case Missed(lookupFailed, queryFailed) => [BeginGet(t, id), Lookup(t, lookupFailed), Query(t, queryFailed)]
  }

  class OrderHandler {
    const cfg: Config
    const self: Call
    const creating: bool
    var st: State
    ghost var trace: seq<Action>

    ghost predicate Valid()
      reads this
    {
      Run(cfg, INIT, trace, st)
    }

    ghost function Mine(): seq<Action>
      reads this
    {
      Own(trace, creating, self)
    }

    constructor (cfg: Config, self: Call, creating: bool)
      ensures Valid() && st == INIT && Mine() == []
      ensures this.cfg == cfg && this.self == self && this.creating == creating
    {
      this.cfg, this.self, this.creating := cfg, self, creating;
      st, trace := INIT, [];
    }

    method Act(a: Action)
      requires Valid() && Enabled(cfg, st, a)
      modifies this
      ensures Valid() && st == Apply(cfg, old(st), a)
      ensures Mine() == old(Mine()) + (if By(creating, self, a) then [a] else [])
    {
      RunStep(cfg, INIT, trace, st, a);
      st := Apply(cfg, st, a);
      trace := trace + [a];
      assert trace[..|trace| - 1] == old(trace);
    }

    /** Any number of steps of everybody else, as long as the service lives. */
    method Interfere()
      requires Valid()
      modifies this
      ensures Valid() && Mine() == old(Mine())
      ensures creating && self in old(st).creators ==>
        self in st.creators && st.creators[self] == old(st).creators[self]
      ensures creating && self in old(st).creators && Owned(old(st).creators[self]).Some?
              ==> OwnRow(st, old(st), old(st).creators[self].id)
      ensures !creating && self in old(st).readers ==> self in st.readers && st.readers[self] == old(st).readers[self]
      ensures forall id :: old(Coherent(st, id)) ==> Coherent(st, id) && st.rows[id] == old(st).rows[id]
    {
      var n: nat :| true;
      for i := 0 to n
        invariant Valid() && Mine() == old(Mine())
        invariant creating && self in old(st).creators ==>
          self in st.creators && st.creators[self] == old(st).creators[self]
        invariant creating && self in old(st).creators && Owned(old(st).creators[self]).Some?
                  ==> OwnRow(st, old(st), old(st).creators[self].id)
        invariant !creating && self in old(st).readers ==>
          self in st.readers && st.readers[self] == old(st).readers[self]
        invariant forall id :: old(Coherent(st, id)) ==> Coherent(st, id) && st.rows[id] == old(st).rows[id]
      {
        var a: Action := *;
        if Enabled(cfg, st, a) && !By(creating, self, a) && !a.Crash? {
          OthersLeaveMe(cfg, st, a, creating, self, trace);
          Act(a);
        }
      }
    }

    /** repo.CreateOrder; the row may exist although an error is reported. */
    method InsertRow(email: string, amount: int, inserted: Reply) returns (id: OrderId)
      requires Valid() && creating && self !in st.creators
      modifies this
      ensures Valid() && Mine() == old(Mine()) + [BeginCreate(self, email, amount), Insert(self, inserted)]
      ensures inserted.Done? ==> self in st.creators && st.creators[self] == Paying(id)
      ensures inserted.Done? ==> id in st.rows && st.rows[id] == Order(id, email, amount, "pending")
    {
      Act(BeginCreate(self, email, amount));
      Interfere();
      id := st.nextId;
      Act(Insert(self, inserted));
    }

    /** The ProcessPayment call, seen from here: it answers with a status, or fails. */
    method Pay(reply: PayReply)
      requires Valid() && creating && self in st.creators && st.creators[self].Paying?
      modifies this
      ensures Valid() && Mine() == old(Mine()) + [Respond(self, reply)]
      ensures self in st.creators && st.creators[self] == Updating(old(st).creators[self].id, reply)
      ensures OwnRow(st, old(st), old(st).creators[self].id)
    {
      Interfere();
      Act(Respond(self, reply));
    }

    /** UpdateOrderStatus: its error is discarded. */
    method UpdateStatus(updated: Reply)
      requires Valid() && creating && self in st.creators && st.creators[self].Updating?
      modifies this
      ensures Valid() && Mine() == old(Mine()) + [Update(self, updated)]
      ensures self in st.creators &&
        st.creators[self] == Invalidating(old(st).creators[self].id, old(st).creators[self].reply)
      ensures var id := old(st).creators[self].id;
        id in old(st).rows ==> id in st.rows && st.rows[id] == old(st).rows[id].(status := st.rows[id].status)
      ensures var x := old(st).creators[self];
        x.id in old(st).rows ==>
          && (!Applied(updated) ==> st.rows[x.id].status == old(st).rows[x.id].status)
          && (Applied(updated) && x.reply.Paid? ==> st.rows[x.id].status == x.reply.status)
          && (Applied(updated) && x.reply.RpcError? ==> st.rows[x.id].status == "payment_failed")
    {
      Interfere();
      Act(Update(self, updated));
    }

    /** invalidateCache: an error is logged only. */
    method InvalidateCache(deleted: Reply)
      requires Valid() && creating && self in st.creators && st.creators[self].Invalidating?
      modifies this
      ensures Valid() && Mine() == old(Mine()) + [Invalidate(self, deleted)]
      ensures var id := old(st).creators[self].id;
        OwnRow(st, old(st), id) && Settled(st, id) && (cfg.caching && Applied(deleted) ==> id !in st.cache)
      ensures self in st.creators
      ensures var x := old(st).creators[self];
        && (x.reply.Paid? ==> st.creators[self] == Created(x.id, x.reply.status))
        && (x.reply.RpcError? ==> st.creators[self] == CreateFailed)
    {
      Interfere();
      ReachedBy(cfg, trace, st);
      InvalidatingIsSettled(cfg, st, self);
      SettledStep(cfg, st, Invalidate(self, deleted), st.creators[self].id);
      Act(Invalidate(self, deleted));
    }

    /** Steps 2 to 4 of CreateOrder, the same on both branches. */
    method PayAndSettle(reply: PayReply, updated: Reply, deleted: Reply)
      requires Valid() && creating && self in st.creators && st.creators[self].Paying?
      requires st.creators[self].id in st.rows
      modifies this
      ensures Valid() &&
        Mine() == old(Mine()) + [Respond(self, reply), Update(self, updated), Invalidate(self, deleted)]
      ensures var id := old(st).creators[self].id;
        && Settled(st, id) && (cfg.caching && Applied(deleted) ==> id !in st.cache)
        && st.rows[id] == old(st).rows[id].(status := st.rows[id].status)
        && (!Applied(updated) ==> st.rows[id].status == old(st).rows[id].status)
        && (Applied(updated) && reply.Paid? ==> st.rows[id].status == reply.status)
        && (Applied(updated) && reply.RpcError? ==> st.rows[id].status == "payment_failed")
      ensures self in st.creators
      ensures reply.Paid? ==> st.creators[self] == Created(old(st).creators[self].id, reply.status)
      ensures reply.RpcError? ==> st.creators[self] == CreateFailed
    {
      Pay(reply);
      UpdateStatus(updated);
      InvalidateCache(deleted);
    }

    /** An inserted order is answered with its identifier and the status that the payment service reported, and with
        an error if there is none. The row holds the requested data; its status is the reported one,
        "payment_failed" without one, or still "pending" if the update was lost; it will not change any more; and its
        cache entry is gone if the delete took effect. */
    method CreateOrder(email: string, amount: int, inserted: Reply, reply: PayReply, updated: Reply,
        deleted: Reply) returns (r: CreateResult, log: CreateLog)
      requires Valid() && creating && self !in st.creators
      modifies this
      ensures Valid() && Mine() == old(Mine()) + CreateScript(self, email, amount, log)
      ensures inserted.Failed? ==> r == CreateError && log == InsertFailed(inserted.applied)
      ensures inserted.Done? ==> log.Went? && log == Went(log.id, reply, updated, deleted) && self in st.creators
      ensures inserted.Done? && reply.Paid? ==> r == CreatedOrder(log.id, reply.status)
      ensures inserted.Done? && reply.Paid? ==> st.creators[self] == Created(log.id, reply.status)
      ensures inserted.Done? && reply.RpcError? ==> r == CreateError && st.creators[self] == CreateFailed
      ensures inserted.Done? ==>
        && log.id in st.rows && Settled(st, log.id)
        && st.rows[log.id] == Order(log.id, email, amount, st.rows[log.id].status)
        && (!Applied(updated) ==> st.rows[log.id].status == "pending")
        && (Applied(updated) && reply.Paid? ==> st.rows[log.id].status == reply.status)
        && (Applied(updated) && reply.RpcError? ==> st.rows[log.id].status == "payment_failed")
        && (cfg.caching && Applied(deleted) ==> log.id !in st.cache)
    {
      var id := InsertRow(email, amount, inserted);
      if inserted.Failed? {
        return CreateError, InsertFailed(inserted.applied);
      }
      PayAndSettle(reply, updated, deleted);
      log := Went(id, reply, updated, deleted);
      match reply
      case RpcError => return CreateError, log;
      case Paid(status) => return CreatedOrder(id, status), log;
    }

    /** cache.Get; an error is logged only and counts as a miss. */
    method LookUp(id: OrderId, failed: bool) returns (hit: bool)
      requires Valid() && !creating && self !in st.readers && self !in st.populates
      modifies this
      ensures Valid() && Mine() == old(Mine()) + [BeginGet(self, id), Lookup(self, failed)]
      ensures hit <==> cfg.caching && !failed && id in st.cache
      ensures self in st.readers
      ensures hit ==> st.readers[self] == Got(id, st.cache[id].value) && Answers(st, self, id)
      ensures !hit ==> st.readers[self] == Querying(id)
      ensures old(Coherent(st, id)) ==> Coherent(st, id) && st.rows[id] == old(st).rows[id]
      ensures old(Coherent(st, id)) && hit ==> st.readers[self].order == old(st).rows[id]
    {
      KeepsCoherent(cfg, trace, st, BeginGet(self, id), id);
      Act(BeginGet(self, id));
      Interfere();
      hit := cfg.caching && !failed && id in st.cache;
      KeepsCoherent(cfg, trace, st, Lookup(self, failed), id);
      Act(Lookup(self, failed));
      if hit { ReturnsSnapshot(cfg, trace, st, self); }
    }

    /** repo.GetOrder, with the goroutine that will cache the row. */
    method QueryRow(id: OrderId, failed: bool) returns (found: bool)
      requires Valid() && !creating && self in st.readers && st.readers[self] == Querying(id)
      modifies this
      ensures Valid() && Mine() == old(Mine()) + [Query(self, failed)]
      ensures found <==> !failed && id in st.rows
      ensures self in st.readers
      ensures found ==> st.readers[self] == Got(id, st.rows[id]) && Answers(st, self, id)
      ensures found && cfg.caching ==> self in st.populates && st.populates[self] == st.rows[id]
      ensures old(Coherent(st, id)) && found ==> st.readers[self].order == old(st).rows[id]
    {
      Interfere();
      found := !failed && id in st.rows;
      Act(Query(self, failed));
      if found { ReturnsSnapshot(cfg, trace, st, self); }
    }

    /** The cached order on a hit, or else the row as it was read, which a goroutine will then cache; an error only if
        the query failed or there is no such row. The order returned is the current row or that row while it was
        pending; if the state was coherent when the call began, it is the row. */
    method GetOrder(id: OrderId, lookupFailed: bool, queryFailed: bool) returns (r: GetResult, log: GetLog)
      requires Valid() && !creating && self !in st.readers && self !in st.populates
      modifies this
      ensures Valid() && Mine() == old(Mine()) + GetScript(self, id, log)
      ensures log == Hit || log == Missed(lookupFailed, queryFailed)
      ensures log.Hit? ==>
        cfg.caching && !lookupFailed && id in st.cache && r == Found(st.cache[id].value)
      ensures log.Missed? && !queryFailed && id in st.rows ==> r == Found(st.rows[id])
      ensures log.Missed? && (queryFailed || id !in st.rows) ==> r == GetError
      ensures log.Missed? && r.Found? && cfg.caching ==> self in st.populates && st.populates[self] == r.order
      ensures r.Found? ==> self in st.readers && st.readers[self] == Got(id, r.order)
      ensures r.Found? ==> r.order.id == id && Snapshot(st.rows, r.order)
      ensures old(Coherent(st, id)) && r.Found? ==> r.order == old(st).rows[id]
    {
      var hit := LookUp(id, lookupFailed);
      if hit {
        return Found(st.readers[self].order), Hit;
      }
      log := Missed(lookupFailed, queryFailed);
      var found := QueryRow(id, queryFailed);
      if !found {
        return GetError, log;
      }
      return Found(st.readers[self].order), log;
    }
  }

  /** The call returns an order `id` that is the current row or its predecessor. */
  ghost predicate Answers(s: State, t: Call, id: OrderId) {
    t in s.readers && s.readers[t].Got? && s.readers[t].order.id == id && Snapshot(s.rows, s.readers[t].order)
  }

  /** The row `id` is as it was. */
  ghost predicate OwnRow(s: State, before: State, id: OrderId) {
    id in before.rows ==> id in s.rows && s.rows[id] == before.rows[id]
  }

  lemma InvTraced(c: Config, trace: seq<Action>, s: State)
    requires Run(c, INIT, trace, s)
    ensures Inv(c, s)
  {
    InvRun(c, INIT, trace, s);
  }

  lemma OthersLeaveMe(c: Config, s: State, a: Action, creating: bool, t: Call, trace: seq<Action>)
    requires Run(c, INIT, trace, s) && Enabled(c, s, a) && !By(creating, t, a) && !a.Crash?
    ensures var s' := Apply(c, s, a);
      && (creating && t in s.creators ==> t in s'.creators && s'.creators[t] == s.creators[t])
      && (creating && t in s.creators && Owned(s.creators[t]).Some? ==> OwnRow(s', s, s.creators[t].id))
      && (!creating && t in s.readers ==> t in s'.readers && s'.readers[t] == s.readers[t])
      && (forall id :: Coherent(s, id) ==> Coherent(s', id) && s'.rows[id] == s.rows[id])
  {
    InvTraced(c, trace, s);
    if creating && t in s.creators && Owned(s.creators[t]).Some? { OthersLeaveMyRow(c, s, a, t); }
    forall id | Coherent(s, id) ensures Coherent(Apply(c, s, a), id) && Apply(c, s, a).rows[id] == s.rows[id] {
      CoherentStep(c, s, a, id);
      SettledStep(c, s, a, id);
    }
  }

  lemma OthersLeaveMyRow(c: Config, s: State, a: Action, t: Call)
    requires Enabled(c, s, a) && Ownership(s) && !By(true, t, a) && t in s.creators && Owned(s.creators[t]).Some?
    ensures OwnRow(Apply(c, s, a), s, s.creators[t].id)
  {
    OtherOwners(s, t);
    assert OwnsPending(s, s.creators[t]);
  }

  lemma KeepsCoherent(c: Config, trace: seq<Action>, s: State, a: Action, id: OrderId)
    requires Run(c, INIT, trace, s) && Enabled(c, s, a)
    ensures Coherent(s, id) ==> Coherent(Apply(c, s, a), id) && Apply(c, s, a).rows[id] == s.rows[id]
  {
    InvTraced(c, trace, s);
    if Coherent(s, id) {
      CoherentStep(c, s, a, id);
      SettledStep(c, s, a, id);
    }
  }

  lemma ReturnsSnapshot(c: Config, trace: seq<Action>, s: State, t: Call)
    requires Run(c, INIT, trace, s) && t in s.readers && s.readers[t].Got?
    ensures Answers(s, t, s.readers[t].id)
  {
    InvTraced(c, trace, s);
  }
}
