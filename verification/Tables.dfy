/** The repositories over PostgreSQL tables, and the tables of the protocols as what these repositories hold after
    the same statements. One statement is one atomic change. */
module Tables {
  import opened Replies
  import opened TtlStore
  import opened CacheAside
  import NP = NotificationPool

  // ---- the orders table ----

  datatype Statement =
    | InsertOrder(id: OrderId, email: string, amount: int)
    | SetStatus(id: OrderId, status: string)

  /** The row that a history of effective statements leaves: as inserted, with the status written last. */
  function Row(log: seq<Statement>, id: OrderId): Option<Order> {
    if log == [] then None
    else
      var last, before := log[|log| - 1], Row(log[..|log| - 1], id);
      if last.id != id then before
      else match last
        case InsertOrder(_, email, amount) => Some(Order(id, email, amount, PENDING))
        case SetStatus(_, status) => if before.Some? then Some(before.value.(status := status)) else None
  }

  lemma RowAppend(log: seq<Statement>, s: Statement)
    ensures forall id :: id != s.id ==> Row(log + [s], id) == Row(log, id)
    ensures s.InsertOrder? ==> Row(log + [s], s.id) == Some(Order(s.id, s.email, s.amount, PENDING))
    ensures s.SetStatus? && Row(log, s.id).Some? ==>
      Row(log + [s], s.id) == Some(Row(log, s.id).value.(status := s.status))
    ensures s.SetStatus? && Row(log, s.id).None? ==> Row(log + [s], s.id) == None
  {
    assert (log + [s])[..|log|] == log;
  }

  predicate Untouched(log: seq<Statement>, from: nat, id: OrderId) {
    forall j :: from <= j < |log| ==> log[j].id != id
  }

  lemma {:induction false} UntouchedRow(log: seq<Statement>, from: nat, id: OrderId)
    requires from <= |log| && Untouched(log, from, id)
    ensures Row(log, id) == Row(log[..from], id)
  {
    if from < |log| {
      UntouchedRow(log[..|log| - 1], from, id);
      assert log[..|log| - 1][..from] == log[..from];
    } else {
      assert log[..from] == log;
    }
  }

  /** A new order stays pending, with its data, until somebody writes its status; the last status written stands. */
  lemma LastStatusStands(log: seq<Statement>, j: nat)
    requires j < |log| && Untouched(log, j + 1, log[j].id)
    ensures log[j].InsertOrder? ==> Row(log, log[j].id) == Some(Order(log[j].id, log[j].email, log[j].amount, PENDING))
    ensures log[j].SetStatus? && Row(log[..j], log[j].id).Some? ==>
      Row(log, log[j].id) == Some(Row(log[..j], log[j].id).value.(status := log[j].status))
  {
    UntouchedRow(log, j + 1, log[j].id);
    assert log[..j + 1] == log[..j] + [log[j]];
    RowAppend(log[..j], log[j]);
  }

  ghost predicate Holds(rows: map<OrderId, Order>, log: seq<Statement>) {
    forall id :: Row(log, id) == (if id in rows then Some(rows[id]) else None)
  }

  class OrderRepository {
    var rows: map<OrderId, Order>
    var nextId: OrderId             // the SERIAL sequence
    ghost var log: seq<Statement>   // the statements that took effect

    ghost predicate Valid()
      reads this
    {
      && Holds(rows, log)
      && forall i :: 0 <= i < |log| && log[i].InsertOrder? ==> log[i].id < nextId
    }

    constructor ()
      ensures Valid() && log == [] && nextId == 1
    {
      rows, nextId, log := map[], 1, [];
    }

    /** INSERT ... RETURNING id, under an identifier that no insert has had; only a success reports it. */
    method CreateOrder(email: string, amount: int, r: Reply) returns (id: OrderId, err: bool)
      requires Valid()
      modifies this
      ensures Valid() && (err <==> r.Failed?) && (err ==> id == 0)
      ensures log == old(log) + (if Applied(r) then [InsertOrder(old(nextId), email, amount)] else [])
      ensures !err ==> id == old(nextId)
      ensures forall i :: 0 <= i < |old(log)| && old(log)[i].InsertOrder? ==> old(log)[i].id != old(nextId)
    {
      var k := nextId;
      nextId := nextId + 1;
      if Applied(r) {
        rows := rows[k := Order(k, email, amount, PENDING)];
        RowAppend(log, InsertOrder(k, email, amount));
        log := log + [InsertOrder(k, email, amount)];
      }
      match r
      case Done => return k, false;
      case Failed(_) => return 0, true;
    }

    /** UPDATE ... WHERE id; a missing row is no error. */
    method UpdateOrderStatus(id: OrderId, status: string, r: Reply) returns (err: bool)
      requires Valid()
      modifies this
      ensures Valid() && nextId == old(nextId) && (err <==> r.Failed?)
      ensures log == old(log) + (if Applied(r) then [SetStatus(id, status)] else [])
    {
      if Applied(r) {
        if id in rows { rows := rows[id := rows[id].(status := status)]; }
        RowAppend(log, SetStatus(id, status));
        log := log + [SetStatus(id, status)];
      }
      err := r.Failed?;
    }

    /** What was inserted under the identifier, with the status written last; an error if nothing was. */
    method GetOrder(id: OrderId, fails: bool) returns (order: Option<Order>)
      requires Valid()
      ensures !fails ==> order == Row(log, id)
      ensures fails ==> order.None?
    {
      order := if fails || id !in rows then None else Some(rows[id]);
    }
  }

  /** The statements that take effect in a run of the order service. */
  function Statements(c: Config, s: State, acts: seq<Action>): seq<Statement>
    decreases |acts|
  {
    if acts == [] || !Enabled(c, s, acts[0]) then []
    else StatementOf(s, acts[0]) + Statements(c, Apply(c, s, acts[0]), acts[1..])
  }

  function StatementOf(s: State, a: Action): seq<Statement> {
    match a
    case Insert(t, r) =>
      if t in s.creators && s.creators[t].Inserting? && Applied(r)
      then [InsertOrder(s.nextId, s.creators[t].email, s.creators[t].amount)] else []
    case Update(t, r) =>
      if t in s.creators && s.creators[t].Updating? && Applied(r)
      then [SetStatus(s.creators[t].id, NewStatus(s.creators[t].reply))] else []
    case _ => []
  }

  lemma StatementStep(c: Config, s: State, a: Action, log: seq<Statement>)
    requires Enabled(c, s, a) && Holds(s.rows, log)
    ensures Holds(Apply(c, s, a).rows, log + StatementOf(s, a))
  {
    if StatementOf(s, a) == [] {
      assert log + [] == log;
      assert Apply(c, s, a).rows == s.rows;
    } else {
      var st := StatementOf(s, a)[0];
      RowAppend(log, st);
      forall id ensures Row(log + [st], id) ==
        (if id in Apply(c, s, a).rows then Some(Apply(c, s, a).rows[id]) else None) {
        assert Row(log, id) == (if id in s.rows then Some(s.rows[id]) else None);
      }
    }
  }

  /** The orders table of the cache-aside protocol is, over every run, the table that this repository holds after
      the same statements. */
  lemma {:induction false} ProtocolUsesRepository(c: Config, s: State, log: seq<Statement>, acts: seq<Action>,
      s': State)
    requires Run(c, s, acts, s') && Holds(s.rows, log)
    ensures Holds(s'.rows, log + Statements(c, s, acts))
    decreases |acts|
  {
    if acts == [] {
      assert log + Statements(c, s, acts) == log;
    } else {
      var t, first := Apply(c, s, acts[0]), StatementOf(s, acts[0]);
      StatementStep(c, s, acts[0], log);
      ProtocolUsesRepository(c, t, log + first, acts[1..], s');
      Associate(log, first, Statements(c, t, acts[1..]));
      assert Statements(c, s, acts) == first + Statements(c, t, acts[1..]);
    }
  }

  lemma Associate(p: seq<Statement>, q: seq<Statement>, r: seq<Statement>)
    ensures p + q + r == p + (q + r)
  {
  }

  // ---- processed_events ----

  /** The table with its history: the identifiers whose INSERT took effect, in order, repetitions included. */
  class IdempotencyStore {
    var processed: set<string>
    ghost var log: seq<string>

    ghost predicate Valid()
      reads this
    {
      forall e :: e in processed <==> e in log
    }

    constructor ()
      ensures Valid() && log == []
    {
      processed, log := {}, [];
    }

    /** Whether an earlier MarkProcessed of the identifier took effect. */
    method IsDuplicate(eventId: string, fails: bool) returns (dup: bool, err: bool)
      requires Valid()
      ensures err <==> fails
      ensures dup <==> !fails && eventId in log
    {
      err := fails;
      dup := !err && eventId in processed;
    }

    /** ON CONFLICT DO NOTHING: marking twice is no error and forgets nothing. */
    method MarkProcessed(eventId: string, r: Reply) returns (err: bool)
      requires Valid()
      modifies this
      ensures Valid() && (err <==> r.Failed?)
      ensures log == old(log) + (if Applied(r) then [eventId] else [])
      ensures eventId in old(log) ==> processed == old(processed)
    {
      if Applied(r) {
        processed := processed + {eventId};
        log := log + [eventId];
      }
      err := r.Failed?;
    }
  }

  /** The events whose processed_events INSERT takes effect in a run of the worker pool. */
  function Recorded(c: NP.Config, s: NP.State, acts: seq<NP.Action>): seq<string>
    decreases |acts|
  {
    if acts == [] || !NP.Enabled(c, s, acts[0]) then []
    else
      var first := if acts[0].Record? && acts[0].ok then [s.proc.workers[acts[0].w].e] else [];
      first + Recorded(c, NP.Apply(c, s, acts[0]), acts[1..])
  }

  /** The processed_events table of the worker pool is, over every run, what this store holds after the same marks. */
  lemma {:induction false} PoolUsesStore(c: NP.Config, s: NP.State, acts: seq<NP.Action>, s': NP.State)
    requires NP.Run(c, s, acts, s')
    ensures forall e :: e in s'.rows <==> e in s.rows || e in Recorded(c, s, acts)
    decreases |acts|
  {
    if acts != [] { PoolUsesStore(c, NP.Apply(c, s, acts[0]), acts[1..], s'); }
  }
}
