/** ProcessPayment and CreatePayment, written as the payment service writes them, over the shared table and
    broker. Before each of its own steps a call may be interrupted by any steps of other calls; every contract
    holds for all such interleavings. */
module PaymentService {
  import opened Replies
  import opened Payments

  predicate By(rpc: Rpc, a: Action) {
    (a.Begin? || a.Insert? || a.Commit? || a.Rollback? || a.Publish?) && a.rpc == rpc
  }

  /** The steps of a schedule taken by one call. */
  function Own(acts: seq<Action>, rpc: Rpc): seq<Action> {
    if acts == [] then []
    else Own(acts[..|acts| - 1], rpc) + (if By(rpc, acts[|acts| - 1]) then [acts[|acts| - 1]] else [])
  }

  /** What the transaction met. */
  datatype TxLog = BeginFailed | InsertFailed | CommitFailed(applied: bool) | TxDone

  /** What follows BEGIN. */
  function Statements(rpc: Rpc, l: TxLog): seq<Action> {
    match l
    case BeginFailed => []
    case InsertFailed => [Insert(rpc, false)]
    case CommitFailed(applied) => [Insert(rpc, true), Commit(rpc, Failed(applied))]
    case TxDone => [Insert(rpc, true), Commit(rpc, Done)]
  }

  /** Every transaction that began and did not commit is rolled back, once, on the way out. */
  function TxScript(rpc: Rpc, l: TxLog): seq<Action> {
    [Begin(rpc, !l.BeginFailed?)] + Statements(rpc, l) +
      (if l.InsertFailed? || l.CommitFailed? then [Rollback(rpc)] else [])
  }

  datatype Log = Aborted(tx: TxLog) | Went(e: EventId, publish: Publication)

  /** Publishing comes after the commit, and nothing follows it. */
  function Script(rpc: Rpc, l: Log): seq<Action> {
    match l
    case Aborted(tx) => TxScript(rpc, tx)
    case Went(e, publish) => TxScript(rpc, TxDone) + [Publish(rpc, e, publish)]
  }

  datatype Response = Completed(status: string) | Error

  /** The call has a committed payment. */
  ghost predicate Paid(s: State, rpc: Rpc) {
    exists id :: id in s.payments && id in s.payer && s.payer[id] == rpc
  }

  class PaymentHandler {
    const rpc: Rpc
    var st: State
    ghost var trace: seq<Action>

    ghost predicate Valid()
      reads this
    {
      Run(INIT, trace, st) && Inv(st) && rpc in st.calls
    }

    ghost function Mine(): seq<Action>
      reads this
    {
      Own(trace, rpc)
    }

    /** One call, whose request has just arrived. */
    constructor (rpc: Rpc, req: Request)
      ensures Valid() && Mine() == [] && this.rpc == rpc && st.calls == map[rpc := Requested(req)]
    {
      this.rpc := rpc;
      st, trace := Apply(INIT, Receive(rpc, req)), [Receive(rpc, req)];
      RunStep(INIT, [], INIT, Receive(rpc, req));
      assert [] + [Receive(rpc, req)] == [Receive(rpc, req)];
      ReceivedOnly(rpc, req);
    }

    method Act(a: Action)
      requires Valid() && Enabled(st, a)
      modifies this
      ensures Valid() && st == Apply(old(st), a)
      ensures Mine() == old(Mine()) + (if By(rpc, a) then [a] else [])
    {
      RunStep(INIT, trace, st, a);
      CorrespondingStep(st, a);
      UniqueStep(st, a);
      st := Apply(st, a);
      trace := trace + [a];
      assert trace[..|trace| - 1] == old(trace);
    }

    /** Any number of steps of the other calls, as long as the process lives. */
    method Interfere()
      requires Valid()
      modifies this
      ensures Valid() && Mine() == old(Mine()) && st.calls[rpc] == old(st).calls[rpc]
      ensures Paid(st, rpc) <==> old(Paid(st, rpc))
    {
      var n: nat :| true;
      for i := 0 to n
        invariant Valid() && Mine() == old(Mine()) && st.calls[rpc] == old(st).calls[rpc]
        invariant Paid(st, rpc) <==> old(Paid(st, rpc))
      {
        var a: Action := *;
        if Enabled(st, a) && !By(rpc, a) && !a.Crash? {
          OthersLeaveMe(st, a, rpc);
          Act(a);
        }
      }
    }

    method BeginTx(ok: bool)
      requires Valid() && st.calls[rpc].Requested?
      modifies this
      ensures Valid() && Mine() == old(Mine()) + [Begin(rpc, ok)] && !Paid(st, rpc)
      ensures st.calls[rpc] == if ok then Began(old(st).calls[rpc].req) else Refused(old(st).calls[rpc].req)
    {
      Interfere();
      Unpaid(st, rpc);
      PaysNothing(st, Begin(rpc, ok));
      Act(Begin(rpc, ok));
    }

    method InsertRow(ok: bool)
      requires Valid() && st.calls[rpc].Began?
      modifies this
      ensures Valid() && Mine() == old(Mine()) + [Insert(rpc, ok)] && !Paid(st, rpc)
      ensures st.calls[rpc].req == old(st).calls[rpc].req
      ensures if ok then st.calls[rpc].Inserted? else st.calls[rpc].Aborting?
    {
      Interfere();
      Unpaid(st, rpc);
      PaysNothing(st, Insert(rpc, ok));
      Act(Insert(rpc, ok));
    }

    method CommitTx(r: Reply)
      requires Valid() && st.calls[rpc].Inserted?
      modifies this
      ensures Valid() && Mine() == old(Mine()) + [Commit(rpc, r)] && (Paid(st, rpc) <==> Applied(r))
      ensures var x := old(st).calls[rpc];
        st.calls[rpc] == if r.Done? then Committed(x.req, x.id) else Aborting(x.req)
    {
      Interfere();
      Unpaid(st, rpc);
      Commits(st, rpc, r);
      Act(Commit(rpc, r));
    }

    method RollbackTx()
      requires Valid() && st.calls[rpc].Aborting?
      modifies this
      ensures Valid() && Mine() == old(Mine()) + [Rollback(rpc)] && (Paid(st, rpc) <==> old(Paid(st, rpc)))
      ensures st.calls[rpc] == Refused(old(st).calls[rpc].req)
    {
      Interfere();
      PaysNothing(st, Rollback(rpc));
      Act(Rollback(rpc));
    }

    /** INSERT and COMMIT inside the open transaction; an error may be a commit whose reply was lost. */
    method InsertAndCommit(inserted: bool, committed: Reply) returns (id: PaymentId, err: bool, log: TxLog)
      requires Valid() && st.calls[rpc].Began?
      modifies this
      ensures Valid() && Mine() == old(Mine()) + Statements(rpc, log)
      ensures !inserted ==> log == InsertFailed
      ensures inserted && committed.Failed? ==> log == CommitFailed(committed.applied)
      ensures inserted && committed.Done? ==> log == TxDone
      ensures err <==> !(inserted && committed.Done?)
      ensures err ==> id == 0 && st.calls[rpc] == Aborting(old(st).calls[rpc].req)
      ensures !err ==> st.calls[rpc] == Committed(old(st).calls[rpc].req, id)
      ensures Paid(st, rpc) <==> inserted && Applied(committed)
    {
      InsertRow(inserted);
      if !inserted {
        return 0, true, InsertFailed;
      }
      id := st.calls[rpc].id;
      CommitTx(committed);
      match committed {
        case Failed(applied) => return 0, true, CommitFailed(applied);
        case Done => return id, false, TxDone;
      }
    }

    /** The identifier of the new row, or an error. No transaction is left open. An error means that there is no
        row, unless it was the commit whose reply was lost. */
    method CreatePayment(begun: bool, inserted: bool,
        committed: Reply) returns (id: PaymentId, err: bool, log: TxLog)
      requires Valid() && st.calls[rpc].Requested?
      modifies this
      ensures Valid() && Mine() == old(Mine()) + TxScript(rpc, log)
      ensures err <==> !(begun && inserted && committed.Done?)
      ensures !begun ==> log == BeginFailed
      ensures begun && !inserted ==> log == InsertFailed
      ensures begun && inserted && committed.Failed? ==> log == CommitFailed(committed.applied)
      ensures !err ==> log == TxDone && st.calls[rpc] == Committed(old(st).calls[rpc].req, id)
      ensures err ==> id == 0 && st.calls[rpc] == Refused(old(st).calls[rpc].req)
      ensures !err ==> id in st.payments && var req := old(st).calls[rpc].req;
        st.payments[id] == Payment(id, req.orderId, req.amount, "completed")
      ensures Paid(st, rpc) <==> begun && inserted && Applied(committed)
    {
      BeginTx(begun);
      if !begun {
        return 0, true, BeginFailed;
      }
      id, err, log := InsertAndCommit(inserted, committed);
      if err {
        RollbackTx();
      } else {
        PaidRow(st, rpc);
      }
    }

    /** Its error is logged only. */
    method PublishEvent(publish: Publication) returns (e: EventId)
      requires Valid() && st.calls[rpc].Committed?
      modifies this
      ensures Valid() && Mine() == old(Mine()) + [Publish(rpc, e, publish)] && (Paid(st, rpc) <==> old(Paid(st, rpc)))
      ensures st.calls[rpc] == Answered(old(st).calls[rpc].req, old(st).calls[rpc].id, publish.taken)
      ensures Reported(st, st.calls[rpc].id) <==> publish.taken
      ensures publish.taken ==> e in st.events && var x := old(st).calls[rpc];
        st.events[e] == PaymentEvent(x.id, x.req.orderId, x.req.amount, x.req.email, "completed")
    {
      Interfere();
      FreshId(st.events.Keys);
      e :| e !in st.events;
      PaysNothing(st, Publish(rpc, e, publish));
      Act(Publish(rpc, e, publish));
      Published(st, rpc);
    }

    /** "completed" exactly when the transaction reported success; what became of the event does not matter. The
        payment exists also when an error is reported for a commit that took effect. */
    method ProcessPayment(begun: bool, inserted: bool, committed: Reply,
        publish: Publication) returns (r: Response, log: Log)
      requires Valid() && st.calls[rpc].Requested?
      modifies this
      ensures Valid() && Mine() == old(Mine()) + Script(rpc, log)
      ensures begun && inserted && committed.Done? ==> r == Completed("completed")
      ensures !(begun && inserted && committed.Done?) ==> r == Error && log.Aborted?
      ensures Paid(st, rpc) <==> begun && inserted && Applied(committed)
      ensures begun && inserted && committed.Done? ==> var req, x := old(st).calls[rpc].req, st.calls[rpc];
        && log.Went? && log.publish == publish && x.Answered? && x.req == req
        && x.id in st.payments && st.payments[x.id] == Payment(x.id, req.orderId, req.amount, "completed")
        && (Reported(st, x.id) <==> publish.taken)
        && (publish.taken ==>
              log.e in st.events
              && st.events[log.e] == PaymentEvent(x.id, req.orderId, req.amount, req.email, "completed"))
    {
      var id, err, tx := CreatePayment(begun, inserted, committed);
      if err {
        return Error, Aborted(tx);
      }
      var e := PublishEvent(publish);
      PaidRow(st, rpc);
      return Completed(COMPLETED), Went(e, publish);
    }
  }

  lemma ReceivedOnly(rpc: Rpc, req: Request)
    ensures Own([Receive(rpc, req)], rpc) == []
  {
    assert [Receive(rpc, req)][..0] == [];
  }

  lemma Unpaid(s: State, rpc: Rpc)
    requires Inv(s) && rpc in s.calls && (s.calls[rpc].Requested? || s.calls[rpc].Began? || s.calls[rpc].Inserted?)
    ensures !Paid(s, rpc)
  {
    forall id | id in s.payments && id in s.payer ensures s.payer[id] != rpc { assert RowOk(s, id); }
  }

  lemma Commits(s: State, rpc: Rpc, r: Reply)
    requires Enabled(s, Commit(rpc, r)) && !Paid(s, rpc)
    ensures Paid(Apply(s, Commit(rpc, r)), rpc) <==> Applied(r)
  {
    if Applied(r) { assert Apply(s, Commit(rpc, r)).payer[s.calls[rpc].id] == rpc; }
  }

  lemma PaysNothing(s: State, a: Action)
    requires Enabled(s, a) && !a.Commit? && !a.Crash?
    ensures Paid(Apply(s, a), a.rpc) <==> Paid(s, a.rpc)
  {
  }

  lemma PaidRow(s: State, rpc: Rpc)
    requires Inv(s) && rpc in s.calls && (s.calls[rpc].Committed? || s.calls[rpc].Answered?)
    ensures s.calls[rpc].id in s.payments && s.payments[s.calls[rpc].id] == RowOf(s.calls[rpc].req, s.calls[rpc].id)
  {
    assert CallOk(s, rpc) && RowOk(s, s.calls[rpc].id);
  }

  /** A string that is longer than every one in a finite set. */
  lemma {:induction false} Longer(used: set<EventId>) returns (n: nat)
    ensures forall e :: e in used ==> |e| < n
  {
    n := 0;
    if used != {} {
      var e :| e in used;
      var k := Longer(used - {e});
      n := if |e| < k then k else |e| + 1;
    }
  }

  lemma FreshId(used: set<EventId>)
    ensures exists e :: e !in used
  {
    var n := Longer(used);
    var e := seq(n, _ => 'a');
    assert e !in used;
  }

  lemma Published(s: State, rpc: Rpc)
    requires Inv(s) && rpc in s.calls && s.calls[rpc].Answered?
    ensures Reported(s, s.calls[rpc].id) <==> s.calls[rpc].published
  {
    assert CallOk(s, rpc);
    if s.calls[rpc].published { PublishedIsReported(s, rpc); }
    forall e | e in s.events && s.events[e].payment == s.calls[rpc].id ensures s.calls[rpc].published {
      assert EventOk(s, e);
    }
  }

  lemma OthersLeaveMe(s: State, a: Action, rpc: Rpc)
    requires Enabled(s, a) && Inv(s) && !By(rpc, a) && !a.Crash? && rpc in s.calls
    ensures rpc in Apply(s, a).calls && Apply(s, a).calls[rpc] == s.calls[rpc]
    ensures Paid(Apply(s, a), rpc) <==> Paid(s, rpc)
  {
    var s' := Apply(s, a);
    if a.Commit? { assert CallOk(s, a.rpc); }
    forall id | id in s.payments
      ensures id in s.payer && id in s'.payments && id in s'.payer && s'.payer[id] == s.payer[id] {
      assert RowOk(s, id);
    }
    if Paid(s, rpc) {
      var id :| id in s.payments && id in s.payer && s.payer[id] == rpc;
      assert s'.payer[id] == rpc;
    }
  }
}
