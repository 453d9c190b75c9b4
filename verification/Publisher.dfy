/** The payment service's publisher and the notification service's side of the declarations, over the shared
    broker. Before each declaration a service may be interrupted by any steps of the others. */
module Messaging {
  import opened Replies
  import opened TtlStore
  import opened Topology

  predicate By(c: Client, a: Action) {
    (a.Connect? || a.Declare? || a.Publish? || a.Disconnect?) && a.c == c
  }

  /** The steps of a schedule taken by one service. */
  function Own(acts: seq<Action>, c: Client): seq<Action> {
    if acts == [] then []
    else Own(acts[..|acts| - 1], c) + (if By(c, acts[|acts| - 1]) then [acts[|acts| - 1]] else [])
  }

  /** How many declarations succeeded, and what ended them if not the last one. */
  datatype DeclareLog = DeclareLog(done: nat, error: Option<bool>)

  /** The log of the first n replies: all successes up to the first error. */
  predicate UpToError(replies: seq<Reply>, n: nat, l: DeclareLog)
    requires n <= |replies|
  {
    && l.done <= n && (forall i :: 0 <= i < l.done ==> replies[i].Done?)
    && (l.error.None? ==> l.done == n)
    && (l.error.Some? ==> l.done < n && replies[l.done] == Failed(l.error.value))
  }

  function DeclareScript(c: Client, l: DeclareLog): seq<Action> {
    seq(l.done, _ => Declare(c, Done)) + (if l.error.Some? then [Declare(c, Failed(l.error.value))] else [])
  }

  /** One more declaration lengthens the log or ends it. */
  lemma LogGrows(c: Client, before: seq<Action>, replies: seq<Reply>, n: nat, l: DeclareLog)
    requires n < |replies| && UpToError(replies, n, DeclareLog(n, None))
    requires match replies[n]
      case Done => l == DeclareLog(n + 1, None)
      case Failed(applied) => l == DeclareLog(n, Some(applied))
    ensures UpToError(replies, n + 1, l)
    ensures before + DeclareScript(c, DeclareLog(n, None)) + [Declare(c, replies[n])] == before + DeclareScript(c, l)
  {
  }

  class Publisher {
    const self: Client
    var st: State
    ghost var trace: seq<Action>

    ghost predicate Valid()
      reads this
    {
      Run(INIT, trace, st) && Inv(st)
    }

    ghost function Mine(): seq<Action>
      reads this
    {
      Own(trace, self)
    }

    constructor (self: Client)
      ensures Valid() && st == INIT && Mine() == [] && this.self == self
    {
      this.self := self;
      st, trace := INIT, [];
    }

    method Act(a: Action)
      requires Valid() && Enabled(st, a)
      modifies this
      ensures Valid() && st == Apply(old(st), a)
      ensures Mine() == old(Mine()) + (if By(self, a) then [a] else [])
    {
      RunStep(INIT, trace, st, a);
      InvStep(st, a);
      st := Apply(st, a);
      trace := trace + [a];
      assert trace[..|trace| - 1] == old(trace);
    }

    /** Any number of steps of everybody else. */
    method Interfere()
      requires Valid()
      modifies this
      ensures Valid() && SameSession(old(st), st, self) && Mine() == old(Mine())
    {
      var n: nat :| true;
      for i := 0 to n
        invariant Valid() && SameSession(old(st), st, self) && Mine() == old(Mine())
      {
        var a: Action := *;
        if Enabled(st, a) && !By(self, a) {
          OthersLeaveMe(st, a, self);
          Act(a);
        }
      }
    }

    /** One declaration. The broker never refuses it; it fails only with the connection. */
    method DeclareNext(r: Reply)
      requires Valid() && Declaring(st, self)
      modifies this
      ensures Valid() && Mine() == old(Mine()) + [Declare(self, r)]
      ensures r.Failed? ==> self !in st.sessions
      ensures r.Done? ==>
        self in st.sessions && st.sessions[self] == old(st).sessions[self].(pc := old(st).sessions[self].pc + 1)
      ensures r.Done? ==> InEffect(st.broker, old(Next(st, self)))
    {
      Interfere();
      NextIsAccepted(st.broker, st.sessions[self]);
      Declares(st, self, r);
      Act(Declare(self, r));
    }

    /** The next declaration of a session that has done `done` of them. */
    method DeclareTo(ghost before: seq<Action>, done: nat, replies: seq<Reply>) returns (log: DeclareLog)
      requires Valid() && Declaring(st, self) && st.sessions[self].pc == done < |replies|
      requires Mine() == before + DeclareScript(self, DeclareLog(done, None))
      requires UpToError(replies, done, DeclareLog(done, None))
      modifies this
      ensures Valid() && Mine() == before + DeclareScript(self, log) && UpToError(replies, done + 1, log)
      ensures log.error.Some? ==> self !in st.sessions
      ensures log.error.None? ==> self in st.sessions && st.sessions[self] == old(st).sessions[self].(pc := done + 1)
    {
      DeclareNext(replies[done]);
      match replies[done] {
        case Done => log := DeclareLog(done + 1, None);
        case Failed(applied) => log := DeclareLog(done, Some(applied));
      }
      LogGrows(self, before, replies, done, log);
    }

    /** Three declarations in a row: an exchange, a queue and the binding between them. */
    method DeclareThree(ghost before: seq<Action>, done: nat, replies: seq<Reply>) returns (log: DeclareLog)
      requires Valid() && self in st.sessions && st.sessions[self].pc == done && done + 3 <= |st.sessions[self].script|
      requires Mine() == before + DeclareScript(self, DeclareLog(done, None)) && done + 3 <= |replies|
      requires UpToError(replies, done, DeclareLog(done, None))
      modifies this
      ensures Valid() && Mine() == before + DeclareScript(self, log) && UpToError(replies, done + 3, log)
      ensures log.error.Some? ==> self !in st.sessions
      ensures log.error.None? ==> self in st.sessions && st.sessions[self] == old(st).sessions[self].(pc := done + 3)
    {
      log := DeclareTo(before, done, replies);
      if log.error.Some? { return; }
      log := DeclareTo(before, done + 1, replies);
      if log.error.Some? { return; }
      log := DeclareTo(before, done + 2, replies);
    }

    /** The dead-letter exchange, its queue and binding first, then the exchange, queue and binding for events; the
        first error ends the construction, with nothing declared after it. Without one the topology is complete. */
    method NewPublisher(replies: seq<Reply>) returns (err: bool, log: DeclareLog)
      requires Valid() && self !in st.sessions && |replies| == 6
      modifies this
      ensures Valid() && Mine() == old(Mine()) + [Connect(self, true)] + DeclareScript(self, log)
      ensures err <==> exists i :: 0 <= i < 6 && replies[i].Failed?
      ensures log.done <= 6 && (forall i :: 0 <= i < log.done ==> replies[i].Done?)
      ensures err ==> log.done < 6 && log.error.Some? && replies[log.done] == Failed(log.error.value)
      ensures !err ==> log == DeclareLog(6, None) && Constructed(st, self)
      ensures err <==> self !in st.sessions
    {
      Act(Connect(self, true));
      ghost var before := Mine();
      log := DeclareThree(before, 0, replies);
      if log.error.None? {
        log := DeclareThree(before, 3, replies);
      }
      err := log.error.Some?;
    }

    /** NewNotificationConsumer: without an error the queue exists afterwards, with its dead-letter arguments. */
    method NewConsumer(reply: Reply) returns (err: bool)
      requires Valid() && self !in st.sessions
      modifies this
      ensures Valid() && Mine() == old(Mine()) + [Connect(self, false), Declare(self, reply)]
      ensures err <==> reply.Failed?
      ensures !err ==>
        InEffect(st.broker, Queue("payment.completed", DeadLetterTo("payments.dlx", "payment.completed")))
    {
      Act(Connect(self, false));
      ghost var next := Next(st, self);
      DeclareNext(reply);
      err := reply.Failed?;
    }

    /** If the broker takes the event, one copy of it gets into the main queue and nothing anywhere else. The
        channel is not in confirm mode: the result does not tell whether the broker did. */
    method PublishEvent(e: EventId, r: Publication) returns (err: bool)
      requires Valid() && Constructed(st, self)
      modifies this
      ensures Valid() && Constructed(st, self) && Mine() == old(Mine()) + [Publish(self, e, r)] && (err <==> r.error)
      ensures Of(st.broker, "payment.completed") ==
        old(Of(st.broker, "payment.completed")) + (if r.taken then multiset{e} else multiset{})
      ensures Of(st.broker, "payment.dead_letter") == old(Of(st.broker, "payment.dead_letter"))
      ensures st.acked == old(st).acked
    {
      assert SessionOk(st.broker, st.sessions[self]) && InEffect(st.broker, st.sessions[self].script[5]);
      Routing(st.broker);
      assert InEffect(st.broker, PUBLISHER[4]);
      Arrives(st.broker, MAIN_QUEUE, e, DEAD_QUEUE);
      Act(Publish(self, e, r));
      err := r.error;
    }
  }

  predicate SameSession(s: State, s': State, c: Client) {
    (c in s'.sessions <==> c in s.sessions) && (c in s.sessions ==> s'.sessions[c] == s.sessions[c])
  }

  lemma OthersLeaveMe(s: State, a: Action, c: Client)
    requires Enabled(s, a) && !By(c, a)
    ensures SameSession(s, Apply(s, a), c)
  {
  }

  lemma Declares(s: State, c: Client, r: Reply)
    requires Enabled(s, Declare(c, r)) && Accepted(s.broker, Next(s, c))
    ensures var s' := Apply(s, Declare(c, r));
      && (r.Failed? ==> c !in s'.sessions)
      && (r.Done? ==> c in s'.sessions && s'.sessions[c] == s.sessions[c].(pc := s.sessions[c].pc + 1))
      && (r.Done? ==> InEffect(s'.broker, Next(s, c)))
  {
    NowInEffect(s.broker, Next(s, c));
  }
}
