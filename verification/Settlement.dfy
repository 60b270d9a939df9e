/** Settlement: every handled command that is owed an answer is, at all times, in exactly one place. */
module Settlement {
  import opened Protocol
  import opened WorkflowModel
  import opened WorkflowInduction

  // ---------------------------------------------------------------------------------------------
  // The places a command can be in
  // ---------------------------------------------------------------------------------------------

  /** How many completions of `op` are deferred in `wp.callbacks`. */
  function DeferredCount(ds: seq<Deferred>, op: Op): nat
  {
    if ds == [] then 0 else One(ds[0].op == op) + DeferredCount(ds[1..], op)
  }

  /** How many answers to `op` have been pushed. */
  function AnswerCount(sent: seq<Sent>, op: Op): nat
  {
    if sent == [] then 0
    else AnswerCount(sent[..|sent| - 1], op) + One(sent[|sent| - 1].op == Some(op))
  }

  /** The operation is held by the environment, which has not invoked its result handler yet. */
  predicate Outstanding(s: State, op: Op) { op in s.world.live }

  /** The command listens for a child that has not started. */
  predicate Waits(s: State, op: Op)
  {
    && op < |s.log.accepted| && s.log.accepted[op].role.Listener?
    && var child := s.log.accepted[op].role.child;
       child in s.registry.listeners && child !in s.registry.entries && s.registry.listeners[child].op == op
  }

  /** The command's listener was replaced before its child started. */
  predicate Overwritten(s: State, op: Op) { op in s.registry.lost }

  function Places(s: State, op: Op): nat
  {
    One(Outstanding(s, op)) + One(Waits(s, op)) + One(Overwritten(s, op))
    + DeferredCount(s.callbacks, op) + AnswerCount(s.out.sent, op)
  }

  /** No two child workflows were requested under one id. */
  predicate DistinctChildren(acc: seq<Accepted>)
  {
    forall i, j :: 0 <= i < j < |acc| && acc[i].role.Child? && acc[j].role.Child? ==> acc[i].id != acc[j].id
  }

  predicate IsChild(a: Accepted, child: Id) { a.id == child && a.role.Child? }

  predicate ListensFor(a: Accepted, child: Id) { a.role.Listener? && a.role.child == child }

  /** Listeners are called once per started child of their id, so for them child ids have to be distinct. */
  predicate Counted(s: State, op: Op)
  {
    op < |s.log.accepted| && (s.log.accepted[op].role.Listener? ==> DistinctChildren(s.log.accepted))
  }

  ghost predicate Settled(s: State)
  {
    forall op :: Counted(s, op) ==> Places(s, op) == 1
  }

  // ---------------------------------------------------------------------------------------------
  // Well-formed references
  // ---------------------------------------------------------------------------------------------

  predicate HandlersNamed(s: State)
  {
    && (forall op :: op in s.world.live ==>
          Names(s, op, s.world.live[op]) && !s.log.accepted[op].role.Listener?)
    && (forall op :: op in s.world.starting ==>
          Names(s, op, s.world.starting[op]) && s.log.accepted[op].role.Child?)
  }

  predicate RegistryNamed(s: State)
  {
    && (forall c :: c in s.registry.listeners ==>
          var w := s.registry.listeners[c];
          Names(s, w.op, w.id) && ListensFor(s.log.accepted[w.op], c))
    && (forall op :: op in s.registry.lost ==> op < |s.log.accepted| && s.log.accepted[op].role.Listener?)
    && (forall c :: c in s.registry.entries ==>
          exists i :: 0 <= i < |s.log.accepted| && IsChild(s.log.accepted[i], c))
    && (DistinctChildren(s.log.accepted) ==>
          forall op :: op in s.world.starting ==> s.world.starting[op] !in s.registry.entries)
  }

  predicate MessagesNamed(s: State)
  {
    && (forall i :: 0 <= i < |s.callbacks| ==> Names(s, s.callbacks[i].op, s.callbacks[i].id))
    && (forall i :: 0 <= i < |s.out.sent| ==>
          var x := s.out.sent[i];
          if x.op.Some? then x.msg.command.None? && Names(s, x.op.value, x.msg.id) else x.msg.command.Some?)
  }

  predicate Tickets(s: State)
  {
    HandlersNamed(s) && RegistryNamed(s) && MessagesNamed(s)
  }

  ghost predicate Books(s: State) { Tickets(s) && Settled(s) }

  // ---------------------------------------------------------------------------------------------
  // Counting
  // ---------------------------------------------------------------------------------------------

  lemma AnswerCountSnoc(sent: seq<Sent>, x: Sent, op: Op)
    ensures AnswerCount(sent + [x], op) == AnswerCount(sent, op) + One(x.op == Some(op))
  {
  }

  lemma {:induction false} DeferredCountSnoc(ds: seq<Deferred>, d: Deferred, op: Op)
    ensures DeferredCount(ds + [d], op) == DeferredCount(ds, op) + One(d.op == op)
  {
    if ds != [] {
      assert (ds + [d])[1..] == ds[1..] + [d];
      DeferredCountSnoc(ds[1..], d, op);
    }
  }

  lemma {:induction false} NoAnswers(sent: seq<Sent>, op: Op)
    requires forall i :: 0 <= i < |sent| ==> sent[i].op != Some(op)
    ensures AnswerCount(sent, op) == 0
  {
    if sent != [] {
      NoAnswers(sent[..|sent| - 1], op);
    }
  }

  lemma {:induction false} NoneDeferred(ds: seq<Deferred>, op: Op)
    requires forall i :: 0 <= i < |ds| ==> ds[i].op != op
    ensures DeferredCount(ds, op) == 0
  {
    if ds != [] {
      NoneDeferred(ds[1..], op);
    }
  }

  /** A command that has not been handled yet is nowhere. */
  lemma FreshIsNowhere(s: State)
    requires Tickets(s)
    ensures Places(s, |s.log.accepted|) == 0
  {
    NoAnswers(s.out.sent, |s.log.accepted|);
    NoneDeferred(s.callbacks, |s.log.accepted|);
  }

  // ---------------------------------------------------------------------------------------------
  // Completions
  // ---------------------------------------------------------------------------------------------

  lemma SettlePlaces(s: State, o: Op, id: Id, outcome: Outcome, op: Op)
    ensures Places(Settle(s, o, id, outcome), op) == Places(s, op) + One(op == o)
  {
  }

  lemma ReceivePlaces(s: State, o: Op, id: Id, outcome: Outcome, op: Op)
    ensures Places(Receive(s, o, id, outcome), op) == Places(s, op) + One(op == o)
  {
    SettlePlaces(s, o, id, outcome, op);
    DeferredCountSnoc(s.callbacks, Deferred(o, id, outcome), op);
  }

  lemma SettleTickets(s: State, o: Op, id: Id, outcome: Outcome)
    requires Tickets(s) && Names(s, o, id)
    ensures Tickets(Settle(s, o, id, outcome))
  {
  }

  lemma ReceiveTickets(s: State, o: Op, id: Id, outcome: Outcome)
    requires Tickets(s) && Names(s, o, id)
    ensures Tickets(Receive(s, o, id, outcome))
  {
    SettleTickets(s, o, id, outcome);
    var r := s.(callbacks := s.callbacks + [Deferred(o, id, outcome)]);
    assert HandlersNamed(r) && RegistryNamed(r);
  }

  /** Agreement on all places, so that the books of one are the books of the other. */
  predicate SamePlaces(s: State, r: State)
  {
    && r.out.sent == s.out.sent && r.callbacks == s.callbacks && r.registry == s.registry
    && r.world.live == s.world.live && r.world.starting == s.world.starting
    && r.log.accepted == s.log.accepted
  }

  lemma FrameKept(s: State, r: State)
    requires Books(s) && SamePlaces(s, r)
    ensures Books(r)
  {
    forall op | Counted(r, op) ensures Places(r, op) == 1 {
      assert Counted(s, op) && Places(s, op) == Places(r, op);
    }
  }

  /** A completion moves from one place, out of which `s1` has taken it, to another. */
  lemma MoveKept(s: State, s1: State, o: Op, id: Id, outcome: Outcome)
    requires Settled(s) && s1.log.accepted == s.log.accepted
    requires forall op :: Counted(s, op) ==> Places(s1, op) + One(op == o) == Places(s, op)
    ensures Settled(Receive(s1, o, id, outcome)) && Settled(Settle(s1, o, id, outcome))
  {
    var r, t := Receive(s1, o, id, outcome), Settle(s1, o, id, outcome);
    forall op | Counted(s, op) ensures Places(r, op) == 1 && Places(t, op) == 1 {
      ReceivePlaces(s1, o, id, outcome, op);
      SettlePlaces(s1, o, id, outcome, op);
    }
  }

  lemma CompletedKept(s: State, o: Op, outcome: Outcome)
    requires Books(s)
    ensures Books(Fire(s, Completed(o, outcome)))
  {
    if o in s.world.live {
      var s1 := s.(world := s.world.(live := s.world.live - {o}));
      ReceiveTickets(s1, o, s.world.live[o], outcome);
      MoveKept(s, s1, o, s.world.live[o], outcome);
    }
  }

  lemma AnnouncedTickets(s: State, o: Op, outcome: Outcome)
    requires Tickets(s) && o in s.world.starting
    ensures Tickets(Announced(s, o, outcome))
  {
    var r := Announced(s, o, outcome);
    var child := s.world.starting[o];
    assert IsChild(s.log.accepted[o], child);
    if DistinctChildren(s.log.accepted) {
      forall op | op in r.world.starting ensures r.world.starting[op] !in r.registry.entries {
        assert s.log.accepted[op].id != child;
      }
    }
  }

  lemma AnnouncedPlaces(s: State, o: Op, outcome: Outcome, op: Op)
    requires Tickets(s) && o in s.world.starting && Counted(s, op)
    ensures var child := s.world.starting[o];
            Places(Announced(s, o, outcome), op)
              + One(child in s.registry.listeners && s.registry.listeners[child].op == op) == Places(s, op)
  {
  }

  lemma StartedKept(s: State, o: Op, outcome: Outcome)
    requires Books(s)
    ensures Books(Fire(s, Started(o, outcome)))
  {
    if o in s.world.starting {
      var s1 := Announced(s, o, outcome);
      var child := s.world.starting[o];
      AnnouncedTickets(s, o, outcome);
      forall op | Counted(s, op)
        ensures Places(s1, op) + One(child in s.registry.listeners && s.registry.listeners[child].op == op)
             == Places(s, op)
      {
        AnnouncedPlaces(s, o, outcome, op);
      }
      if child in s.registry.listeners {
        var w := s.registry.listeners[child];
        ReceiveTickets(s1, w.op, w.id, outcome);
        MoveKept(s, s1, w.op, w.id, outcome);
      } else {
        assert forall op :: Counted(s1, op) ==> Counted(s, op);
      }
    }
  }

  lemma BooksInCalls()
    ensures StableInCalls(Books)
  {
    forall s: State, p: Prim | p.Firing? || p.Misc? ensures Kept(Books, s, p) {
      if Books(s) && Enabled(s, p) {
        match p
        case Firing(Completed(op, outcome)) => CompletedKept(s, op, outcome);
        case Firing(Started(op, outcome)) => StartedKept(s, op, outcome);
        case Misc(t) => FrameKept(s, t);
      }
    }
  }

  // ---------------------------------------------------------------------------------------------
  // The other steps
  // ---------------------------------------------------------------------------------------------

  lemma DistinctPrefix(acc: seq<Accepted>, x: Accepted)
    ensures DistinctChildren(acc + [x]) ==> DistinctChildren(acc)
  {
    if DistinctChildren(acc + [x]) {
      forall i, j | 0 <= i < j < |acc| && acc[i].role.Child? && acc[j].role.Child?
        ensures acc[i].id != acc[j].id
      {
        assert (acc + [x])[i] == acc[i] && (acc + [x])[j] == acc[j];
      }
    }
  }

  lemma AdmitTickets(s: State, id: Id, role: Role)
    requires Tickets(s)
    ensures HandlersNamed(Admit(s, id, role)) && MessagesNamed(Admit(s, id, role))
    ensures RegistryNamed(Admit(s, id, role))
  {
    DistinctPrefix(s.log.accepted, Accepted(id, role));
    var r := Admit(s, id, role);
    forall c | c in r.registry.entries
      ensures exists i :: 0 <= i < |r.log.accepted| && IsChild(r.log.accepted[i], c)
    {
      var i :| 0 <= i < |s.log.accepted| && IsChild(s.log.accepted[i], c);
      assert IsChild(r.log.accepted[i], c);
    }
  }

  /** Admitting a command does not move the others. */
  lemma AdmitPlaces(s: State, id: Id, role: Role, op: Op)
    requires Tickets(s) && Counted(Admit(s, id, role), op)
    ensures op < |s.log.accepted| ==> Counted(s, op) && Places(Admit(s, id, role), op) == Places(s, op)
    ensures op == |s.log.accepted| ==> Places(Admit(s, id, role), op) == 0
  {
    DistinctPrefix(s.log.accepted, Accepted(id, role));
    FreshIsNowhere(s);
  }

  lemma BeginKept(s: State, id: Id, role: Role)
    requires Books(s) && !role.Listener? && !role.Immediate?
    ensures Books(Begin(s, id, role))
  {
    var r := Begin(s, id, role);
    var o := |s.log.accepted|;
    AdmitTickets(s, id, role);
    if DistinctChildren(r.log.accepted) && role.Child? {
      assert forall i :: 0 <= i < o ==> r.log.accepted[i] == s.log.accepted[i];
      assert IsChild(r.log.accepted[o], id);
      assert id !in s.registry.entries;
    }
    forall op | Counted(r, op) ensures Places(r, op) == 1 {
      AdmitPlaces(s, id, role, op);
      assert Places(r, op) == Places(Admit(s, id, role), op) + One(op == o) by {
        assert op == o ==> op !in s.world.live;
      }
    }
  }

  lemma RegisterSamePlaces(s: State, id: Id, role: Role)
    ensures SamePlaces(Call(Begin(s, id, role)), StartOp(s, id, role))
  {
  }

  lemma StartKept(s: State, id: Id, role: Role)
    requires Books(s) && !role.Listener? && !role.Immediate?
    ensures Books(StartOp(s, id, role))
  {
    BeginKept(s, id, role);
    BooksInCalls();
    CallKeeps(Books, Begin(s, id, role));
    RegisterSamePlaces(s, id, role);
    FrameKept(Call(Begin(s, id, role)), StartOp(s, id, role));
  }

  lemma StoredTickets(s: State, id: Id, child: Id)
    requires Tickets(s)
    ensures Tickets(Stored(s, id, child))
  {
    AdmitTickets(s, id, Listener(child, child in s.registry.entries));
  }

  lemma StoredPlaces(s: State, id: Id, child: Id, op: Op)
    requires Books(s) && Counted(Stored(s, id, child), op)
    ensures Places(Stored(s, id, child), op) == if op < |s.log.accepted| then 1 else One(child !in s.registry.entries)
  {
    AdmitPlaces(s, id, Listener(child, child in s.registry.entries), op);
  }

  lemma ListenKept(s: State, id: Id, child: Id)
    requires Books(s)
    ensures Books(Listen(s, id, child))
  {
    var s1 := Stored(s, id, child);
    var o := |s.log.accepted|;
    StoredTickets(s, id, child);
    if child in s.registry.entries {
      ReceiveTickets(s1, o, id, s.registry.entries[child]);
    }
    forall op | Counted(s1, op) ensures Places(Listen(s, id, child), op) == 1 {
      StoredPlaces(s, id, child, op);
      if child in s.registry.entries {
        ReceivePlaces(s1, o, id, s.registry.entries[child], op);
      }
    }
  }

  lemma RespondKept(s: State, id: Id, outcome: Outcome, discard: bool)
    requires Books(s)
    ensures Books(Respond(s, id, outcome, discard))
  {
    var s1 := Admit(s, id, Immediate);
    var o := |s.log.accepted|;
    var r := Respond(s, id, outcome, discard);
    AdmitTickets(s, id, Immediate);
    SettleTickets(s1, o, id, outcome);
    forall op | Counted(r, op) ensures Places(r, op) == 1 {
      AdmitPlaces(s, id, Immediate, op);
      SettlePlaces(s1, o, id, outcome, op);
      assert Places(r, op) == Places(Settle(s1, o, id, outcome), op);
    }
  }

  lemma CancelKept(s: State, id: Id)
    requires Books(s)
    ensures Books(CancelOne(s, id))
  {
    if id in s.canceller {
      FrameKept(s, Requesting(s, id));
      BooksInCalls();
      CallKeeps(Books, Requesting(s, id));
    }
  }

  lemma CallbackKept(s: State)
    requires Books(s) && s.callbacks != []
    ensures Books(RunCallback(s))
  {
    var d := s.callbacks[0];
    var s1 := s.(callbacks := s.callbacks[1..]);
    assert Names(s, d.op, d.id);
    SettleTickets(s1, d.op, d.id, d.outcome);
    MoveKept(s, s1, d.op, d.id, d.outcome);
  }

  lemma SendKept(s: State, command: Command, payloads: Payloads, header: Header)
    requires Books(s)
    ensures Books(Send(s, command, payloads, header))
  {
    var r := Send(s, command, payloads, header);
    forall op | Counted(r, op) ensures Places(r, op) == 1 {
      AnswerCountSnoc(s.out.sent, r.out.sent[|s.out.sent|], op);
      assert Places(r, op) == Places(s, op);
    }
  }

  lemma BooksKept(s: State, p: Prim)
    requires Books(s) && Enabled(s, p)
    ensures Books(Apply(s, p))
  {
    match p
    case Sending(command, payloads, header) => SendKept(s, command, payloads, header);
    case Firing(Completed(op, outcome)) => CompletedKept(s, op, outcome);
    case Firing(Started(op, outcome)) => StartedKept(s, op, outcome);
    case CallingBack => CallbackKept(s);
    case Starting(id, role) => StartKept(s, id, role);
    case Listening(id, child) => ListenKept(s, id, child);
    case Responding(id, outcome, discard) => RespondKept(s, id, outcome, discard);
    case Cancelling(id) => CancelKept(s, id);
    case Misc(t) => FrameKept(s, t);
    case _ =>
      PlainSamePlaces(s, p);
      FrameKept(s, Apply(s, p));
  }

  lemma PlainSamePlaces(s: State, p: Prim)
    requires Enabled(s, p) && (p.Flushing? || p.Taking? || p.Dropping? || p.Discarding?)
    ensures SamePlaces(s, Apply(s, p))
  {
  }

  lemma BooksStable()
    ensures Stable(Books)
  {
    forall s, p ensures Kept(Books, s, p) {
      if Books(s) && Enabled(s, p) {
        BooksKept(s, p);
      }
    }
  }

  lemma BooksAlways(l: Launch, es: seq<Event>)
    ensures Books(After(l, es))
  {
    BooksStable();
    RunKeeps(Books, Execute(l), es);
  }

  // ---------------------------------------------------------------------------------------------
  // No id is answered twice
  // ---------------------------------------------------------------------------------------------

  lemma {:induction false} CountAt(sent: seq<Sent>, i: nat, op: Op)
    requires i < |sent| && sent[i].op == Some(op)
    ensures AnswerCount(sent, op) >= 1
  {
    if i < |sent| - 1 {
      CountAt(sent[..|sent| - 1], i, op);
    }
  }

  lemma {:induction false} CountTwice(sent: seq<Sent>, i: nat, j: nat, op: Op)
    requires i < j < |sent| && sent[i].op == sent[j].op == Some(op)
    ensures AnswerCount(sent, op) >= 2
  {
    if j < |sent| - 1 {
      CountTwice(sent[..|sent| - 1], i, j, op);
    } else {
      CountAt(sent[..|sent| - 1], i, op);
    }
  }

  /** The ids of the handled commands that are owed an answer are pairwise distinct. */
  predicate DistinctIds(acc: seq<Accepted>)
  {
    forall i, j :: 0 <= i < j < |acc| ==> acc[i].id != acc[j].id
  }

  lemma AnsweredOnce(s: State, i: nat, j: nat, op: Op)
    requires Books(s) && Counted(s, op) && i < j < |s.out.sent| && s.out.sent[i].op == Some(op)
    ensures s.out.sent[j].op != Some(op)
  {
    if s.out.sent[j].op == Some(op) {
      CountTwice(s.out.sent, i, j, op);
    }
  }

  lemma IdAnsweredOnce(s: State, i: nat, j: nat)
    requires Books(s) && DistinctIds(s.log.accepted) && i < j < |s.out.sent|
    requires s.out.sent[i].msg.command.None? && s.out.sent[j].msg.command.None?
    ensures s.out.sent[i].msg.id != s.out.sent[j].msg.id
  {
    var a := s.out.sent[i].op.value;
    assert Names(s, a, s.out.sent[i].msg.id);
    AnsweredOnce(s, i, j, a);
  }

  /** With a worker that never reuses an id, no two answers in a whole run carry the same id. */
  lemma NoIdAnsweredTwice(l: Launch, es: seq<Event>, i: nat, j: nat)
    requires var s := After(l, es);
             DistinctIds(s.log.accepted) && i < j < |s.out.sent|
             && s.out.sent[i].msg.command.None? && s.out.sent[j].msg.command.None?
    ensures var s := After(l, es);
            s.out.sent[i].msg.id != s.out.sent[j].msg.id
  {
    BooksAlways(l, es);
    IdAnsweredOnce(After(l, es), i, j);
  }
}
