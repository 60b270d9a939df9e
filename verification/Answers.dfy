/** What answers say: the outcome the command was given, in the fields of the message. */
module Answers {
  import opened Protocol
  import opened WorkflowModel
  import opened WorkflowInduction
  import opened Ordering
  import opened Settlement

  // ---------------------------------------------------------------------------------------------
  // Outcomes given, answered and deferred
  // ---------------------------------------------------------------------------------------------

  /** What a worker reads from an answer: a failure if there is one, else the payloads. */
  function OutcomeOf(m: Message): Outcome
  {
    if m.failure.Some? then Fail(m.failure.value) else Ok(m.payloads)
  }

  /** An answer has no command and no header, and does not carry both a failure and payloads. */
  predicate Shaped(m: Message)
  {
    m.command.None? && m.header.None? && (m.failure.Some? ==> m.payloads.None?)
  }

  /** The answers among the messages pushed. */
  function AnswersIn(sent: seq<Sent>): seq<Given>
  {
    if sent == [] then []
    else
      var x := sent[|sent| - 1];
      AnswersIn(sent[..|sent| - 1])
      + (if x.op.Some? then [Given(x.op.value, x.msg.id, OutcomeOf(x.msg))] else [])
  }

  function Waiting(ds: seq<Deferred>): seq<Given>
  {
    seq(|ds|, i requires 0 <= i < |ds| => Given(ds[i].op, ds[i].id, ds[i].outcome))
  }

  /** Every outcome given to a command is in an answer to it or deferred, as often as it was given; and there
      are no other answers. */
  predicate Balanced(given: seq<Given>, sent: seq<Sent>, ds: seq<Deferred>)
  {
    multiset(given) == multiset(AnswersIn(sent)) + multiset(Waiting(ds)) && AllShaped(sent)
  }

  predicate AllShaped(sent: seq<Sent>)
  {
    forall i :: 0 <= i < |sent| && sent[i].op.Some? ==> Shaped(sent[i].msg)
  }

  predicate Carried(s: State) { Balanced(s.out.given, s.out.sent, s.callbacks) }

  function AnswerTo(op: Op, id: Id, outcome: Outcome): Sent { Sent(AnswerMessage(id, outcome), Some(op)) }

  /** An answer pushed to a command can be read as the outcome it was pushed for. */
  lemma AnswersSnoc(sent: seq<Sent>, op: Op, id: Id, outcome: Outcome)
    ensures AnswersIn(sent + [AnswerTo(op, id, outcome)]) == AnswersIn(sent) + [Given(op, id, outcome)]
    ensures Shaped(AnswerMessage(id, outcome))
  {
    assert (sent + [AnswerTo(op, id, outcome)])[..|sent|] == sent;
  }

  lemma BalancedAnswer(given: seq<Given>, sent: seq<Sent>, ds: seq<Deferred>, op: Op, id: Id, outcome: Outcome)
    requires Balanced(given, sent, ds)
    ensures Balanced(given + [Given(op, id, outcome)], sent + [AnswerTo(op, id, outcome)], ds)
  {
    AnswersSnoc(sent, op, id, outcome);
  }

  lemma BalancedDefer(given: seq<Given>, sent: seq<Sent>, ds: seq<Deferred>, op: Op, id: Id, outcome: Outcome)
    requires Balanced(given, sent, ds)
    ensures Balanced(given + [Given(op, id, outcome)], sent, ds + [Deferred(op, id, outcome)])
  {
    assert Waiting(ds + [Deferred(op, id, outcome)]) == Waiting(ds) + [Given(op, id, outcome)];
  }

  lemma BalancedCallback(given: seq<Given>, sent: seq<Sent>, ds: seq<Deferred>)
    requires Balanced(given, sent, ds) && ds != []
    ensures Balanced(given, sent + [AnswerTo(ds[0].op, ds[0].id, ds[0].outcome)], ds[1..])
  {
    var d := ds[0];
    AnswersSnoc(sent, d.op, d.id, d.outcome);
    WaitingHead(ds);
    MoveOne(given, AnswersIn(sent), Waiting(ds[1..]), Given(d.op, d.id, d.outcome));
    assert AllShaped(sent + [AnswerTo(d.op, d.id, d.outcome)]);
  }

  lemma WaitingHead(ds: seq<Deferred>)
    requires ds != []
    ensures Waiting(ds) == [Given(ds[0].op, ds[0].id, ds[0].outcome)] + Waiting(ds[1..])
  {
  }

  lemma MoveOne(all: seq<Given>, left: seq<Given>, right: seq<Given>, g: Given)
    requires multiset(all) == multiset(left) + multiset([g] + right)
    ensures multiset(all) == multiset(left + [g]) + multiset(right)
  {
    assert multiset([g] + right) == multiset{g} + multiset(right);
    assert multiset(left + [g]) == multiset(left) + multiset{g};
  }

  lemma BalancedCommand(given: seq<Given>, sent: seq<Sent>, ds: seq<Deferred>, m: Message)
    requires Balanced(given, sent, ds)
    ensures Balanced(given, sent + [Sent(m, None)], ds)
  {
    assert (sent + [Sent(m, None)])[..|sent|] == sent;
  }

  lemma ReceiveCarries(s: State, op: Op, id: Id, outcome: Outcome)
    requires Carried(s)
    ensures Carried(Receive(s, op, id, outcome))
  {
    BalancedAnswer(s.out.given, s.out.sent, s.callbacks, op, id, outcome);
    BalancedDefer(s.out.given, s.out.sent, s.callbacks, op, id, outcome);
  }

  lemma FireCarries(s: State, f: WorkflowModel.Firing)
    requires Carried(s)
    ensures Carried(Fire(s, f))
  {
    match f
    case Completed(op, outcome) =>
      if op in s.world.live {
        ReceiveCarries(s.(world := s.world.(live := s.world.live - {op})), op, s.world.live[op], outcome);
      }
    case Started(op, outcome) =>
      if op in s.world.starting && s.world.starting[op] in s.registry.listeners {
        var w := s.registry.listeners[s.world.starting[op]];
        ReceiveCarries(Announced(s, op, outcome), w.op, w.id, outcome);
      }
  }

  lemma CarriedInCall(s: State, p: Prim)
    requires Carried(s) && Enabled(s, p) && (p.Firing? || p.Misc?)
    ensures Carried(Apply(s, p))
  {
    match p
    case Firing(f) => FireCarries(s, f);
    case Misc(t) => assert t.out == s.out && t.callbacks == s.callbacks;
  }

  lemma CarriedInCalls()
    ensures StableInCalls(Carried)
  {
    forall s: State, p: Prim | p.Firing? || p.Misc? ensures Kept(Carried, s, p) {
      if Carried(s) && Enabled(s, p) {
        CarriedInCall(s, p);
      }
    }
  }

  lemma CallbackCarries(s: State)
    requires Carried(s) && s.callbacks != []
    ensures Carried(RunCallback(s))
  {
    BalancedCallback(s.out.given, s.out.sent, s.callbacks);
  }

  lemma RespondCarries(s: State, id: Id, outcome: Outcome, discard: bool)
    requires Carried(s)
    ensures Carried(Respond(s, id, outcome, discard))
  {
    BalancedAnswer(s.out.given, s.out.sent, s.callbacks, |s.log.accepted|, id, outcome);
  }

  lemma SendCarries(s: State, command: Command, payloads: Payloads, header: Header)
    requires Carried(s)
    ensures Carried(Send(s, command, payloads, header))
  {
    BalancedCommand(s.out.given, s.out.sent, s.callbacks,
                    Message(Next(s.counter), Some(command), None, payloads, header));
  }

  lemma StartCarries(s: State, id: Id, role: Role)
    requires Carried(s)
    ensures Carried(StartOp(s, id, role))
  {
    CarriedInCalls();
    CallKeeps(Carried, Begin(s, id, role));
  }

  lemma ListenCarries(s: State, id: Id, child: Id)
    requires Carried(s)
    ensures Carried(Listen(s, id, child))
  {
    if child in s.registry.entries {
      ReceiveCarries(Stored(s, id, child), |s.log.accepted|, id, s.registry.entries[child]);
    }
  }

  lemma CancelCarries(s: State, id: Id)
    requires Carried(s)
    ensures Carried(CancelOne(s, id))
  {
    if id in s.canceller {
      CarriedInCalls();
      CallKeeps(Carried, Requesting(s, id));
    }
  }

  lemma PlainSame(s: State, p: Prim)
    requires Enabled(s, p) && (p.Flushing? || p.Taking? || p.Dropping? || p.Discarding? || p.Misc?)
    ensures var r := Apply(s, p);
            r.out.given == s.out.given && r.out.sent == s.out.sent && r.callbacks == s.callbacks
  {
  }

  lemma CarriedKept(s: State, p: Prim)
    requires Carried(s) && Enabled(s, p)
    ensures Carried(Apply(s, p))
  {
    match p
    case Sending(command, payloads, header) => SendCarries(s, command, payloads, header);
    case Firing(f) => FireCarries(s, f);
    case CallingBack => CallbackCarries(s);
    case Starting(id, role) => StartCarries(s, id, role);
    case Listening(id, child) => ListenCarries(s, id, child);
    case Responding(id, outcome, discard) => RespondCarries(s, id, outcome, discard);
    case Cancelling(id) => CancelCarries(s, id);
    case _ =>
      PlainSame(s, p);
      assert Carried(Apply(s, p));
  }

  lemma CarriedStable()
    ensures Stable(Carried)
  {
    forall s, p ensures Kept(Carried, s, p) {
      if Carried(s) && Enabled(s, p) {
        CarriedKept(s, p);
      }
    }
  }

  /** In every run, the outcomes given to commands are exactly those in their answers and those deferred, each
      as often as it was given; a failure is in the failure of its answer, payloads are in its payloads. */
  lemma OutcomesAreConserved(l: Launch, es: seq<Event>)
    ensures Carried(After(l, es))
  {
    CarriedStable();
    SendCarries(Blank(l.run, l.counter), Start(l).command.value, Start(l).payloads, l.run.header);
    RunKeeps(Carried, Execute(l), es);
  }

  lemma {:induction false} AnswerAt(sent: seq<Sent>, i: nat)
    requires i < |sent| && sent[i].op.Some?
    ensures Given(sent[i].op.value, sent[i].msg.id, OutcomeOf(sent[i].msg)) in AnswersIn(sent)
  {
    if i < |sent| - 1 {
      AnswerAt(sent[..|sent| - 1], i);
    }
  }

  lemma {:induction false} AnswerFrom(sent: seq<Sent>, g: Given) returns (i: nat)
    requires g in AnswersIn(sent)
    ensures i < |sent| && sent[i].op == Some(g.op) && g == Given(g.op, sent[i].msg.id, OutcomeOf(sent[i].msg))
  {
    var k := |sent| - 1;
    if sent[k].op.Some? && g == Given(sent[k].op.value, sent[k].msg.id, OutcomeOf(sent[k].msg)) {
      i := k;
    } else {
      i := AnswerFrom(sent[..k], g);
    }
  }

  lemma {:induction false} DeferredAt(ds: seq<Deferred>, i: nat, op: Op)
    requires i < |ds| && ds[i].op == op
    ensures DeferredCount(ds, op) >= 1
  {
    if i > 0 {
      DeferredAt(ds[1..], i - 1, op);
    }
  }

  lemma GivenIsAnswer(s: State, i: nat, op: Op, g: Given)
    requires Books(s) && Carried(s) && Counted(s, op) && i < |s.out.sent| && s.out.sent[i].op == Some(op)
    requires g.op == op && g in s.out.given
    ensures g == Given(op, s.out.sent[i].msg.id, OutcomeOf(s.out.sent[i].msg))
  {
    assert g in multiset(s.out.given);
    assert Places(s, op) == 1;
    CountAt(s.out.sent, i, op);
    if g in Waiting(s.callbacks) {
      var j :| 0 <= j < |s.callbacks| && Waiting(s.callbacks)[j] == g;
      DeferredAt(s.callbacks, j, op);
    }
    assert g in multiset(AnswersIn(s.out.sent));
    var j := AnswerFrom(s.out.sent, g);
    if j < i {
      AnsweredOnce(s, j, i, op);
    } else if i < j {
      AnsweredOnce(s, i, j, op);
    }
  }

  /** In every run, an answer says what its command was given and nothing else: its failure is `e` if and only if
      the command was given the failure `e`, and otherwise its payloads are those the command was given. */
  lemma AnswerSaysWhatWasGiven(l: Launch, es: seq<Event>, i: nat, op: Op, outcome: Outcome)
    requires var s := After(l, es);
             Counted(s, op) && i < |s.out.sent| && s.out.sent[i].op == Some(op)
    ensures var s := After(l, es);
            var m := s.out.sent[i].msg;
            && (Given(op, m.id, outcome) in s.out.given <==>
                  match outcome
                  case Fail(e) => m.failure == Some(e)
                  case Ok(payloads) => m.failure.None? && m.payloads == payloads)
            && m.command.None? && m.header.None? && (m.failure.Some? ==> m.payloads.None?)
  {
    var s := After(l, es);
    OutcomesAreConserved(l, es);
    BooksAlways(l, es);
    AnswerAt(s.out.sent, i);
    var g := Given(op, s.out.sent[i].msg.id, OutcomeOf(s.out.sent[i].msg));
    assert g in multiset(AnswersIn(s.out.sent)) && g in multiset(s.out.given);
    if Given(op, s.out.sent[i].msg.id, outcome) in s.out.given {
      GivenIsAnswer(s, i, op, Given(op, s.out.sent[i].msg.id, outcome));
    }
  }

  // ---------------------------------------------------------------------------------------------
  // Answers given at once
  // ---------------------------------------------------------------------------------------------

  /** The answer to a command that has been completed. */
  function Done(id: Id): Message { Message(id, None, None, Some(["completed"]), None) }

  predicate LastSent(s: State, m: Message) { s.out.sent != [] && s.out.sent[|s.out.sent| - 1].msg == m }

  lemma FlushPushesNothing(s: State)
    ensures Flush(s).0.out.sent == s.out.sent
  {
  }

  lemma HandleIsRest(s: State, m: Message)
    requires m.IsCommand() && Starts(m.command.value).None? && !PassedOver(m)
    ensures Handle(s, m) == HandleRest(s, m)
  {
  }

  lemma VersionPushes(s: State, id: Id)
    requires Answered(s).result.Ok?
    ensures LastSent(HandleVersion(s, id).0, Message(id, None, None, Answered(s).result.payloads, None))
  {
    FlushPushesNothing(Respond(Call(s), id, Answered(s).result, false));
  }

  /** A version request is answered with the version. */
  lemma VersionAnswer(s: State, m: Message)
    requires m.command.Some? && m.command.value.GetVersion? && Answered(s).result.Ok?
    ensures LastSent(Handle(s, m).0, Message(m.id, None, None, Answered(s).result.payloads, None))
  {
    VersionPushes(s, m.id);
    HandleIsRest(s, m);
  }

  /** The message that carries an outcome. */
  function Carrying(id: Id, outcome: Outcome): Message
  {
    match outcome
    case Ok(payloads) => Message(id, None, None, payloads, None)
    case Fail(e) => Message(id, None, Some(e), None, None)
  }

  lemma SideEffectPushes(s: State, id: Id)
    ensures LastSent(HandleSideEffect(s, id).0, Carrying(id, Answered(s).result))
  {
    FlushPushesNothing(Respond(Call(s), id, Answered(s).result, true));
  }

  /** A side effect is answered with what the environment passes to its callback, a failure included. */
  lemma SideEffectAnswer(s: State, m: Message)
    requires m.command == Some(SideEffect)
    ensures LastSent(Handle(s, m).0, Carrying(m.id, Answered(s).result))
  {
    SideEffectPushes(s, m.id);
    HandleIsRest(s, m);
  }

  /** What a command that ends the run means: the payloads of a successful run, the failure of a failed one, or
      the input of the next. */
  lemma EndMeans(m: Message)
    ensures EndOf(m).Some? <==> m.command.Some? && (m.command.value.CompleteWorkflow? || m.command.value.ContinueAsNew?)
    ensures EndOf(m).Some? ==>
              match EndOf(m).value
              case EndedWith(payloads) =>
                m.command == Some(CompleteWorkflow) && m.failure.None? && m.payloads == payloads
              case EndedInFailure(failure) => m.command == Some(CompleteWorkflow) && m.failure == Some(failure)
              case EndedAnew(name, payloads, header) =>
                m.command == Some(ContinueAsNew(name)) && m.payloads == payloads && m.header == header
  {
  }

  /** The commands that end the run are answered before the environment is told, and it is told what they mean. */
  lemma EndAnswer(s: State, m: Message)
    requires EndOf(m).Some?
    ensures var r := Handle(s, m).0;
            && |s.out.sent| < |r.out.sent| && r.out.sent[|s.out.sent|].msg == Done(m.id)
            && r.log.endings == s.log.endings + [EndOf(m).value]
  {
    EndPushes(s, m.id, EndOf(m).value);
    assert Handle(s, m).0 == HandleEnd(s, m.id, EndOf(m).value);
  }

  lemma EndPushes(s: State, id: Id, end: RunEnd)
    ensures var r := HandleEnd(s, id, end);
            && |s.out.sent| < |r.out.sent| && r.out.sent[|s.out.sent|].msg == Done(id)
            && r.log.endings == s.log.endings + [end]
  {
    var s1 := NoteEnd(Respond(s, id, COMPLETED, false), end);
    CallPushed(s1);
    assert s1.out.sent[|s.out.sent|].msg == Done(id);
  }

  /** A listener whose child has started is answered at once with what that child's start brought, as long as no
      other child under its id has started since. */
  lemma LateListenerHears(s: State, o: Op, outcome: Outcome, fs: seq<WorkflowModel.Firing>, id: Id)
    requires s.inLoop && o in s.world.starting
    requires forall f :: f in fs && f.Started? && f.op in s.world.starting && f.op != o ==>
               s.world.starting[f.op] != s.world.starting[o]
    ensures LastSent(Listen(FireAll(Fire(s, Started(o, outcome)), fs), id, s.world.starting[o]), Carrying(id, outcome))
  {
    EntryStays(Fire(s, Started(o, outcome)), fs, s.world.starting[o], outcome);
  }

  lemma {:induction false} EntryStays(s: State, fs: seq<WorkflowModel.Firing>, child: Id, outcome: Outcome)
    requires child in s.registry.entries && s.registry.entries[child] == outcome
    requires forall f :: f in fs && f.Started? && f.op in s.world.starting ==> s.world.starting[f.op] != child
    ensures child in FireAll(s, fs).registry.entries && FireAll(s, fs).registry.entries[child] == outcome
    decreases |fs|
  {
    if fs != [] {
      assert fs[0] in fs;
      var s1 := Fire(s, fs[0]);
      forall f | f in fs[1..] && f.Started? && f.op in s1.world.starting
        ensures s1.world.starting[f.op] != child
      {
        assert f in fs;
      }
      EntryStays(s1, fs[1..], child, outcome);
    }
  }
}
