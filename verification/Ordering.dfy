/** Order and conservation of messages in both directions. */
module Ordering {
  import opened Protocol
  import opened Codec
  import opened WorkflowModel
  import opened WorkflowInduction

  function Concat<T>(batches: seq<seq<T>>): seq<T>
  {
    if batches == [] then [] else Concat(batches[..|batches| - 1]) + batches[|batches| - 1]
  }

  lemma ConcatSnoc<T>(batches: seq<seq<T>>, last: seq<T>)
    ensures Concat(batches + [last]) == Concat(batches) + last
  {
  }

  function Bodies(sent: seq<Sent>): seq<Message>
  {
    seq(|sent|, i requires 0 <= i < |sent| => sent[i].msg)
  }

  function Messages(fates: seq<Fate>): seq<Message>
  {
    seq(|fates|, i requires 0 <= i < |fates| => fates[i].msg)
  }

  // ---------------------------------------------------------------------------------------------
  // Incoming
  // ---------------------------------------------------------------------------------------------

  /** What has left the pipeline, followed by the pipeline, is what was decoded, in order. */
  predicate Incoming(s: State)
  {
    Messages(s.input.consumed) + s.input.pipeline == Concat(s.input.batches)
  }

  lemma OthersKeepInput(s: State, p: Prim)
    requires Enabled(s, p) && !p.Flushing? && !p.Taking? && !p.Dropping?
    ensures Apply(s, p).input == s.input
  {
  }

  lemma FlushIncoming(s: State)
    requires Incoming(s)
    ensures Incoming(Flush(s).0)
  {
  }

  lemma IncomingKept(s: State, p: Prim)
    requires Incoming(s) && Enabled(s, p)
    ensures Incoming(Apply(s, p))
  {
    if p.Flushing? {
      FlushIncoming(s);
    } else if p.Taking? {
      assert Messages(Take(s).input.consumed) == Messages(s.input.consumed) + [s.input.pipeline[0]];
    } else if p.Dropping? {
      assert Messages(Drop(s).input.consumed) == Messages(s.input.consumed) + s.input.pipeline;
    } else {
      OthersKeepInput(s, p);
    }
  }

  lemma IncomingStable()
    ensures Stable(Incoming)
  {
    forall s, p ensures Kept(Incoming, s, p) {
      if Incoming(s) && Enabled(s, p) {
        IncomingKept(s, p);
      }
    }
  }

  /** In every run the messages that left the pipeline, then the pipeline itself, are exactly the decoded
      batches in the order they were received, however deep in the loop they were received. */
  lemma IncomingOrder(l: Launch, es: seq<Event>)
    ensures Incoming(After(l, es))
  {
    IncomingStable();
    RunKeeps(Incoming, Execute(l), es);
  }

  /** `r` is `s` after taking, and never dropping, some messages. */
  predicate OnlyTook(s: Input, r: Input)
  {
    && |s.consumed| <= |r.consumed| && r.consumed[..|s.consumed|] == s.consumed
    && forall i :: |s.consumed| <= i < |r.consumed| ==> r.consumed[i].Taken?
  }

  lemma TurnTook(s: State)
    requires s.input.pipeline != [] && Turn(s).1 == Continue
    ensures Turn(s).0.input.consumed == s.input.consumed + [Taken(s.input.pipeline[0])]
  {
  }

  lemma TookMore(a: Input, b: Input, r: Input, m: Message)
    requires b.consumed == a.consumed + [Taken(m)] && OnlyTook(b, r)
    ensures OnlyTook(a, r)
  {
  }

  lemma {:induction false} LoopTakesAll(s: State)
    ensures Loop(s).1 == Continue ==> OnlyTook(s.input, Loop(s).0.input) && Loop(s).0.input.pipeline == []
    decreases Budget(s)
  {
    if s.input.pipeline != [] && Turn(s).1 == Continue {
      var s1 := Turn(s).0;
      TurnTook(s);
      LoopTakesAll(s1);
      if Loop(s).1 == Continue {
        TookMore(s.input, s1.input, Loop(s).0.input, s.input.pipeline[0]);
      }
    }
  }

  /** A task that returns normally has taken every message it found or was sent, and dropped none. */
  lemma TaskTakesAll(s: State)
    requires Incoming(s) && Task(s).1 == Continue
    ensures var r := Task(s).0.input;
            r.pipeline == [] && OnlyTook(s.input, r) && Messages(r.consumed) == Concat(r.batches)
  {
    IncomingStable();
    TaskKeeps(Incoming, s);
    var s1 := FirstFlush(s).0;
    LoopTakesAll(HandleUpdates(s1));
    assert Messages(Task(s).0.input.consumed) + [] == Messages(Task(s).0.input.consumed);
  }

  // ---------------------------------------------------------------------------------------------
  // Panics
  // ---------------------------------------------------------------------------------------------

  predicate IsSideEffect(m: Message) { m.command == Some(SideEffect) }

  /** Only a side effect panics while it is handled, and then nothing has been received. */
  lemma HandlePanics(s: State, m: Message)
    requires m.IsCommand() && Handle(s, m).1 == Panicked
    ensures IsSideEffect(m) && Handle(s, m).0.input == s.input
  {
  }

  lemma EffectNeverFails(s: State, m: Message)
    requires IsSideEffect(m)
    ensures Handle(s, m).1 != Failed
  {
  }

  /** A panicking turn clears the pipeline, unless the message it handles is a side effect with others
      behind it: those stay. */
  lemma TurnPanics(s: State)
    requires s.input.pipeline != [] && Turn(s).1 == Panicked
    ensures Turn(s).0.input.pipeline == [] <==> !IsSideEffect(s.input.pipeline[0]) || |s.input.pipeline| == 1
    ensures IsSideEffect(s.input.pipeline[0]) ==> Turn(s).0.input.pipeline == s.input.pipeline[1..]
  {
    var m := s.input.pipeline[0];
    if m.IsCommand() && Handle(Take(s), m).1 == Panicked {
      HandlePanics(Take(s), m);
    }
    if IsSideEffect(m) {
      EffectNeverFails(Take(s), m);
    }
  }

  /** The queue a side effect flushes when its result is good. */
  function EffectAnswered(s: State): State
    requires s.input.pipeline != []
  {
    Respond(Call(Take(s)), s.input.pipeline[0].id, Answered(s).result, true)
  }

  /** A side effect panics exactly when its result is good and the flush of it fails. */
  lemma SideEffectPanics(s: State)
    requires s.input.pipeline != [] && IsSideEffect(s.input.pipeline[0])
    ensures Turn(s).1 == Panicked <==>
              Answered(s).result.Ok? && (Body(EffectAnswered(s)).None? || Batch(s.run.formats, Replied(s)).None?)
  {
    assert EffectAnswered(s).out.queue != [];
  }

  /** The state in which the turn that panics begins. */
  function LastTurn(s: State): (t: State)
    requires Loop(s).1 == Panicked
    ensures t.input.pipeline != [] && Turn(t).1 == Panicked && Turn(t).0 == Loop(s).0
    decreases Budget(s)
  {
    if Turn(s).1 == Panicked then s else LastTurn(Turn(s).0)
  }

  /** What a panicking task leaves in the pipeline: everything it found if its first flush failed; otherwise
      nothing, unless the message it panicked on is a side effect with others behind it. */
  lemma PanicClearsPipeline(s: State)
    requires Task(s).1 == Panicked
    ensures FirstFlush(s).1 == Failed ==> Task(s).0.input == s.input
    ensures FirstFlush(s).1 != Failed ==>
              var t := LastTurn(HandleUpdates(FirstFlush(s).0));
              && Task(s).0.input == Turn(t).0.input
              && (Task(s).0.input.pipeline == [] <==>
                    !IsSideEffect(t.input.pipeline[0]) || |t.input.pipeline| == 1)
  {
    if FirstFlush(s).1 != Failed {
      TurnPanics(LastTurn(HandleUpdates(FirstFlush(s).0)));
    }
  }

  /** A first task whose worker returns `batch` begins its loop with that batch. */
  lemma FirstTaskReceives(l: Launch, ctx: Context, body: Bytes, batch: seq<Message>, replies: seq<Reply>)
    requires Encoded(l.run.formats, ctx, [Start(l)]).Some? && Decoded(l.run.formats, body) == (batch, true)
    ensures var (s, flow) := FirstFlush(WithOracles(Execute(l), [], [Response(body)] + replies, ctx));
            && flow == Continue && s.input.pipeline == batch && s.world.replies == replies && s.world.answers == []
            && s.updates.names == [] && s.run == l.run
  {
    var s := WithOracles(Execute(l), [], [Response(body)] + replies, ctx);
    var s1 := SetLoop(s, true);
    assert RunCallbacks(s1) == s1 && s1.out.queue == [Start(l)];
    assert Batch(l.run.formats, Replied(s1)) == Some(batch);
    assert [] + batch == batch;
  }

  lemma EffectTurn(s: State, effect: Message, timer: Message)
    requires s.input.pipeline == [effect, timer] && IsSideEffect(effect)
    requires s.world.answers == [] && s.world.replies == [WorkerFailed]
    ensures Loop(s).0.input.pipeline == [timer]
  {
    SideEffectPanics(s);
    TurnPanics(s);
    assert Loop(s).0 == Turn(s).0;
  }

  lemma EffectTask(s: State, s1: State, effect: Message, timer: Message)
    requires FirstFlush(s) == (s1, Continue) && s1.updates.names == []
    requires s1.input.pipeline == [effect, timer] && IsSideEffect(effect)
    requires s1.world.answers == [] && s1.world.replies == [WorkerFailed]
    ensures Task(s).0.input.pipeline == [timer]
  {
    assert HandleUpdates(s1) == s1;
    EffectTurn(s1, effect, timer);
  }

  lemma OneTask(l: Launch, answers: seq<Answer>, replies: seq<Reply>, ctx: Context)
    ensures After(l, [TaskStarted(answers, replies, ctx)]) == Task(WithOracles(Execute(l), answers, replies, ctx)).0
  {
    var e := TaskStarted(answers, replies, ctx);
    assert [e][..0] == [];
    assert After(l, [e]) == Step(Run(Execute(l), []), e);
  }

  /** A run in which that happens: the first task is sent a side effect and a timer request, and the worker
      fails when the side effect is answered. The timer request is still in the pipeline after the task. */
  lemma SideEffectPanicKeepsPipeline(l: Launch, ctx: Context, body: Bytes, effect: Message, timer: Message)
    requires IsSideEffect(effect) && Encoded(l.run.formats, ctx, [Start(l)]).Some?
    requires Decoded(l.run.formats, body) == ([effect, timer], true)
    ensures After(l, [TaskStarted([], [Response(body), WorkerFailed], ctx)]).input.pipeline == [timer]
  {
    var replies := [Response(body)] + [WorkerFailed];
    assert replies == [Response(body), WorkerFailed];
    FirstTaskReceives(l, ctx, body, [effect, timer], [WorkerFailed]);
    OneTask(l, [], replies, ctx);
    var s := WithOracles(Execute(l), [], replies, ctx);
    EffectTask(s, FirstFlush(s).0, effect, timer);
  }

  // ---------------------------------------------------------------------------------------------
  // Outgoing
  // ---------------------------------------------------------------------------------------------

  /** The acknowledged frames, followed by the queue, are everything pushed, in order, until Close. */
  predicate Outgoing(s: State)
  {
    !s.closed ==> Concat(s.out.frames) + s.out.queue == Bodies(s.out.sent)
  }

  lemma PushOutgoing(s: State, m: Message, op: Option<Op>)
    requires Outgoing(s)
    ensures Outgoing(Push(s, m, op))
  {
    assert Bodies(s.out.sent + [Sent(m, op)]) == Bodies(s.out.sent) + [m];
    assert Concat(s.out.frames) + (s.out.queue + [m]) == Concat(s.out.frames) + s.out.queue + [m];
  }

  lemma ReceiveOutgoing(s: State, op: Op, id: Id, outcome: Outcome)
    requires Outgoing(s)
    ensures Outgoing(Receive(s, op, id, outcome)) && Outgoing(Settle(s, op, id, outcome))
  {
    PushOutgoing(s.(canceller := s.canceller - {id}), AnswerMessage(id, outcome), Some(op));
  }

  lemma FireOutgoing(s: State, f: WorkflowModel.Firing)
    requires Outgoing(s)
    ensures Outgoing(Fire(s, f))
  {
    match f
    case Completed(op, outcome) =>
      if op in s.world.live {
        ReceiveOutgoing(s.(world := s.world.(live := s.world.live - {op})), op, s.world.live[op], outcome);
      }
    case Started(op, outcome) =>
      if op in s.world.starting && s.world.starting[op] in s.registry.listeners {
        var child := s.world.starting[op];
        var s1 := Announced(s, op, outcome);
        ReceiveOutgoing(s1, s.registry.listeners[child].op, s.registry.listeners[child].id, outcome);
      }
  }

  lemma OutgoingInCalls()
    ensures StableInCalls(Outgoing)
  {
    forall s, p: Prim | p.Firing? || p.Misc? ensures Kept(Outgoing, s, p) {
      if Outgoing(s) && p.Firing? {
        FireOutgoing(s, p.f);
      }
    }
  }

  lemma SendOutgoing(s: State, command: Command, payloads: Payloads, header: Header)
    requires Outgoing(s)
    ensures Outgoing(Send(s, command, payloads, header))
  {
    PushOutgoing(s.(counter := s.counter + 1),
                 Message(Next(s.counter), Some(command), None, payloads, header), None);
  }

  lemma CallbackOutgoing(s: State)
    requires Outgoing(s) && s.callbacks != []
    ensures Outgoing(RunCallback(s))
  {
    var d := s.callbacks[0];
    ReceiveOutgoing(s.(callbacks := s.callbacks[1..]), d.op, d.id, d.outcome);
  }

  lemma FlushOutgoing(s: State)
    requires Outgoing(s)
    ensures Outgoing(Flush(s).0)
  {
    ConcatSnoc(s.out.frames, s.out.queue);
  }

  lemma OutgoingKept(s: State, p: Prim)
    requires Outgoing(s) && Enabled(s, p)
    ensures Outgoing(Apply(s, p))
  {
    match p
    case Sending(command, payloads, header) => SendOutgoing(s, command, payloads, header);
    case Firing(f) => FireOutgoing(s, f);
    case CallingBack => CallbackOutgoing(s);
    case Flushing => FlushOutgoing(s);
    case Starting(id, role) => StartOutgoing(s, id, role);
    case Listening(id, child) => ListenOutgoing(s, id, child);
    case Responding(id, outcome, discard) => RespondOutgoing(s, id, outcome, discard);
    case Cancelling(id) => CancelOutgoing(s, id);
    case _ =>
  }

  lemma StartOutgoing(s: State, id: Id, role: Role)
    requires Outgoing(s)
    ensures Outgoing(StartOp(s, id, role))
  {
    OutgoingInCalls();
    CallKeeps(Outgoing, Begin(s, id, role));
  }

  lemma ListenOutgoing(s: State, id: Id, child: Id)
    requires Outgoing(s)
    ensures Outgoing(Listen(s, id, child))
  {
    if child in s.registry.entries {
      ReceiveOutgoing(Stored(s, id, child), |s.log.accepted|, id, s.registry.entries[child]);
    }
  }

  lemma RespondOutgoing(s: State, id: Id, outcome: Outcome, discard: bool)
    requires Outgoing(s)
    ensures Outgoing(Respond(s, id, outcome, discard))
  {
    var s1 := Admit(s, id, Immediate);
    ReceiveOutgoing(s1, |s.log.accepted|, id, outcome);
    PushOutgoing(s1, AnswerMessage(id, outcome), Some(|s.log.accepted|));
  }

  lemma CancelOutgoing(s: State, id: Id)
    requires Outgoing(s)
    ensures Outgoing(CancelOne(s, id))
  {
    if id in s.canceller {
      OutgoingInCalls();
      CallKeeps(Outgoing, Requesting(s, id));
    }
  }

  lemma OutgoingStable()
    ensures Stable(Outgoing)
  {
    forall s, p ensures Kept(Outgoing, s, p) {
      if Outgoing(s) && Enabled(s, p) {
        OutgoingKept(s, p);
      }
    }
  }

  /** In every run, until Close, acknowledged frames followed by the queue are exactly what was pushed. */
  lemma OutgoingOrder(l: Launch, es: seq<Event>)
    ensures Outgoing(After(l, es))
  {
    OutgoingStable();
    RunKeeps(Outgoing, Execute(l), es);
  }

  lemma TaskStaysOpen(s: State)
    ensures Task(s).0.closed == s.closed
  {
    var s1 := RunCallbacks(SetLoop(s, true));
    assert Flush(s1).0.closed == s.closed;
  }

  lemma StepStaysOpen(s: State, e: Event)
    requires !e.Closed?
    ensures Step(s, e).closed == s.closed
  {
    if e.TaskStarted? {
      TaskStaysOpen(WithOracles(s, e.answers, e.replies, e.ctx));
    }
  }

  lemma {:induction false} OpenUntilClosed(l: Launch, es: seq<Event>)
    requires forall e :: e in es ==> !e.Closed?
    ensures !After(l, es).closed
    decreases |es|
  {
    if es != [] {
      var k := |es| - 1;
      assert es[k] in es;
      OpenUntilClosed(l, es[..k]);
      StepStaysOpen(After(l, es[..k]), es[k]);
    }
  }

  /** Of a run that ends with Close, the worker has acknowledged exactly the pushes up to what was still in
      the queue; that rest is thrown away. */
  lemma CloseDiscards(l: Launch, es: seq<Event>, e: Event)
    requires e.Closed? && forall x :: x in es ==> !x.Closed?
    ensures var r := After(l, es + [e]);
            && r.out.queue == [] && r.out.sent == After(l, es).out.sent
            && Bodies(r.out.sent) == Concat(r.out.frames) + After(l, es).out.queue
  {
    OutgoingOrder(l, es);
    OpenUntilClosed(l, es);
    assert (es + [e])[..|es|] == es;
    assert After(l, es + [e]) == Step(After(l, es), e);
  }

  // ---------------------------------------------------------------------------------------------
  // What is queued goes next
  // ---------------------------------------------------------------------------------------------

  /** `r` has pushed more answers than `s`, but no command, and acknowledged nothing more. */
  ghost predicate Pushed(s: State, r: State)
  {
    && r.run == s.run && r.closed == s.closed && r.out.frames == s.out.frames && r.log.handed == s.log.handed
    && s.counter <= r.counter && s.out.sent <= r.out.sent && s.out.queue <= r.out.queue
    && (forall i :: |s.out.sent| <= i < |r.out.sent| ==> !r.out.sent[i].msg.IsCommand())
    && (forall i :: |s.out.queue| <= i < |r.out.queue| ==> !r.out.queue[i].IsCommand())
  }

  lemma FirePushed(s: State, f: WorkflowModel.Firing)
    ensures Pushed(s, Fire(s, f))
  {
  }

  lemma {:induction false} FireAllPushed(s: State, fs: seq<WorkflowModel.Firing>)
    ensures Pushed(s, FireAll(s, fs))
    decreases |fs|
  {
    if fs != [] {
      FirePushed(s, fs[0]);
      FireAllPushed(Fire(s, fs[0]), fs[1..]);
    }
  }

  lemma CallPushed(s: State)
    ensures Pushed(s, Call(s))
  {
    FireAllPushed(Popped(s), Answered(s).fires);
  }

  lemma ListenPushed(s: State, id: Id, child: Id)
    ensures Pushed(s, Listen(s, id, child))
  {
  }

  lemma RespondPushed(s: State, id: Id, outcome: Outcome, discard: bool)
    ensures Pushed(s, Respond(s, id, outcome, discard))
  {
  }

  /** The steps that push answers only: all but sending a command, flushing and closing. */
  predicate Pushes(p: Prim) { !p.Sending? && !p.Flushing? && !p.Discarding? }

  lemma StepPushed(s: State, p: Prim)
    requires Enabled(s, p) && Pushes(p)
    ensures Pushed(s, Apply(s, p))
  {
    match p
    case Firing(f) => FirePushed(s, f);
    case Starting(id, role) => CallPushed(Begin(s, id, role));
    case Listening(id, child) => ListenPushed(s, id, child);
    case Responding(id, outcome, discard) => RespondPushed(s, id, outcome, discard);
    case Cancelling(id) =>
      if id in s.canceller {
        CallPushed(Requesting(s, id));
      }
    case _ =>
  }

  /** Until Close, `q` heads the frame at position `n`, or the queue if that frame has not been acknowledged. */
  predicate Heads(s: State, n: nat, q: seq<Message>)
  {
    !s.closed ==>
      n <= |s.out.frames| && if |s.out.frames| == n then q <= s.out.queue else q <= s.out.frames[n]
  }

  lemma PushedHeads(s: State, r: State, n: nat, q: seq<Message>)
    requires Heads(s, n, q) && Pushed(s, r)
    ensures Heads(r, n, q)
  {
  }

  lemma FlushHeads(s: State, n: nat, q: seq<Message>)
    requires Heads(s, n, q)
    ensures Heads(Flush(s).0, n, q)
  {
  }

  lemma SendHeads(s: State, command: Command, payloads: Payloads, header: Header, n: nat, q: seq<Message>)
    requires Heads(s, n, q)
    ensures Heads(Send(s, command, payloads, header), n, q)
  {
  }

  lemma HeadsStable(n: nat, q: seq<Message>)
    ensures Stable(s => Heads(s, n, q))
  {
    var inv := s => Heads(s, n, q);
    forall s, p ensures Kept(inv, s, p) {
      if inv(s) && Enabled(s, p) {
        if Pushes(p) {
          StepPushed(s, p);
          PushedHeads(s, Apply(s, p), n, q);
        } else if p.Flushing? {
          FlushHeads(s, n, q);
        } else if p.Sending? {
          SendHeads(s, p.command, p.payloads, p.header, n, q);
        }
      }
    }
  }

  /** Whatever heads the queue at some point of a run heads the next frame the worker acknowledges, however
      many exchanges fail before that; until then it heads the queue. */
  lemma QueuedGoesNext(l: Launch, es: seq<Event>, more: seq<Event>, q: seq<Message>)
    requires q <= After(l, es).out.queue
    ensures Heads(After(l, es + more), |After(l, es).out.frames|, q)
  {
    var n := |After(l, es).out.frames|;
    HeadsStable(n, q);
    RunKeeps(s => Heads(s, n, q), After(l, es), more);
    RunSplit(Execute(l), es, more);
  }

  /** The history of pushes only grows. */
  lemma SentGrows(s: State, es: seq<Event>)
    ensures s.out.sent <= Run(s, es).out.sent
  {
    var inv := (t: State) => s.out.sent <= t.out.sent;
    forall t, p ensures Kept(inv, t, p) {
      if inv(t) && Enabled(t, p) && Pushes(p) {
        StepPushed(t, p);
      }
    }
    RunKeeps(inv, s, es);
  }

  /** The start command carries the input, followed by the result of the last completion if there is one, and says
      how many of its payloads belong to that. */
  lemma StartCarries(l: Launch)
    ensures var m := Start(l);
            var last := if l.last.None? then [] else l.last.value;
            && m.command == Some(StartWorkflow(l.run.runId, |last|)) && m.header == l.run.header && m.failure.None?
            && (last == [] ==> m.payloads == l.input)
            && (last != [] ==>
                  var input := if l.input.None? then [] else l.input.value;
                  && m.payloads.Some? && |m.payloads.value| == |input| + |last|
                  && m.payloads.value[..|input|] == input && m.payloads.value[|input|..] == last)
  {
  }

  /** In every run, whatever arrives before the first task and however often its first flush fails, the first
      message pushed is StartWorkflow with the input of the run, and so is, until Close, the first message of the
      first frame the worker acknowledges, or of the queue as long as it has acknowledged none. */
  lemma StartComesFirst(l: Launch, es: seq<Event>)
    ensures After(l, es).out.sent != [] && After(l, es).out.sent[0].msg == Start(l)
    ensures Heads(After(l, es), 0, [Start(l)])
  {
    SentGrows(Execute(l), es);
    assert [] + es == es;
    assert Execute(l).out.queue == [Start(l)];
    QueuedGoesNext(l, [], es, [Start(l)]);
  }
}
