/** What the exchanges with the worker contain, and how many there are. */
module Exchanges {
  import opened Protocol
  import opened Codec
  import opened WorkflowModel
  import opened WorkflowInduction
  import opened Ordering

  // ---------------------------------------------------------------------------------------------
  // What handlers push
  // ---------------------------------------------------------------------------------------------

  /** The answer a handler invocation brings: none if the environment no longer holds the handler, or if a
      started child has no listener. */
  function Effect(s: State, f: WorkflowModel.Firing): seq<Message>
  {
    match f
    case Completed(op, outcome) =>
      if op in s.world.live then [AnswerMessage(s.world.live[op], outcome)] else []
    case Started(op, outcome) =>
      if op in s.world.starting && s.world.starting[op] in s.registry.listeners
      then [AnswerMessage(s.registry.listeners[s.world.starting[op]].id, outcome)] else []
  }

  function Effects(s: State, fs: seq<WorkflowModel.Firing>): seq<Message>
    decreases |fs|
  {
    if fs == [] then [] else Effect(s, fs[0]) + Effects(Fire(s, fs[0]), fs[1..])
  }

  function CallEffects(s: State): seq<Message> { Effects(Popped(s), Answered(s).fires) }

  lemma {:induction false} FireAllPushes(s: State, fs: seq<WorkflowModel.Firing>)
    requires s.inLoop
    ensures FireAll(s, fs).out.queue == s.out.queue + Effects(s, fs)
    decreases |fs|
  {
    if fs != [] {
      FireAllPushes(Fire(s, fs[0]), fs[1..]);
      assert Fire(s, fs[0]).out.queue == s.out.queue + Effect(s, fs[0]);
    }
  }

  // ---------------------------------------------------------------------------------------------
  // The batch of a Cancel command
  // ---------------------------------------------------------------------------------------------

  /** What one id of a Cancel contributes: the answers the environment gives inside the request. */
  function CancelGroup(s: State, id: Id): seq<Message>
  {
    if id in s.canceller && s.canceller[id].live then CallEffects(Requesting(s, id)) else []
  }

  function CancelGroups(s: State, ids: seq<Id>): (groups: seq<seq<Message>>)
    ensures |groups| == |ids|
    decreases |ids|
  {
    if ids == [] then [] else [CancelGroup(s, ids[0])] + CancelGroups(CancelOne(s, ids[0]), ids[1..])
  }

  lemma CancelOnePushes(s: State, id: Id)
    requires s.inLoop
    ensures CancelOne(s, id).out.queue == s.out.queue + CancelGroup(s, id)
  {
    if id in s.canceller && s.canceller[id].live {
      FireAllPushes(Popped(Requesting(s, id)), Answered(s).fires);
    }
  }

  lemma {:induction false} ConcatCons<T>(first: seq<T>, rest: seq<seq<T>>)
    ensures Concat([first] + rest) == first + Concat(rest)
  {
    var all := [first] + rest;
    var k := |rest|;
    if k == 0 {
      assert all[..0] == [];
    } else {
      ConcatCons(first, rest[..k - 1]);
      assert all[..k] == [first] + rest[..k - 1] && all[k] == rest[k - 1];
      assert first + (Concat(rest[..k - 1]) + rest[k - 1]) == first + Concat(rest[..k - 1]) + rest[k - 1];
    }
  }

  lemma {:induction false} CancelAllPushes(s: State, ids: seq<Id>)
    requires s.inLoop
    ensures CancelAll(s, ids).out.queue == s.out.queue + Concat(CancelGroups(s, ids))
    decreases |ids|
  {
    if ids != [] {
      CancelOnePushes(s, ids[0]);
      CancelAllPushes(CancelOne(s, ids[0]), ids[1..]);
      ConcatCons(CancelGroup(s, ids[0]), CancelGroups(CancelOne(s, ids[0]), ids[1..]));
    }
  }

  /** The batch a Cancel command flushes: the queue before it, what each cancelled operation pushed in the
      order of the ids, and last the answer to the Cancel itself. */
  function Cancelled(s: State, id: Id, ids: seq<Id>): seq<Message>
  {
    s.out.queue + Concat(CancelGroups(s, ids)) + [Message(id, None, None, Some(["completed"]), None)]
  }

  /** Only the flush of a Cancel can fail, and what it acknowledges is that batch. */
  lemma CancelBatch(s: State, id: Id, ids: seq<Id>)
    requires s.inLoop
    ensures var (r, flow) := HandleCancel(s, id, ids);
            && (flow == Continue <==>
                  Encoded(s.run.formats, s.world.ctx, Cancelled(s, id, ids)).Some?
                  && Batch(s.run.formats, Replied(s)).Some?)
            && (flow == Continue ==> r.out.queue == [] && r.out.frames == s.out.frames + [Cancelled(s, id, ids)])
  {
    CancelAllPushes(s, ids);
    var s1 := Respond(CancelAll(s, ids), id, COMPLETED, false);
    assert s1.out.queue == Cancelled(s, id, ids) && Replied(s1) == Replied(s);
  }

  /** If the environment completes nothing in a request but the operation to cancel, each id contributes at
      most one message, and that message carries the id. */
  lemma CancelGroupIsOwn(s: State, id: Id)
    requires id in s.canceller && s.canceller[id].op in s.world.live ==> s.world.live[s.canceller[id].op] == id
    requires forall f :: f in Answered(s).fires ==> f.Completed? && id in s.canceller && f.op == s.canceller[id].op
    ensures CancelGroup(s, id) == [] || exists outcome :: CancelGroup(s, id) == [AnswerMessage(id, outcome)]
  {
    var fs := Answered(s).fires;
    if id in s.canceller && fs != [] {
      var s1 := Popped(Requesting(s, id));
      assert fs[0] in fs;
      NothingLeft(Fire(s1, fs[0]), fs[1..], s.canceller[id].op);
      if s.canceller[id].op in s1.world.live {
        assert Effects(s1, fs) == [AnswerMessage(id, fs[0].outcome)];
      }
    }
  }

  lemma {:induction false} NothingLeft(s: State, fs: seq<WorkflowModel.Firing>, op: Op)
    requires op !in s.world.live && forall f :: f in fs ==> f.Completed? && f.op == op
    ensures Effects(s, fs) == []
    decreases |fs|
  {
    if fs != [] {
      assert fs[0] in fs;
      NothingLeft(s, fs[1..], op);
    }
  }

  // ---------------------------------------------------------------------------------------------
  // The first batch of a task
  // ---------------------------------------------------------------------------------------------

  /** What an event between two tasks brings: a command of the host, or a completion. */
  datatype Arrival = HostCommand(msg: Message) | Completion(msg: Message)

  function Completions(ms: seq<Message>): seq<Arrival>
  {
    seq(|ms|, i requires 0 <= i < |ms| => Completion(ms[i]))
  }

  function Arrives(s: State, e: Event): seq<Arrival>
  {
    match e
    case SignalReceived(name, payloads, header) =>
      [HostCommand(Message(Next(s.counter), Some(InvokeSignal(s.run.runId, name)), None, payloads, header))]
    case CancelRequested =>
      [HostCommand(Message(Next(s.counter), Some(CancelWorkflow(s.run.runId)), None, None, s.run.header))]
    case Fired(f) => Completions(Effect(s, f))
    case _ => []
  }

  function Arrivals(s: State, es: seq<Event>): seq<Arrival>
  {
    if es == [] then []
    else Arrivals(s, es[..|es| - 1]) + Arrives(Run(s, es[..|es| - 1]), es[|es| - 1])
  }

  /** The messages of the commands (or of the completions) among the arrivals, in arrival order. */
  function Select(arrivals: seq<Arrival>, commands: bool): seq<Message>
  {
    if arrivals == [] then []
    else
      var x := arrivals[|arrivals| - 1];
      Select(arrivals[..|arrivals| - 1], commands) + (if x.HostCommand? == commands then [x.msg] else [])
  }

  lemma SelectSnoc(arrivals: seq<Arrival>, more: seq<Arrival>, commands: bool)
    requires |more| <= 1
    ensures Select(arrivals + more, commands)
         == Select(arrivals, commands) + (if more != [] && more[0].HostCommand? == commands then [more[0].msg] else [])
  {
    if more == [] {
      assert arrivals + more == arrivals;
    } else {
      assert (arrivals + more)[..|arrivals|] == arrivals;
    }
  }

  predicate BetweenTasks(e: Event) { !e.TaskStarted? && !e.Closed? }

  function DeferredAnswers(ds: seq<Deferred>): seq<Message>
  {
    if ds == [] then [] else [AnswerMessage(ds[0].id, ds[0].outcome)] + DeferredAnswers(ds[1..])
  }

  lemma {:induction false} DeferredAnswersSnoc(ds: seq<Deferred>, d: Deferred)
    ensures DeferredAnswers(ds + [d]) == DeferredAnswers(ds) + [AnswerMessage(d.id, d.outcome)]
  {
    if ds != [] {
      assert (ds + [d])[1..] == ds[1..] + [d];
      DeferredAnswersSnoc(ds[1..], d);
    }
  }

  lemma {:induction false} CallbacksPush(s: State)
    ensures RunCallbacks(s).out.queue == s.out.queue + DeferredAnswers(s.callbacks)
    decreases |s.callbacks|
  {
    if s.callbacks != [] {
      CallbacksPush(RunCallback(s));
    }
  }

  /** `r` is `s` after the arrivals: commands are in the queue, completions are deferred. */
  predicate Recorded(s: State, r: State, arrivals: seq<Arrival>)
  {
    && !r.inLoop && r.out.frames == s.out.frames
    && r.out.queue == s.out.queue + Select(arrivals, true)
    && DeferredAnswers(r.callbacks) == DeferredAnswers(s.callbacks) + Select(arrivals, false)
  }

  lemma FiringDefers(s: State, f: WorkflowModel.Firing)
    requires !s.inLoop
    ensures var r := Fire(s, f);
            && r.out == s.out.(given := r.out.given) && |Effect(s, f)| <= 1
            && DeferredAnswers(r.callbacks) == DeferredAnswers(s.callbacks) + Effect(s, f)
  {
    var r := Fire(s, f);
    if r.callbacks != s.callbacks {
      DeferredAnswersSnoc(s.callbacks, r.callbacks[|s.callbacks|]);
    }
  }

  function HostPart(a: seq<Arrival>): seq<Message> { if a != [] && a[0].HostCommand? then [a[0].msg] else [] }

  function DeferredPart(a: seq<Arrival>): seq<Message> { if a != [] && a[0].Completion? then [a[0].msg] else [] }

  /** `r` is `s` after one event that brought `a`. */
  predicate OneArrival(s: State, r: State, a: seq<Arrival>)
  {
    && !r.inLoop && |a| <= 1 && r.out.frames == s.out.frames && r.out.queue == s.out.queue + HostPart(a)
    && DeferredAnswers(r.callbacks) == DeferredAnswers(s.callbacks) + DeferredPart(a)
  }

  lemma StepArrives(s: State, e: Event)
    requires !s.inLoop && BetweenTasks(e)
    ensures OneArrival(s, Step(s, e), Arrives(s, e))
  {
    if e.Fired? {
      FiringDefers(s, e.firing);
    } else {
      assert Step(s, e).callbacks == s.callbacks;
    }
  }

  lemma SelectParts(arrivals: seq<Arrival>, a: seq<Arrival>)
    requires |a| <= 1
    ensures Select(arrivals + a, true) == Select(arrivals, true) + HostPart(a)
    ensures Select(arrivals + a, false) == Select(arrivals, false) + DeferredPart(a)
  {
    SelectSnoc(arrivals, a, true);
    SelectSnoc(arrivals, a, false);
  }

  lemma Regroup(a: seq<Message>, b: seq<Message>, c: seq<Message>)
    ensures a + b + c == a + (b + c)
  {
  }

  lemma ArrivalRecorded(s: State, r: State, t: State, arrivals: seq<Arrival>, a: seq<Arrival>)
    requires Recorded(s, r, arrivals) && OneArrival(r, t, a)
    ensures Recorded(s, t, arrivals + a)
  {
    SelectParts(arrivals, a);
    Regroup(s.out.queue, Select(arrivals, true), HostPart(a));
    Regroup(DeferredAnswers(s.callbacks), Select(arrivals, false), DeferredPart(a));
  }

  lemma {:induction false} ArrivalsRecorded(s: State, es: seq<Event>)
    requires !s.inLoop && forall e :: e in es ==> BetweenTasks(e)
    ensures Recorded(s, Run(s, es), Arrivals(s, es))
    decreases |es|
  {
    if es != [] {
      var k := |es| - 1;
      assert es[k] in es;
      ArrivalsRecorded(s, es[..k]);
      var r := Run(s, es[..k]);
      StepArrives(r, es[k]);
      ArrivalRecorded(s, r, Step(r, es[k]), Arrivals(s, es[..k]), Arrives(r, es[k]));
    }
  }

  /** The residue of the last task, then the commands that arrived since, then the completions that arrived
      since, both in arrival order: a stable partition of what happened between two tasks. */
  function FirstBatch(s: State, es: seq<Event>): seq<Message>
  {
    s.out.queue + Select(Arrivals(s, es), true) + Select(Arrivals(s, es), false)
  }

  lemma OfferedBatch(s: State, t: State, arrivals: seq<Arrival>)
    requires Recorded(s, t, arrivals) && s.callbacks == []
    ensures RunCallbacks(SetLoop(t, true)).out.queue == s.out.queue + Select(arrivals, true) + Select(arrivals, false)
  {
    CallbacksPush(SetLoop(t, true));
  }

  lemma TaskFrames(t: State, batch: seq<Message>)
    requires RunCallbacks(SetLoop(t, true)).out.queue == batch != []
    requires Encoded(t.run.formats, t.world.ctx, batch).Some? && Batch(t.run.formats, Replied(t)).Some?
    ensures t.out.frames + [batch] <= Task(t).0.out.frames
  {
    var s1 := RunCallbacks(SetLoop(t, true));
    assert Flush(s1).0.out.frames == t.out.frames + [batch];
  }

  lemma QuietFrame(s: State, es: seq<Event>, answers: seq<Answer>, replies: seq<Reply>, ctx: Context)
    requires !s.inLoop && s.callbacks == [] && forall e :: e in es ==> BetweenTasks(e)
    ensures var t := WithOracles(Run(s, es), answers, replies, ctx);
            && FirstBatch(s, es) != [] && Encoded(t.run.formats, ctx, FirstBatch(s, es)).Some?
            && Batch(t.run.formats, Replied(t)).Some? ==>
              s.out.frames + [FirstBatch(s, es)] <= Task(t).0.out.frames
  {
    ArrivalsRecorded(s, es);
    var t := WithOracles(Run(s, es), answers, replies, ctx);
    OfferedBatch(s, t, Arrivals(s, es));
    if FirstBatch(s, es) != [] && Encoded(t.run.formats, ctx, FirstBatch(s, es)).Some?
       && Batch(t.run.formats, Replied(t)).Some? {
      TaskFrames(t, FirstBatch(s, es));
    }
  }

  /** Every task ends outside the loop with nothing deferred, so the next one starts as above. */
  lemma TaskEndsQuiet(s: State)
    ensures !Task(s).0.inLoop && Task(s).0.callbacks == []
  {
    TaskKeeps(_ => true, s);
  }

  /** Nothing has happened yet, or a task has just ended. */
  predicate AtTaskEnd(before: seq<Event>) { before == [] || before[|before| - 1].TaskStarted? }

  lemma QuietAtTaskEnd(l: Launch, before: seq<Event>)
    requires AtTaskEnd(before)
    ensures !After(l, before).inLoop && After(l, before).callbacks == []
  {
    if before != [] {
      var e := before[|before| - 1];
      TaskEndsQuiet(WithOracles(After(l, before[..|before| - 1]), e.answers, e.replies, e.ctx));
    }
  }

  /** In every run, the first frame a task has acknowledged is the residue of the task before it, then the
      commands that arrived since, then the completions that arrived since. */
  lemma {:induction false} FirstFrame(l: Launch, before: seq<Event>, es: seq<Event>, task: Event)
    requires AtTaskEnd(before) && task.TaskStarted? && forall e :: e in es ==> BetweenTasks(e)
    ensures var s := After(l, before);
            var t := WithOracles(After(l, before + es), task.answers, task.replies, task.ctx);
            && FirstBatch(s, es) != [] && Encoded(t.run.formats, task.ctx, FirstBatch(s, es)).Some?
            && Batch(t.run.formats, Replied(t)).Some? ==>
              s.out.frames + [FirstBatch(s, es)] <= After(l, before + es + [task]).out.frames
  {
    QuietAtTaskEnd(l, before);
    QuietFrame(After(l, before), es, task.answers, task.replies, task.ctx);
    RunSplit(Execute(l), before, es);
    assert (before + es + [task])[..|before + es|] == before + es;
    assert After(l, before + es + [task]) == Step(After(l, before + es), task);
  }

  // ---------------------------------------------------------------------------------------------
  // How many exchanges a task makes
  // ---------------------------------------------------------------------------------------------

  predicate Flushes(m: Message) { m.command.Some? && EndsInFlush(m.command.value) }

  function Flushers(fates: seq<Fate>): nat
  {
    if fates == [] then 0
    else
      var x := fates[|fates| - 1];
      Flushers(fates[..|fates| - 1]) + (if x.Taken? && Flushes(x.msg) then 1 else 0)
  }

  lemma FlushersSnoc(fates: seq<Fate>, x: Fate)
    ensures Flushers(fates + [x]) == Flushers(fates) + (if x.Taken? && Flushes(x.msg) then 1 else 0)
  {
  }

  lemma {:induction false} FlushersDropped(fates: seq<Fate>, ms: seq<Message>)
    ensures Flushers(fates + AllDropped(ms)) == Flushers(fates)
  {
    if ms == [] {
      assert fates + AllDropped(ms) == fates;
    } else {
      var k := |ms| - 1;
      FlushersDropped(fates, ms[..k]);
      assert fates + AllDropped(ms) == (fates + AllDropped(ms[..k])) + [Dropped(ms[k])];
      FlushersSnoc(fates + AllDropped(ms[..k]), Dropped(ms[k]));
    }
  }

  /** The exchanges made beyond those the messages taken account for. */
  function Excess(s: State): int { |s.log.handed| - Flushers(s.input.consumed) }

  lemma TurnExchanges(s: State)
    requires s.input.pipeline != []
    ensures Excess(Turn(s).0) <= Excess(s)
  {
    var m := s.input.pipeline[0];
    var s1 := Take(s);
    FlushersSnoc(s.input.consumed, Taken(m));
    if m.IsCommand() {
      FlushersDropped(s1.input.consumed, s1.input.pipeline);
      FlushersDropped(s1.input.consumed, Handle(s1, m).0.input.pipeline);
    }
  }

  lemma {:induction false} LoopExchanges(s: State)
    ensures Excess(Loop(s).0) <= Excess(s)
    decreases Budget(s)
  {
    if s.input.pipeline != [] {
      TurnExchanges(s);
      LoopExchanges(Turn(s).0);
    }
  }

  /** A task, however it ends, makes at most one exchange more than the GetVersion, SideEffect and Cancel
      messages it takes. */
  lemma TaskExchanges(s: State)
    ensures Excess(Task(s).0) <= Excess(s) + 1
  {
    LoopExchanges(HandleUpdates(FirstFlush(s).0));
  }

  lemma TurnBounded(s: State)
    requires s.input.pipeline != []
    ensures var r := Turn(s).0; |r.input.consumed| + Budget(r) <= |s.input.consumed| + Budget(s)
  {
  }

  /** The task loop ends after at most as many messages as are in the pipeline or can still be sent. */
  lemma {:induction false} LoopBounded(s: State)
    ensures var r := Loop(s).0; |r.input.consumed| + Budget(r) <= |s.input.consumed| + Budget(s)
    decreases Budget(s)
  {
    if s.input.pipeline != [] {
      TurnBounded(s);
      LoopBounded(Turn(s).0);
    }
  }
}
