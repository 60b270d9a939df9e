/** An induction principle for runs: what every primitive step keeps, every run keeps. */
module WorkflowInduction {
  import opened Protocol
  import opened WorkflowModel

  /** The primitive steps runs are made of. `Misc` stands for any change outside the core of the state. */
  datatype Prim =
    | Sending(command: Command, payloads: Payloads, header: Header)
    | Firing(f: WorkflowModel.Firing)
    | CallingBack
    | Flushing
    | Taking
    | Dropping
    | Starting(id: Id, role: Role)
    | Listening(id: Id, child: Id)
    | Responding(id: Id, outcome: Outcome, discard: bool)
    | Cancelling(id: Id)
    | Discarding
    | Misc(t: State)

  /** Commands are only handled inside the loop, after the deferred callbacks have been run. */
  predicate Handling(s: State) { s.inLoop && s.callbacks == [] }

  /** The commands the host puts into its queue. */
  predicate HostSends(c: Command) { c.StartWorkflow? || c.InvokeSignal? || c.CancelWorkflow? }

  ghost predicate Enabled(s: State, p: Prim)
  {
    match p
    case Sending(command, _, _) => HostSends(command)
    case Firing(_) => true
    case CallingBack => s.inLoop && s.callbacks != []
    case Flushing => true
    case Taking => s.input.pipeline != []
    case Dropping => true
    case Starting(_, role) => Handling(s) && !role.Listener? && !role.Immediate?
    case Listening(_, _) => Handling(s)
    case Responding(_, _, _) => Handling(s)
    case Cancelling(_) => Handling(s)
    case Discarding => true
    case Misc(t) => SameCore(s, t)
  }

  ghost function Apply(s: State, p: Prim): State
    requires Enabled(s, p)
  {
    match p
    case Sending(command, payloads, header) => Send(s, command, payloads, header)
    case Firing(f) => Fire(s, f)
    case CallingBack => RunCallback(s)
    case Flushing => Flush(s).0
    case Taking => Take(s)
    case Dropping => Drop(s)
    case Starting(id, role) => StartOp(s, id, role)
    case Listening(id, child) => Listen(s, id, child)
    case Responding(id, outcome, discard) => Respond(s, id, outcome, discard)
    case Cancelling(id) => CancelOne(s, id)
    case Discarding => s.(out := s.out.(queue := []), closed := true)
    case Misc(t) => t
  }

  ghost predicate Kept(inv: State -> bool, s: State, p: Prim)
  {
    inv(s) && Enabled(s, p) ==> inv(Apply(s, p))
  }

  ghost predicate Stable(inv: State -> bool)
  {
    forall s, p :: Kept(inv, s, p)
  }

  lemma Keeps(inv: State -> bool, s: State, p: Prim)
    requires Stable(inv) && inv(s) && Enabled(s, p)
    ensures inv(Apply(s, p))
  {
    assert Kept(inv, s, p);
  }

  /** Enough for whatever an environment call does: handlers fire, and an answer is used up. */
  ghost predicate StableInCalls(inv: State -> bool)
  {
    forall s: State, p: Prim | p.Firing? || p.Misc? :: Kept(inv, s, p)
  }

  lemma {:induction false} FireAllKeeps(inv: State -> bool, s: State, fs: seq<WorkflowModel.Firing>)
    requires StableInCalls(inv) && inv(s)
    ensures inv(FireAll(s, fs))
    decreases |fs|
  {
    if fs != [] {
      assert Kept(inv, s, Firing(fs[0]));
      FireAllKeeps(inv, Fire(s, fs[0]), fs[1..]);
    }
  }

  lemma CallKeeps(inv: State -> bool, s: State)
    requires StableInCalls(inv) && inv(s)
    ensures inv(Call(s))
  {
    assert Kept(inv, s, Misc(Popped(s)));
    FireAllKeeps(inv, Popped(s), Answered(s).fires);
  }

  lemma {:induction false} CancelAllKeeps(inv: State -> bool, s: State, ids: seq<Id>)
    requires Stable(inv) && inv(s) && Handling(s)
    ensures inv(CancelAll(s, ids)) && Handling(CancelAll(s, ids))
    decreases |ids|
  {
    if ids != [] {
      Keeps(inv, s, Cancelling(ids[0]));
      CancelAllKeeps(inv, CancelOne(s, ids[0]), ids[1..]);
    }
  }

  lemma RespondAndFlushKeeps(inv: State -> bool, s: State, id: Id, outcome: Outcome, discard: bool)
    requires Stable(inv) && inv(s) && Handling(s)
    ensures inv(Respond(s, id, outcome, discard)) && inv(Flush(Respond(s, id, outcome, discard)).0)
  {
    Keeps(inv, s, Responding(id, outcome, discard));
    Keeps(inv, Respond(s, id, outcome, discard), Flushing);
  }

  lemma ExchangeKeeps(inv: State -> bool, s: State, id: Id, ids: seq<Id>)
    requires Stable(inv) && inv(s) && Handling(s)
    ensures inv(HandleVersion(s, id).0) && inv(HandleSideEffect(s, id).0) && inv(HandleCancel(s, id, ids).0)
  {
    CallKeeps(inv, s);
    Keeps(inv, Call(s), Misc(Unconverted(Call(s))));
    RespondAndFlushKeeps(inv, Call(s), id, Answered(s).result, false);
    RespondAndFlushKeeps(inv, Call(s), id, Answered(s).result, true);
    CancelAllKeeps(inv, s, ids);
    RespondAndFlushKeeps(inv, CancelAll(s, ids), id, COMPLETED, false);
  }

  lemma StartKeeps(inv: State -> bool, s: State, id: Id, role: Role)
    requires Stable(inv) && inv(s) && Handling(s) && !role.Listener? && !role.Immediate?
    ensures inv(StartOp(s, id, role))
  {
    Keeps(inv, s, Starting(id, role));
  }

  lemma EndKeeps(inv: State -> bool, s: State, id: Id, end: RunEnd)
    requires Stable(inv) && inv(s) && Handling(s)
    ensures inv(HandleEnd(s, id, end))
  {
    var s1 := Respond(s, id, COMPLETED, false);
    Keeps(inv, s, Responding(id, COMPLETED, false));
    Keeps(inv, s1, Misc(NoteEnd(s1, end)));
    CallKeeps(inv, NoteEnd(s1, end));
  }

  lemma RestKeeps(inv: State -> bool, s: State, m: Message)
    requires Stable(inv) && inv(s) && Handling(s) && m.IsCommand()
    ensures inv(HandleRest(s, m).0)
  {
    var (id, c) := (m.id, m.command.value);
    if c.GetChildWorkflowExecution? {
      Keeps(inv, s, Listening(id, c.child));
    } else if c.GetVersion? || c.SideEffect? {
      ExchangeKeeps(inv, s, id, []);
    } else if c.Cancel? {
      ExchangeKeeps(inv, s, id, c.commandIds);
    } else if EndOf(m).Some? {
      EndKeeps(inv, s, id, EndOf(m).value);
    } else if c.UpsertWorkflowSearchAttributes? {
      CallKeeps(inv, s);
    }
  }

  lemma HandleKeeps(inv: State -> bool, s: State, m: Message)
    requires Stable(inv) && inv(s) && Handling(s) && m.IsCommand()
    ensures inv(Handle(s, m).0)
  {
    var c := m.command.value;
    if PassedOver(m) {
    } else if Starts(c).None? {
      RestKeeps(inv, s, m);
    } else if c.ExecuteChildWorkflow? {
      Keeps(inv, s, Misc(NameChild(s, c.workflowId)));
      StartKeeps(inv, NameChild(s, c.workflowId), m.id, Child(ChildId(s, c.workflowId)));
    } else {
      StartKeeps(inv, s, m.id, Starts(c).value);
    }
  }

  lemma TurnKeeps(inv: State -> bool, s: State)
    requires Stable(inv) && inv(s) && Handling(s) && s.input.pipeline != []
    ensures inv(Turn(s).0) && Handling(Turn(s).0)
  {
    var m := s.input.pipeline[0];
    Keeps(inv, s, Taking);
    if m.IsCommand() {
      HandleKeeps(inv, Take(s), m);
      Keeps(inv, Take(s), Dropping);
      Keeps(inv, Handle(Take(s), m).0, Dropping);
    }
  }

  lemma {:induction false} LoopKeeps(inv: State -> bool, s: State)
    requires Stable(inv) && inv(s) && Handling(s)
    ensures inv(Loop(s).0) && Handling(Loop(s).0)
    decreases Budget(s)
  {
    if s.input.pipeline != [] {
      TurnKeeps(inv, s);
      LoopKeeps(inv, Turn(s).0);
    }
  }

  lemma {:induction false} RunCallbacksKeeps(inv: State -> bool, s: State)
    requires Stable(inv) && inv(s) && s.inLoop
    ensures inv(RunCallbacks(s)) && Handling(RunCallbacks(s))
    decreases |s.callbacks|
  {
    if s.callbacks != [] {
      Keeps(inv, s, CallingBack);
      RunCallbacksKeeps(inv, RunCallback(s));
    }
  }

  lemma FirstFlushKeeps(inv: State -> bool, s: State)
    requires Stable(inv) && inv(s)
    ensures inv(FirstFlush(s).0)
  {
    Keeps(inv, s, Misc(SetLoop(s, true)));
    RunCallbacksKeeps(inv, SetLoop(s, true));
    Keeps(inv, RunCallbacks(SetLoop(s, true)), Flushing);
  }

  lemma LeaveKeeps(inv: State -> bool, s: State)
    requires Stable(inv) && inv(s)
    ensures inv(SetLoop(s, false))
  {
    Keeps(inv, s, Misc(SetLoop(s, false)));
  }

  lemma DrainKeeps(inv: State -> bool, s: State)
    requires Stable(inv) && inv(s) && Handling(s)
    ensures inv(Drain(s).0) && Handling(Drain(s).0)
  {
    Keeps(inv, s, Misc(HandleUpdates(s)));
    LoopKeeps(inv, HandleUpdates(s));
  }

  lemma {:induction false} TaskKeeps(inv: State -> bool, s: State)
    requires Stable(inv) && inv(s)
    ensures inv(Task(s).0)
    ensures !Task(s).0.inLoop && Task(s).0.callbacks == []
  {
    FirstFlushKeeps(inv, s);
    var (s1, flow) := FirstFlush(s);
    if flow == Failed {
      LeaveKeeps(inv, s1);
    } else {
      DrainKeeps(inv, s1);
      LeaveKeeps(inv, Drain(s1).0);
    }
  }

  lemma CloseKeeps(inv: State -> bool, s: State)
    requires Stable(inv) && inv(s)
    ensures inv(Close(s))
  {
    var s1 := RunUpdates(s.(updates := s.updates.(parked := [])), s.updates.parked);
    var s2 := RunCommand(s1, DestroyWorkflow(s.run.runId), None, s.run.header).0;
    Keeps(inv, s, Misc(s2));
    Keeps(inv, s2, Discarding);
  }

  lemma SendKeeps(inv: State -> bool, s: State, command: Command, payloads: Payloads, header: Header)
    requires Stable(inv) && inv(s) && HostSends(command)
    ensures inv(Send(s, command, payloads, header))
  {
    Keeps(inv, s, Sending(command, payloads, header));
  }

  lemma MiscKeeps(inv: State -> bool, s: State, t: State)
    requires Stable(inv) && inv(s) && SameCore(s, t)
    ensures inv(t)
  {
    Keeps(inv, s, Misc(t));
  }

  /** The events that are neither a task nor Close. */
  lemma EventKeeps(inv: State -> bool, s: State, e: Event)
    requires Stable(inv) && inv(s) && !e.TaskStarted? && !e.Closed?
    ensures inv(Step(s, e))
  {
    match e
    case SignalReceived(name, payloads, header) =>
      SendKeeps(inv, s, InvokeSignal(s.run.runId, name), payloads, header);
    case CancelRequested => SendKeeps(inv, s, CancelWorkflow(s.run.runId), None, s.run.header);
    case Fired(f) => Keeps(inv, s, Firing(f));
    case _ => MiscKeeps(inv, s, Step(s, e));
  }

  lemma StepKeeps(inv: State -> bool, s: State, e: Event)
    requires Stable(inv) && inv(s)
    ensures inv(Step(s, e))
  {
    if e.TaskStarted? {
      MiscKeeps(inv, s, WithOracles(s, e.answers, e.replies, e.ctx));
      TaskKeeps(inv, WithOracles(s, e.answers, e.replies, e.ctx));
    } else if e.Closed? {
      MiscKeeps(inv, s, WithOracles(s, [], e.replies, e.ctx));
      CloseKeeps(inv, WithOracles(s, [], e.replies, e.ctx));
    } else {
      EventKeeps(inv, s, e);
    }
  }

  lemma {:induction false} RunSplit(s: State, a: seq<Event>, b: seq<Event>)
    ensures Run(s, a + b) == Run(Run(s, a), b)
    decreases |b|
  {
    if b == [] {
      assert a + b == a;
    } else {
      assert (a + b)[..|a + b| - 1] == a + b[..|b| - 1];
      RunSplit(s, a, b[..|b| - 1]);
    }
  }

  /** What holds at the start and is kept by every primitive step holds after every sequence of events. */
  lemma {:induction false} RunKeeps(inv: State -> bool, s: State, es: seq<Event>)
    requires Stable(inv) && inv(s)
    ensures inv(Run(s, es))
    decreases |es|
  {
    if es != [] {
      RunKeeps(inv, s, es[..|es| - 1]);
      StepKeeps(inv, Run(s, es[..|es| - 1]), es[|es| - 1]);
    }
  }
}
