/** Which commands do what: what can be cancelled, and what makes a task panic. */
module Dispatch {
  import opened Protocol
  import opened WorkflowModel
  import opened WorkflowInduction
  import opened Cancellation
  import CancelReach
  import Replay
  import Settlement

  // ---------------------------------------------------------------------------------------------
  // What can be cancelled
  // ---------------------------------------------------------------------------------------------

  /** The commands whose operations can be cancelled. */
  predicate CanBeCancelled(c: Command)
  {
    c.ExecuteActivity? || c.ExecuteLocalActivity? || c.ExecuteChildWorkflow? || c.NewTimer?
  }

  lemma CancellableRoles(c: Command, role: Role)
    requires Replay.Fits(c, role)
    ensures HasCanceller(role) <==> CanBeCancelled(c)
    ensures role.Timer? <==> c.NewTimer?
  {
  }

  predicate HasOne(s: State, op: Op) { op < |s.log.accepted| && HasCanceller(s.log.accepted[op].role) }

  predicate IsTimer(s: State, op: Op) { op < |s.log.accepted| && s.log.accepted[op].role.Timer? }

  /** Cancellers are registered for, and requests made about, operations that can be cancelled; only timers can
      lack a timer id. */
  predicate OnlyCancellable(s: State)
  {
    && (forall id :: id in s.canceller ==> HasOne(s, s.canceller[id].op))
    && (forall i :: 0 <= i < |s.log.requested| ==> HasOne(s, s.log.requested[i].op))
    && (forall op :: op in s.log.inert ==> IsTimer(s, op))
  }

  /** `r` has at most fewer cancellers than `s`, and more commands on the books. */
  predicate Shrunk(s: State, r: State)
  {
    && s.log.accepted <= r.log.accepted && r.log.requested == s.log.requested && r.log.inert == s.log.inert
    && forall id :: id in r.canceller ==> id in s.canceller && r.canceller[id] == s.canceller[id]
  }

  lemma ShrunkKept(s: State, r: State)
    requires OnlyCancellable(s) && Shrunk(s, r)
    ensures OnlyCancellable(r)
  {
  }

  lemma FireShrinks(s: State, f: WorkflowModel.Firing)
    ensures Shrunk(s, Fire(s, f))
  {
  }

  lemma InCalls()
    ensures StableInCalls(OnlyCancellable)
  {
    forall s: State, p: Prim | p.Firing? || p.Misc? ensures Kept(OnlyCancellable, s, p) {
      if OnlyCancellable(s) && Enabled(s, p) {
        match p
        case Firing(f) =>
          FireShrinks(s, f);
          ShrunkKept(s, Fire(s, f));
        case Misc(t) => ShrunkKept(s, t);
      }
    }
  }

  lemma AfterStartKept(s: State, o: Op, id: Id, role: Role, nilTimer: bool)
    requires OnlyCancellable(s) && o < |s.log.accepted| && s.log.accepted[o] == Accepted(id, role)
    ensures OnlyCancellable(AfterStart(s, o, id, role, nilTimer))
  {
  }

  lemma StartKept(s: State, id: Id, role: Role)
    requires OnlyCancellable(s)
    ensures OnlyCancellable(StartOp(s, id, role))
  {
    ShrunkKept(s, Begin(s, id, role));
    InCalls();
    CallKeeps(OnlyCancellable, Begin(s, id, role));
    AfterStartKept(Call(Begin(s, id, role)), |s.log.accepted|, id, role, Answered(s).nilTimer);
  }

  lemma RequestKept(s: State, id: Id)
    requires OnlyCancellable(s) && id in s.canceller
    ensures OnlyCancellable(Requesting(s, id))
  {
  }

  lemma CancelKept(s: State, id: Id)
    requires OnlyCancellable(s)
    ensures OnlyCancellable(CancelOne(s, id))
  {
    if id in s.canceller {
      RequestKept(s, id);
      InCalls();
      CallKeeps(OnlyCancellable, Requesting(s, id));
    }
  }

  lemma PlainShrinks(s: State, p: Prim)
    requires Enabled(s, p) && !p.Firing? && !p.Starting? && !p.Cancelling?
    ensures Shrunk(s, Apply(s, p))
  {
  }

  lemma OnlyCancellableStable()
    ensures Stable(OnlyCancellable)
  {
    forall s, p ensures Kept(OnlyCancellable, s, p) {
      if OnlyCancellable(s) && Enabled(s, p) {
        match p
        case Firing(f) =>
          FireShrinks(s, f);
          ShrunkKept(s, Fire(s, f));
        case Starting(id, role) => StartKept(s, id, role);
        case Cancelling(id) => CancelKept(s, id);
        case _ =>
          PlainShrinks(s, p);
          ShrunkKept(s, Apply(s, p));
      }
    }
  }

  /** The message whose command is on the books at a position. */
  function MessageAt(s: State, op: Op): Message
    requires Replay.Complete(s) && op < |s.log.accepted|
  {
    Replay.Owed(s.input.consumed, s.log.unconverted)[op]
  }

  lemma MessageFits(s: State, op: Op)
    requires Replay.Complete(s) && op < |s.log.accepted|
    ensures Replay.IsEntryOf(s.log.accepted[op], MessageAt(s, op))
  {
  }

  /** In every run the environment is asked to cancel operations of ExecuteActivity, ExecuteLocalActivity,
      ExecuteChildWorkflow and NewTimer commands only, and only timers are passed over for want of a timer id. */
  lemma OnlyTheseAreAsked(l: Launch, es: seq<Event>, op: Op)
    ensures Replay.Complete(After(l, es))
    ensures var s := After(l, es);
            && (Requested(s.log.requested, op) ==>
                  op < |s.log.accepted| && CanBeCancelled(MessageAt(s, op).command.value))
            && (op in s.log.inert ==> op < |s.log.accepted| && MessageAt(s, op).command.value.NewTimer?)
  {
    var s := After(l, es);
    Replay.BooksComplete(l, es);
    OnlyCancellableStable();
    RunKeeps(OnlyCancellable, Execute(l), es);
    if op < |s.log.accepted| {
      MessageFits(s, op);
      CancellableRoles(MessageAt(s, op).command.value, s.log.accepted[op].role);
    }
  }

  /** In every run without reused ids, the running operation of such a command is in the canceller table under the
      id of its message, unless it has been asked to cancel or is a timer without a timer id. */
  lemma TheseAreReachable(l: Launch, es: seq<Event>, op: Op)
    requires var s := After(l, es);
             Settlement.DistinctIds(s.log.accepted) && op in s.world.live && op < |s.log.accepted|
    ensures Replay.Complete(After(l, es))
    ensures var s := After(l, es);
            var m := MessageAt(s, op);
            CanBeCancelled(m.command.value) && !Requested(s.log.requested, op) && op !in s.log.inert ==>
              m.id in s.canceller && s.canceller[m.id] == Cancellable(op, true)
  {
    var s := After(l, es);
    Replay.BooksComplete(l, es);
    CancelReach.RunningIsReachable(l, es, op);
    MessageFits(s, op);
    CancellableRoles(MessageAt(s, op).command.value, s.log.accepted[op].role);
  }

  lemma HandleStarts(s: State, m: Message)
    requires m.IsCommand() && CanBeCancelled(m.command.value)
    ensures var r := Handle(s, m).0;
            var inert := m.command.value.NewTimer? && Answered(s).nilTimer;
            m.id in r.canceller && r.canceller[m.id] == Cancellable(|s.log.accepted|, !inert)
  {
  }

  lemma {:induction false} RequestsStay(s: State, ids: seq<Id>, op: Op)
    requires Requested(s.log.requested, op)
    ensures Requested(CancelAll(s, ids).log.requested, op)
    decreases |ids|
  {
    if ids != [] {
      CancelReach.CancelOneGrows(s, ids[0], op);
      RequestsStay(CancelOne(s, ids[0]), ids[1..], op);
    }
  }

  lemma CancelRequests(s: State, k: Message)
    requires k.command.Some? && k.command.value.Cancel?
    ensures Handle(s, k).0.log.requested == CancelAll(s, k.command.value.commandIds).log.requested
  {
  }

  /** An activity, local activity, child workflow or timer, started and then named first by a Cancel, is asked to
      cancel, if it has a timer id where it needs one: whether or not it has completed meanwhile. */
  lemma StartThenCancelAsks(s: State, m: Message, k: Message)
    requires m.IsCommand() && CanBeCancelled(m.command.value)
    requires m.command.value.NewTimer? ==> !Answered(s).nilTimer
    requires k.command.Some? && k.command.value.Cancel?
    requires k.command.value.commandIds != [] && k.command.value.commandIds[0] == m.id
    ensures Requested(Handle(Handle(s, m).0, k).0.log.requested, |s.log.accepted|)
  {
    var s1 := Handle(s, m).0;
    var ids := k.command.value.commandIds;
    HandleStarts(s, m);
    CancelReach.CancelAsksExactly(s1, m.id, |s.log.accepted|);
    RequestsStay(CancelOne(s1, m.id), ids[1..], |s.log.accepted|);
    CancelRequests(s1, k);
  }

  lemma OthersAreNotAsked(s: State, k: Message, op: Op)
    requires OnlyCancellable(s) && Handling(s) && k.IsCommand()
    requires op < |s.log.accepted| && !HasCanceller(s.log.accepted[op].role)
    ensures !Requested(Handle(s, k).0.log.requested, op)
  {
    OnlyCancellableStable();
    HandleKeeps(OnlyCancellable, s, k);
    Replay.HandleAdmits(s, k);
    assert Handle(s, k).0.log.accepted[op] == s.log.accepted[op];
  }

  lemma ExternalStarts(s: State, m: Message)
    requires m.IsCommand() && (m.command.value.SignalExternalWorkflow? || m.command.value.CancelExternalWorkflow?)
    ensures Handle(s, m).0 == StartOp(s, m.id, External)
  {
  }

  /** A signal or a cancel request sent to another workflow cannot be cancelled, whatever a Cancel names. */
  lemma ExternalIsNeverAsked(s: State, m: Message, k: Message)
    requires OnlyCancellable(s) && Handling(s) && m.IsCommand() && k.IsCommand()
    requires m.command.value.SignalExternalWorkflow? || m.command.value.CancelExternalWorkflow?
    requires k.command.value.Cancel?
    ensures !Requested(Handle(Handle(s, m).0, k).0.log.requested, |s.log.accepted|)
  {
    ExternalStarts(s, m);
    StartKept(s, m.id, External);
    OthersAreNotAsked(StartOp(s, m.id, External), k, |s.log.accepted|);
  }

  /** A child is started under the workflow id its command asks for, or under the one generated for it. */
  lemma ChildStartsUnderItsName(s: State, m: Message)
    requires m.IsCommand() && m.command.value.ExecuteChildWorkflow?
    ensures var r := Handle(s, m).0;
            var w := m.command.value.workflowId;
            && |r.log.accepted| == |s.log.accepted| + 1 && r.log.accepted[|s.log.accepted|].role.Child?
            && var name := r.log.accepted[|s.log.accepted|].role.workflowId;
               if w != "" then name == w && r.children == s.children
               else r.children.names == s.children.names + [name]
  {
  }

  /** The commands that start an operation in the environment. */
  predicate StartsOperation(c: Command)
  {
    CanBeCancelled(c) || c.SignalExternalWorkflow? || c.CancelExternalWorkflow?
  }

  /** The environment is given a result handler under the message's id, and for a child a start handler too; unless
      it invokes handlers at once, it still holds them when the call returns. */
  lemma HandlersAreTaken(s: State, m: Message)
    requires m.IsCommand() && StartsOperation(m.command.value) && Answered(s).fires == []
    ensures var (r, op) := (Handle(s, m).0, |s.log.accepted|);
            && r.world.live == s.world.live[op := m.id]
            && r.world.starting
               == (if m.command.value.ExecuteChildWorkflow? then s.world.starting[op := m.id] else s.world.starting)
  {
    var c := m.command.value;
    if c.ExecuteChildWorkflow? {
      StartTakes(NameChild(s, c.workflowId), m.id, Child(ChildId(s, c.workflowId)));
    } else {
      StartTakes(s, m.id, Starts(c).value);
    }
  }

  lemma StartTakes(s: State, id: Id, role: Role)
    requires Answered(s).fires == []
    ensures var (r, op) := (StartOp(s, id, role), |s.log.accepted|);
            && r.world.live == s.world.live[op := id]
            && r.world.starting == if role.Child? then s.world.starting[op := id] else s.world.starting
  {
    assert Call(Begin(s, id, role)) == Popped(Begin(s, id, role));
  }

  // ---------------------------------------------------------------------------------------------
  // What makes a task panic
  // ---------------------------------------------------------------------------------------------

  /** The commands that only the host sends; `handleMessage` has no case for them. */
  predicate OnlyHostSends(c: Command)
  {
    || c.GetWorkerInfo? || c.InvokeActivity? || c.InvokeLocalActivity? || c.StartWorkflow? || c.InvokeSignal?
    || c.InvokeQuery? || c.InvokeUpdate? || c.CancelWorkflow? || c.DestroyWorkflow? || c.GetStackTrace?
  }

  /** The message makes the turn that takes it panic. When a flush fails, `Delivery.FlushIsAllOrNothing` says. */
  predicate MakesPanic(s: State, m: Message)
  {
    m.command.Some? &&
      var (c, result) := (m.command.value, Answered(s).result);
      || c.UndefinedResponse? || (c.Panic? && m.failure.Some?) || OnlyHostSends(c)
      || (c.UpsertWorkflowSearchAttributes? && result.Fail?)
      || (c.GetVersion? && (result.Fail? || Flush(Respond(Call(s), m.id, result, false)).1 == Failed))
      || (c.SideEffect? && result.Ok? && Flush(Respond(Call(s), m.id, result, true)).1 == Failed)
      || (c.Cancel? && Flush(Respond(CancelAll(s, c.commandIds), m.id, COMPLETED, false)).1 == Failed)
  }

  /** What a flow has to satisfy to be that of a panic exactly when the message makes one. */
  predicate FlowFits(s: State, m: Message, panics: bool)
  {
    m.command.Some? &&
      var (c, result) := (m.command.value, Answered(s).result);
      if c.GetVersion? then
        panics <==> result.Fail? || Flush(Respond(Call(s), m.id, result, false)).1 == Failed
      else if c.SideEffect? then
        panics <==> result.Ok? && Flush(Respond(Call(s), m.id, result, true)).1 == Failed
      else if c.Cancel? then
        panics <==> Flush(Respond(CancelAll(s, c.commandIds), m.id, COMPLETED, false)).1 == Failed
      else panics <==> || OnlyHostSends(c) || (c.Panic? && m.failure.Some?)
                       || (c.UpsertWorkflowSearchAttributes? && result.Fail?)
  }

  lemma StarterFlow(s: State, m: Message)
    requires m.IsCommand() && Starts(m.command.value).Some?
    ensures FlowFits(s, m, Handle(s, m).1 != Continue)
  {
  }

  lemma VersionFlow(s: State, m: Message)
    requires m.IsCommand() && m.command.value.GetVersion?
    ensures FlowFits(s, m, Handle(s, m).1 != Continue)
  {
  }

  lemma SideEffectFlow(s: State, m: Message)
    requires m.IsCommand() && m.command.value.SideEffect?
    ensures FlowFits(s, m, Handle(s, m).1 != Continue)
  {
  }

  lemma CancelFlow(s: State, m: Message)
    requires m.IsCommand() && m.command.value.Cancel?
    ensures FlowFits(s, m, Handle(s, m).1 != Continue)
  {
  }

  lemma OtherFlow(s: State, m: Message)
    requires m.IsCommand() && Starts(m.command.value).None? && !EndsInFlush(m.command.value)
    requires !m.command.value.UndefinedResponse?
    ensures FlowFits(s, m, Handle(s, m).1 != Continue)
  {
  }

  lemma FlowFitsExactly(s: State, m: Message, panics: bool)
    requires FlowFits(s, m, panics) && !m.command.value.UndefinedResponse?
    ensures panics <==> MakesPanic(s, m)
  {
  }

  lemma TurnIsHandle(s: State)
    requires s.input.pipeline != []
    ensures var m := s.input.pipeline[0];
            Turn(s).1 == Panicked <==>
              m.IsCommand() && (m.command.value.UndefinedResponse? || Handle(Take(s), m).1 != Continue)
  {
  }

  lemma HandleFlow(s: State, m: Message)
    requires m.IsCommand() && !m.command.value.UndefinedResponse?
    ensures FlowFits(s, m, Handle(s, m).1 != Continue)
  {
    var c := m.command.value;
    if Starts(c).Some? {
      StarterFlow(s, m);
    } else if c.GetVersion? {
      VersionFlow(s, m);
    } else if c.SideEffect? {
      SideEffectFlow(s, m);
    } else if c.Cancel? {
      CancelFlow(s, m);
    } else {
      OtherFlow(s, m);
    }
  }

  /** A turn panics if and only if its message is an undefined response, a Panic with a failure, a command only the
      host sends, a refused upsert, a version request whose version cannot be converted, or a version request, a
      side effect with a good result or a Cancel whose flush fails. Any other message is passed over or handled. */
  lemma WhenTurnPanics(s: State)
    requires s.input.pipeline != []
    ensures Turn(s).1 == Panicked <==> MakesPanic(Take(s), s.input.pipeline[0])
  {
    var m := s.input.pipeline[0];
    TurnIsHandle(s);
    if m.IsCommand() && !m.command.value.UndefinedResponse? {
      HandleFlow(Take(s), m);
      FlowFitsExactly(Take(s), m, Handle(Take(s), m).1 != Continue);
    }
  }
}
