/** The workflow process as the program has it: an object whose methods update its fields in place. Each
    method is proved against the function of `WorkflowModel` it implements; what is proved of runs there
    holds of this object. The histories are ghost. */
module Workflows {
  import opened Protocol
  import opened Codec
  import opened WorkflowModel
  import opened MessageQueues
  import opened Cancellers
  import opened Pools

  /** The two maps of the child registry, one atomic operation each. */
  class IDRegistry {
    var entries: map<Id, Outcome>
    var listeners: map<Id, Waiter>

    constructor ()
      ensures entries == map[] && listeners == map[]
    {
      entries, listeners := map[], map[];
    }

    method StoreListener(child: Id, w: Waiter)
      modifies this
      ensures listeners == old(listeners)[child := w] && entries == old(entries)
    {
      listeners := listeners[child := w];
    }

    method StoreEntry(child: Id, outcome: Outcome)
      modifies this
      ensures entries == old(entries)[child := outcome] && listeners == old(listeners)
    {
      entries := entries[child := outcome];
    }
  }

  /** A message sent alone makes it to the worker, and the worker's answer is rejected unread: its payload does
      not return to the pool. */
  predicate Withheld(s: State, m: Message)
  {
    && Encoded(s.run.formats, s.world.ctx, [m]).Some?
    && (Replied(s).WorkerFailed? || Replied(s).Streaming? || Replied(s).NoResponse?)
  }

  class Workflow {
    const run: RunInfo
    const mq: MessageQueue
    const canceller: Canceller<Cancellable>
    const ids: IDRegistry
    const pldPool: PayloadPool
    var seqID: nat
    var pipeline: seq<Message>
    var updatesQueue: seq<string>
    var callbacks: seq<Deferred>
    var inLoop: bool

    // The environment and the worker: the handlers held, the updates queued, and the oracles.
    var world: World
    var nextOp: Op
    var parked: seq<Update>
    var received: nat
    var closed: bool

    /** The value of this object, its environment and its histories; `Valid` ties every field to it. */
    ghost var model: State

    /** The value with every part that this object has a field for read from that field. */
    ghost function Fields(): State
      requires mq.Valid()
      reads this, mq, mq.buf, mq.seqId, canceller, ids
    {
      model.(out := model.out.(queue := mq.Contents()),
             input := model.input.(pipeline := pipeline), callbacks := callbacks, inLoop := inLoop,
             canceller := canceller.ids,
             registry := model.registry.(entries := ids.entries, listeners := ids.listeners),
             run := run, children := model.children.(seqId := seqID),
             updates := model.updates.(names := updatesQueue, parked := parked, received := received),
             world := world, closed := closed)
    }

    ghost predicate Valid()
      reads this, mq, mq.buf, mq.seqId, canceller, ids
    {
      && mq.Valid() && mq.seqId.last == model.counter % TWO_64
      && |model.log.accepted| == nextOp && model == Fields()
    }

    /** What the object may still write to later: what it could write to before, or what is new. */
    twostate predicate Framed()
      reads this, mq, pldPool
    {
      (mq.buf == old(mq.buf) || fresh(mq.buf)) && forall p :: p in pldPool.free ==> p in old(pldPool.free) || fresh(p)
    }

    /** A new definition after `Execute`. `counter` is how many ids have been drawn so far. */
    constructor Execute(seqId: SeqCounter, run: RunInfo, input: Payloads, last: Payloads, ghost counter: nat)
      requires seqId.last == counter % TWO_64
      modifies seqId
      ensures Valid() && fresh(mq) && fresh(mq.buf) && fresh(canceller) && fresh(ids) && mq.seqId == seqId
      ensures fresh(pldPool) && pldPool.Valid() && pldPool.free == {}
      ensures model == WorkflowModel.Execute(Launch(run, input, last, counter))
    {
      this.run := run;
      mq := new MessageQueue(seqId);
      canceller := new Canceller<Cancellable>();
      ids := new IDRegistry();
      pldPool := new PayloadPool();
      seqID, pipeline, updatesQueue, callbacks, inLoop := 0, [], [], [], false;
      world, nextOp, parked, received, closed := World(map[], map[], [], [], NO_CONTEXT), 0, [], 0, false;
      model := Blank(run, counter);
      new;
      var command := StartWorkflow(run.runId, if last.None? then 0 else |last.value|);
      SendCommand(command, StartInput(input, last), run.header);
    }

    /** `PushCommand`, as used by Execute and by the signal and cancel handlers. */
    method SendCommand(command: Command, payloads: Payloads, header: Header)
      requires Valid()
      modifies this, mq, mq.buf, mq.seqId, canceller, ids
      ensures Valid() && (mq.buf == old(mq.buf) || fresh(mq.buf))
      ensures model == Send(old(model), command, payloads, header)
    {
      NextAfter(model.counter);
      mq.PushCommand(command, payloads, header);
      model := Send(model, command, payloads, header);
    }

    method HandleSignal(name: string, payloads: Payloads, header: Header)
      requires Valid()
      modifies this, mq, mq.buf, mq.seqId, canceller, ids
      ensures Valid() && (mq.buf == old(mq.buf) || fresh(mq.buf))
      ensures model == Step(old(model), SignalReceived(name, payloads, header))
    {
      SendCommand(InvokeSignal(run.runId, name), payloads, header);
    }

    method HandleCancelRequest()
      requires Valid()
      modifies this, mq, mq.buf, mq.seqId, canceller, ids
      ensures Valid() && (mq.buf == old(mq.buf) || fresh(mq.buf))
      ensures model == Step(old(model), CancelRequested)
    {
      SendCommand(CancelWorkflow(run.runId), None, run.header);
    }

    // -------------------------------------------------------------------------------------------
    // Completions
    // -------------------------------------------------------------------------------------------

    method PushAnswer(op: Op, id: Id, outcome: Outcome)
      requires Valid()
      modifies this, mq, mq.buf, mq.seqId, canceller, ids
      ensures Valid() && (mq.buf == old(mq.buf) || fresh(mq.buf))
      ensures model == Push(old(model), AnswerMessage(id, outcome), Some(op))
    {
      match outcome {
        case Ok(payloads) => mq.PushResponse(id, payloads);
        case Fail(error) => mq.PushError(id, error);
      }
      model := Push(model, AnswerMessage(id, outcome), Some(op));
    }

    method Callback(op: Op, id: Id, outcome: Outcome)
      requires Valid()
      modifies this, mq, mq.buf, mq.seqId, canceller, ids
      ensures Valid() && (mq.buf == old(mq.buf) || fresh(mq.buf))
      ensures model == Settle(old(model), op, id, outcome)
    {
      canceller.Discard(id);
      model := model.(canceller := model.canceller - {id});
      PushAnswer(op, id, outcome);
    }

    /** The result handlers given to the environment: run now inside the loop, defer outside of it. */
    method OnResult(op: Op, id: Id, outcome: Outcome)
      requires Valid()
      modifies this, mq, mq.buf, mq.seqId, canceller, ids
      ensures Valid() && (mq.buf == old(mq.buf) || fresh(mq.buf))
      ensures model == Receive(old(model), op, id, outcome)
    {
      model := Hear(model, op, id, outcome);
      if inLoop {
        Callback(op, id, outcome);
        return;
      }
      callbacks := callbacks + [Deferred(op, id, outcome)];
      model := model.(callbacks := callbacks);
    }

    /** The registry's Push: store the entry, then look for a listener. */
    method OnChildStarted(child: Id, outcome: Outcome)
      requires Valid()
      modifies this, mq, mq.buf, mq.seqId, canceller, ids
      ensures Valid() && (mq.buf == old(mq.buf) || fresh(mq.buf))
      ensures model == Announce(old(model), child, outcome)
    {
      ids.StoreEntry(child, outcome);
      model := model.(registry := model.registry.(entries := ids.entries));
      if child in ids.listeners {
        OnResult(ids.listeners[child].op, ids.listeners[child].id, outcome);
      }
    }

    method SetWorld(w: World)
      requires Valid()
      modifies this
      ensures Valid()
      ensures model == old(model).(world := w) && world == w
    {
      world := w;
      model := model.(world := w);
    }

    /** The environment invokes one handler, which it then no longer holds. */
    method Deliver(f: Firing)
      requires Valid()
      modifies this, mq, mq.buf, mq.seqId, canceller, ids
      ensures Valid() && (mq.buf == old(mq.buf) || fresh(mq.buf))
      ensures model == Fire(old(model), f)
    {
      match f {
        case Completed(op, outcome) =>
          if op in world.live {
            var id := world.live[op];
            SetWorld(world.(live := world.live - {op}));
            OnResult(op, id, outcome);
          }
        case Started(op, outcome) =>
          if op in world.starting {
            var child := world.starting[op];
            SetWorld(world.(starting := world.starting - {op}));
            OnChildStarted(child, outcome);
          }
      }
    }

    /** A call into the environment: handlers it invokes run before it returns. */
    method EnvCall() returns (answer: Answer)
      requires Valid()
      modifies this, mq, mq.buf, mq.seqId, canceller, ids
      ensures Valid() && (mq.buf == old(mq.buf) || fresh(mq.buf))
      ensures answer == Answered(old(model)) && model == Call(old(model))
    {
      answer := Answer([], Ok(None), false);
      if world.answers != [] {
        answer := world.answers[0];
        SetWorld(world.(answers := world.answers[1..]));
      }
      ghost var s := model;
      for i := 0 to |answer.fires|
        invariant Valid() && (mq.buf == old(mq.buf) || fresh(mq.buf))
        invariant FireAll(s, answer.fires) == FireAll(model, answer.fires[i..])
      {
        assert answer.fires[i..][1..] == answer.fires[i + 1..];
        Deliver(answer.fires[i]);
      }
    }

    // -------------------------------------------------------------------------------------------
    // Exchanges with the worker
    // -------------------------------------------------------------------------------------------

    method NextReply() returns (reply: Reply)
      requires Valid()
      modifies this
      ensures Valid()
      ensures reply == Replied(old(model)) && model == Used(old(model))
    {
      reply := NoResponse;
      if world.replies != [] {
        reply := world.replies[0];
        SetWorld(world.(replies := world.replies[1..]));
      }
    }

    /** `pool.Exec` and the receive on its channel: the body in the payload is handed over. */
    method Exec(pl: Payload) returns (reply: Reply)
      requires Valid()
      modifies this
      ensures Valid()
      ensures reply == Replied(old(model)) && model == Exchanged(old(model), pl.body)
    {
      ghost var s := model;
      reply := NextReply();
      model := Exchanged(s, pl.body);
    }

    /** The queue was acknowledged: truncate it, and take in what came back. */
    method Accept(batch: seq<Message>)
      requires Valid()
      modifies this, mq`len
      ensures Valid() && pipeline == old(pipeline) + batch && mq.len == 0
      ensures model == Acknowledge(old(model), batch)
    {
      mq.Flush();
      pipeline := pipeline + batch;
      model := Acknowledge(model, batch);
    }

    /** The stages of a flush, each with its own exit: encode what the slice shows, hand it over, look at what
        came back, decode it. The queue is truncated only after the last of them. On success the worker has been
        sent a body that decodes to what was queued, and the pipeline has gained what its answer decodes to. */
    method Exchange(messages: Slice, pl: Payload) returns (failed: bool)
      requires Valid() && messages.len > 0 && messages.buf == mq.buf && messages.len == mq.len
      modifies this, mq`len, pl
      ensures Valid()
      ensures (model, if failed then Failed else Continue) == Flush(old(model))
      ensures failed ==> mq.Contents() == old(mq.Contents()) && pipeline == old(pipeline)
      ensures !failed ==> mq.Contents() == []
      ensures !failed ==> Replied(old(model)).Response? && Decoded(run.formats, Replied(old(model)).body).1
                          && pipeline == old(pipeline) + Decoded(run.formats, Replied(old(model)).body).0
      ensures !failed && Inverts(run.formats) && AllKnown(old(mq.Contents())) ==>
                Decoded(run.formats, pl.body) == (old(mq.Contents()), true)
    {
      var encoded := Encode(run.formats, world.ctx, pl, messages.buf[..messages.len]);
      if !encoded {
        return true;
      }
      var reply := Exec(pl);
      if reply.ExecFailed? {
        return true;
      }
      if reply.WorkerFailed? {
        return true;
      }
      if reply.Streaming? {
        return true;
      }
      if reply.NoResponse? {
        return true;
      }
      var batch, decoded := Decode(run.formats, reply.body);
      if !decoded {
        return true;
      }
      SentIsReceived(run.formats, world.ctx, mq.Contents());
      Accept(batch);
      return false;
    }

    /** Whatever happens, the payload goes back to its pool. */
    method FlushQueue() returns (failed: bool)
      requires Valid() && pldPool.Valid()
      modifies this, mq`len, pldPool, pldPool.free
      ensures Valid() && pldPool.Valid() && Framed()
      ensures (model, if failed then Failed else Continue) == Flush(old(model))
      ensures failed ==> mq.Contents() == old(mq.Contents()) && pipeline == old(pipeline)
      ensures !failed ==> mq.Contents() == []
      ensures old(pldPool.free) <= pldPool.free
    {
      var messages := mq.Messages();
      if messages.len == 0 {
        return false;
      }
      var pl := pldPool.Get();
      failed := Exchange(messages, pl);
      pldPool.Put(pl);
    }

    method Allocate(command: Command, payloads: Payloads, header: Header) returns (msg: Message)
      requires Valid()
      modifies this, mq.seqId
      ensures Valid() && msg == Allocated(old(model), command, payloads, header)
      ensures model == old(model).(counter := old(model).counter + 1)
    {
      NextAfter(model.counter);
      msg := mq.AllocateMessage(command, payloads, header);
      model := model.(counter := model.counter + 1);
    }

    /** `pool.Exec` for a message sent on its own. */
    method ExecOne(ghost msg: Message) returns (reply: Reply)
      requires Valid()
      modifies this
      ensures Valid()
      ensures reply == Replied(old(model)) && model == Used(WorkflowModel.Ask(old(model), msg))
    {
      model := WorkflowModel.Ask(model, msg);
      reply := NextReply();
    }

    /** The stages of sending one message on its own. The exits on which the worker's answer is rejected do
        not give the payload back. */
    method ExchangeOne(msg: Message, pl: Payload) returns (r: Option<Message>)
      requires Valid() && pldPool.Valid() && pl !in pldPool.free
      modifies this, pldPool, pl
      ensures Valid() && pldPool.Valid() && (model, r) == SendAlone(old(model), msg)
      ensures pldPool.free == old(pldPool.free) + (if Withheld(old(model), msg) then {} else {pl})
    {
      var encoded := Encode(run.formats, world.ctx, pl, [msg]);
      if !encoded {
        pldPool.Put(pl);
        return None;
      }
      var reply := ExecOne(msg);
      if reply.ExecFailed? {
        pldPool.Put(pl);
        return None;
      }
      if reply.WorkerFailed? {
        return None;
      }
      if reply.Streaming? {
        return None;
      }
      if reply.NoResponse? {
        return None;
      }
      var msgs, decoded := Decode(run.formats, reply.body);
      if !decoded {
        pldPool.Put(pl);
        return None;
      }
      if |msgs| != 1 {
        pldPool.Put(pl);
        return None;
      }
      pldPool.Put(pl);
      return Some(msgs[0]);
    }

    /** `runCommand`. */
    method RunOneCommand(command: Command, payloads: Payloads, header: Header) returns (r: Option<Message>)
      requires Valid() && pldPool.Valid()
      modifies this, mq.seqId, pldPool, pldPool.free
      ensures Valid() && pldPool.Valid() && Framed()
      ensures (model, r) == RunCommand(old(model), command, payloads, header)
    {
      var msg := Allocate(command, payloads, header);
      var pl := pldPool.Get();
      r := ExchangeOne(msg, pl);
    }

    // -------------------------------------------------------------------------------------------
    // Handling messages
    // -------------------------------------------------------------------------------------------

    /** The environment takes the handlers of the operation. */
    method BeginOperation(id: Id, role: Role) returns (op: Op)
      requires Valid()
      modifies this
      ensures Valid()
      ensures op == |old(model.log.accepted)| && model == Begin(old(model), id, role)
    {
      op := nextOp;
      nextOp := nextOp + 1;
      world := world.(live := world.live[op := id]);
      if role.Child? {
        world := world.(starting := world.starting[op := id]);
      }
      model := Begin(model, id, role);
    }

    /** A start call. The canceller is registered after it has returned. */
    method StartOperation(id: Id, role: Role)
      requires Valid()
      modifies this, mq, mq.buf, mq.seqId, canceller, ids
      ensures Valid() && (mq.buf == old(mq.buf) || fresh(mq.buf))
      ensures model == StartOp(old(model), id, role)
    {
      var op := BeginOperation(id, role);
      var answer := EnvCall();
      FinishStart(op, id, role, answer.nilTimer);
    }

    method FinishStart(op: Op, id: Id, role: Role, nilTimer: bool)
      requires Valid()
      modifies this, canceller
      ensures Valid() && model == AfterStart(old(model), op, id, role, nilTimer)
    {
      ghost var log := model.log;
      model := model.(log := log.(early := if op in world.live then log.early else log.early + {op},
                                  inert := if role.Timer? && nilTimer then log.inert + {op} else log.inert));
      if HasCanceller(role) {
        RegisterCanceller(id, Cancellable(op, !(role.Timer? && nilTimer)));
      }
    }

    method RegisterCanceller(id: Id, cancel: Cancellable)
      requires Valid()
      modifies this, canceller
      ensures Valid() && model == old(model).(canceller := old(model).canceller[id := cancel])
    {
      canceller.Register(id, cancel);
      model := model.(canceller := canceller.ids);
    }

    /** The registry's Listen: store the listener, then look for an entry. */
    method ListenForChild(id: Id, child: Id)
      requires Valid()
      modifies this, mq, mq.buf, mq.seqId, canceller, ids
      ensures Valid() && (mq.buf == old(mq.buf) || fresh(mq.buf))
      ensures model == Listen(old(model), id, child)
    {
      var op := nextOp;
      nextOp := nextOp + 1;
      ghost var reg := model.registry;
      ghost var lost := if child in reg.listeners && child !in reg.entries
                        then reg.lost + {reg.listeners[child].op} else reg.lost;
      ids.StoreListener(child, Waiter(op, id));
      model := Admit(model, id, Listener(child, child in reg.entries)).(
        registry := reg.(listeners := ids.listeners, lost := lost));
      if child in ids.entries {
        OnResult(op, id, ids.entries[child]);
      }
    }

    method RespondNow(id: Id, outcome: Outcome, discard: bool)
      requires Valid()
      modifies this, mq, mq.buf, mq.seqId, canceller, ids
      ensures Valid() && (mq.buf == old(mq.buf) || fresh(mq.buf))
      ensures model == Respond(old(model), id, outcome, discard)
    {
      var op := nextOp;
      nextOp := nextOp + 1;
      model := Hear(Admit(model, id, Immediate), op, id, outcome);
      if discard {
        Callback(op, id, outcome);
      } else {
        PushAnswer(op, id, outcome);
      }
    }

    method CancelCommand(id: Id)
      requires Valid()
      modifies this, mq, mq.buf, mq.seqId, canceller, ids
      ensures Valid() && (mq.buf == old(mq.buf) || fresh(mq.buf))
      ensures model == CancelOne(old(model), id)
    {
      ghost var s := model;
      var cancel := canceller.LoadAndDelete(id);
      if cancel.None? {
        assert canceller.ids == s.canceller;
        return;
      }
      model := Requesting(s, id);
      if cancel.value.live {
        var _ := EnvCall();
      }
    }

    method CancelCommands(commandIds: seq<Id>)
      requires Valid()
      modifies this, mq, mq.buf, mq.seqId, canceller, ids
      ensures Valid() && (mq.buf == old(mq.buf) || fresh(mq.buf))
      ensures model == CancelAll(old(model), commandIds)
    {
      for i := 0 to |commandIds|
        invariant Valid() && (mq.buf == old(mq.buf) || fresh(mq.buf))
        invariant CancelAll(old(model), commandIds) == CancelAll(model, commandIds[i..])
      {
        assert commandIds[i..][1..] == commandIds[i + 1..];
        CancelCommand(commandIds[i]);
      }
    }

    /** A child without a workflow id is given one made of the run id and the run's own child counter. */
    method StartChild(id: Id, workflowId: string)
      requires Valid()
      modifies this, mq, mq.buf, mq.seqId, canceller, ids
      ensures Valid() && (mq.buf == old(mq.buf) || fresh(mq.buf))
      ensures model == StartOp(NameChild(old(model), workflowId), id, Child(ChildId(old(model), workflowId)))
    {
      var name := workflowId;
      if name == "" {
        seqID := Next(seqID);
        name := run.runId + "_" + Itoa(seqID);
        model := model.(children := Children(seqID, model.children.names + [name]));
      }
      StartOperation(id, Child(name));
    }

    /** `env.Complete`: the environment is told how the run ends. */
    method EnvComplete(end: RunEnd)
      requires Valid()
      modifies this, mq, mq.buf, mq.seqId, canceller, ids
      ensures Valid() && (mq.buf == old(mq.buf) || fresh(mq.buf))
      ensures model == Call(NoteEnd(old(model), end))
    {
      model := NoteEnd(model, end);
      var _ := EnvCall();
    }

    method EndRun(m: Message)
      requires Valid() && EndOf(m).Some?
      modifies this, mq, mq.buf, mq.seqId, canceller, ids
      ensures Valid() && (mq.buf == old(mq.buf) || fresh(mq.buf))
      ensures model == HandleEnd(old(model), m.id, EndOf(m).value)
    {
      RespondNow(m.id, COMPLETED, false);
      if m.command.value.ContinueAsNew? {
        EnvComplete(EndedAnew(m.command.value.name, m.payloads, m.header));
      } else if m.failure.None? {
        EnvComplete(EndedWith(m.payloads));
      } else {
        EnvComplete(EndedInFailure(m.failure.value));
      }
    }

    /** The cases of `handleMessage` that do not start an operation. */
    method HandleOther(m: Message) returns (flow: Flow)
      requires Valid() && pldPool.Valid() && m.IsCommand()
      modifies this, mq, mq.buf, mq.seqId, canceller, ids, pldPool, pldPool.free
      ensures Valid() && pldPool.Valid() && Framed()
      ensures (model, flow) == HandleRest(old(model), m)
    {
      var id, c := m.id, m.command.value;
      if c.GetChildWorkflowExecution? {
        ListenForChild(id, c.child);
        flow := Continue;
      } else if c.GetVersion? {
        flow := AnswerVersion(id);
      } else if c.SideEffect? {
        flow := AnswerSideEffect(id);
      } else if c.CompleteWorkflow? || c.ContinueAsNew? {
        EndRun(m);
        flow := Continue;
      } else if c.UpsertWorkflowSearchAttributes? {
        var answer := EnvCall();
        flow := if answer.result.Fail? then Failed else Continue;
      } else if c.Cancel? {
        flow := AnswerCancel(id, c.commandIds);
      } else {
        flow := Failed;
      }
    }

    method AnswerVersion(id: Id) returns (flow: Flow)
      requires Valid() && pldPool.Valid()
      modifies this, mq, mq.buf, mq.seqId, canceller, ids, pldPool, pldPool.free
      ensures Valid() && pldPool.Valid() && Framed()
      ensures (model, flow) == HandleVersion(old(model), id)
    {
      var answer := EnvCall();
      if answer.result.Fail? {
        model := Unconverted(model);
        return Failed;
      }
      RespondNow(id, answer.result, false);
      var failed := FlushQueue();
      flow := if failed then Failed else Continue;
    }

    /** The continuable callback, which the environment invokes inside its SideEffect call. */
    method AnswerSideEffect(id: Id) returns (flow: Flow)
      requires Valid() && pldPool.Valid()
      modifies this, mq, mq.buf, mq.seqId, canceller, ids, pldPool, pldPool.free
      ensures Valid() && pldPool.Valid() && Framed()
      ensures (model, flow) == HandleSideEffect(old(model), id)
    {
      var answer := EnvCall();
      RespondNow(id, answer.result, true);
      if answer.result.Fail? {
        return Continue;
      }
      var failed := FlushQueue();
      flow := if failed then Panicked else Continue;
    }

    method AnswerCancel(id: Id, commandIds: seq<Id>) returns (flow: Flow)
      requires Valid() && pldPool.Valid()
      modifies this, mq, mq.buf, mq.seqId, canceller, ids, pldPool, pldPool.free
      ensures Valid() && pldPool.Valid() && Framed()
      ensures (model, flow) == HandleCancel(old(model), id, commandIds)
    {
      CancelCommands(commandIds);
      RespondNow(id, COMPLETED, false);
      var failed := FlushQueue();
      flow := if failed then Failed else Continue;
    }

    method StartNew(m: Message)
      requires Valid() && m.IsCommand() && Starts(m.command.value).Some?
      modifies this, mq, mq.buf, mq.seqId, canceller, ids
      ensures Valid() && (mq.buf == old(mq.buf) || fresh(mq.buf))
      ensures (model, Continue) == Handle(old(model), m)
    {
      var c := m.command.value;
      if c.ExecuteChildWorkflow? {
        StartChild(m.id, c.workflowId);
      } else {
        StartOperation(m.id, Starts(c).value);
      }
    }

    method HandleMessage(m: Message) returns (flow: Flow)
      requires Valid() && pldPool.Valid() && m.IsCommand()
      modifies this, mq, mq.buf, mq.seqId, canceller, ids, pldPool, pldPool.free
      ensures Valid() && pldPool.Valid() && Framed()
      ensures (model, flow) == Handle(old(model), m)
    {
      if PassedOver(m) {
        return Continue;
      }
      if Starts(m.command.value).Some? {
        StartNew(m);
        return Continue;
      }
      flow := HandleOther(m);
    }

    // -------------------------------------------------------------------------------------------
    // Updates
    // -------------------------------------------------------------------------------------------

    method HandleUpdate(name: string, id: string, input: Payloads, header: Header)
      requires Valid()
      modifies this
      ensures Valid()
      ensures model == Step(old(model), UpdateReceived(name, id, input, header))
    {
      updatesQueue := updatesQueue + [name];
      parked := parked + [Update(received, name, id, input, header)];
      received := received + 1;
      model := QueueUpdate(model, name, id, input, header);
    }

    /** The closure given to the environment for one update. */
    method RunUpdateCallback(u: Update)
      requires Valid() && pldPool.Valid()
      modifies this, mq.seqId, pldPool, pldPool.free
      ensures Valid() && pldPool.Valid() && Framed()
      ensures model == RunUpdate(old(model), u)
    {
      if !world.ctx.replay {
        model := Note(model, Validating(u.serial));
        var verdict := RunOneCommand(InvokeUpdate(u.id, run.runId, u.name, "validate"), u.input, u.header);
        if !ResultOf(verdict).Value? {
          model := Note(model, Rejecting(u.serial, ResultOf(verdict)));
          return;
        }
      }
      PerformUpdate(u);
    }

    method PerformUpdate(u: Update)
      requires Valid() && pldPool.Valid()
      modifies this, mq.seqId, pldPool, pldPool.free
      ensures Valid() && pldPool.Valid() && Framed()
      ensures model == Perform(old(model), u)
    {
      model := Note(Note(model, Accepting(u.serial)), Executing(u.serial));
      var result := RunOneCommand(InvokeUpdate(u.id, run.runId, u.name, "execute"), u.input, u.header);
      model := Note(model, Completing(u.serial, ResultOf(result)));
    }

    method RunUpdateCallbacks(us: seq<Update>)
      requires Valid() && pldPool.Valid()
      modifies this, mq.seqId, pldPool, pldPool.free
      ensures Valid() && pldPool.Valid() && Framed()
      ensures model == RunUpdates(old(model), us)
    {
      for i := 0 to |us|
        invariant Valid() && pldPool.Valid() && Framed()
        invariant RunUpdates(old(model), us) == RunUpdates(model, us[i..])
      {
        assert us[i..][1..] == us[i + 1..];
        RunUpdateCallback(us[i]);
      }
    }

    /** The environment's HandleQueuedUpdates. */
    method HandleQueuedUpdates(name: string)
      requires Valid() && pldPool.Valid()
      modifies this, mq.seqId, pldPool, pldPool.free
      ensures Valid() && pldPool.Valid() && Framed()
      ensures model == HandleQueued(old(model), name)
    {
      var mine := Named(parked, name);
      parked := Others(parked, name);
      model := model.(updates := model.updates.(parked := parked));
      RunUpdateCallbacks(mine);
    }

    method HandleNames(names: seq<string>)
      requires Valid() && pldPool.Valid()
      modifies this, mq.seqId, pldPool, pldPool.free
      ensures Valid() && pldPool.Valid() && Framed()
      ensures model == HandleEach(old(model), names)
    {
      for i := 0 to |names|
        invariant Valid() && pldPool.Valid() && Framed()
        invariant HandleEach(old(model), names) == HandleEach(model, names[i..])
      {
        assert names[i..][1..] == names[i + 1..];
        HandleQueuedUpdates(names[i]);
      }
    }

    method RunQueuedUpdates()
      requires Valid() && pldPool.Valid()
      modifies this, mq.seqId, pldPool, pldPool.free
      ensures Valid() && pldPool.Valid() && Framed()
      ensures model == HandleUpdates(old(model))
    {
      HandleNames(updatesQueue);
      updatesQueue := [];
      model := model.(updates := model.updates.(names := []));
    }

    // -------------------------------------------------------------------------------------------
    // Tasks
    // -------------------------------------------------------------------------------------------

    /** The deferred callbacks, by index and without copying the list; then the list is dropped. */
    method RunDeferred()
      requires Valid() && inLoop
      modifies this, mq, mq.buf, mq.seqId, canceller, ids
      ensures Valid() && (mq.buf == old(mq.buf) || fresh(mq.buf))
      ensures model == RunCallbacks(old(model))
    {
      var n := |callbacks|;
      assert callbacks[0..] == callbacks && model.(callbacks := callbacks) == model;
      for i := 0 to n
        invariant Valid() && (mq.buf == old(mq.buf) || fresh(mq.buf))
        invariant callbacks == old(callbacks)
        invariant RunCallbacks(old(model)) == RunCallbacks(model.(callbacks := callbacks[i..]))
      {
        var d := callbacks[i];
        DeferredStep(model, i);
        Callback(d.op, d.id, d.outcome);
      }
      assert callbacks[n..] == [];
      callbacks := [];
      model := model.(callbacks := []);
    }

    /** One turn of the processing loop, on the message at the head of the pipeline. */
    method ProcessHead() returns (panicked: bool)
      requires Valid() && pldPool.Valid() && pipeline != []
      modifies this, mq, mq.buf, mq.seqId, canceller, ids, pldPool, pldPool.free
      ensures Valid() && pldPool.Valid() && Framed()
      ensures (model, if panicked then Panicked else Continue) == Turn(old(model))
    {
      var msg := pipeline[0];
      pipeline := pipeline[1..];
      model := Take(model);
      if msg.IsCommand() {
        if msg.IsUndefinedResponse() {
          ClearPipeline();
          return true;
        }
        var flow := HandleMessage(msg);
        if flow == Failed {
          ClearPipeline();
        }
        return flow != Continue;
      }
      return false;
    }

    method ClearPipeline()
      requires Valid()
      modifies this
      ensures Valid()
      ensures model == Drop(old(model))
    {
      pipeline := [];
      model := Drop(model);
    }

    method ProcessPipeline() returns (panicked: bool)
      requires Valid() && pldPool.Valid()
      modifies this, mq, mq.buf, mq.seqId, canceller, ids, pldPool, pldPool.free
      ensures Valid() && pldPool.Valid() && Framed()
      ensures (model, if panicked then Panicked else Continue) == Loop(old(model))
    {
      panicked := false;
      while |pipeline| > 0 && !panicked
        invariant Valid() && pldPool.Valid() && Framed()
        invariant Loop(old(model)) == if panicked then (model, Panicked) else Loop(model)
        decreases Budget(model)
      {
        panicked := ProcessHead();
      }
    }

    /** The part of a task before the updates: deferred callbacks, then the first flush. */
    method FirstFlush() returns (failed: bool)
      requires Valid() && pldPool.Valid()
      modifies this, mq, mq.buf, mq.seqId, canceller, ids, pldPool, pldPool.free
      ensures Valid() && pldPool.Valid() && Framed()
      ensures (model, if failed then Failed else Continue) == WorkflowModel.FirstFlush(old(model))
    {
      inLoop := true;
      model := SetLoop(model, true);
      RunDeferred();
      failed := FlushQueue();
    }

    /** The part after it: the queued updates, then the pipeline. */
    method DrainPipeline() returns (panicked: bool)
      requires Valid() && pldPool.Valid()
      modifies this, mq, mq.buf, mq.seqId, canceller, ids, pldPool, pldPool.free
      ensures Valid() && pldPool.Valid() && Framed()
      ensures (model, if panicked then Panicked else Continue) == Drain(old(model))
    {
      RunQueuedUpdates();
      panicked := ProcessPipeline();
    }

    /** `OnWorkflowTaskStarted`; the result says whether it panicked. The loop flag is reset on every exit. */
    method OnWorkflowTaskStarted() returns (panicked: bool)
      requires Valid() && pldPool.Valid()
      modifies this, mq, mq.buf, mq.seqId, canceller, ids, pldPool, pldPool.free
      ensures Valid() && pldPool.Valid() && Framed()
      ensures (model, if panicked then Panicked else Continue) == Task(old(model))
    {
      panicked := FirstFlush();
      if !panicked {
        panicked := DrainPipeline();
      }
      LeaveLoop();
    }

    method LeaveLoop()
      requires Valid()
      modifies this
      ensures Valid() && model == SetLoop(old(model), false)
    {
      inLoop := false;
      model := SetLoop(model, false);
    }

    // -------------------------------------------------------------------------------------------
    // Close
    // -------------------------------------------------------------------------------------------

    method Discard()
      requires Valid()
      modifies this, mq
      ensures Valid() && mq.buf == old(mq.buf)
      ensures model == old(model).(out := old(model).out.(queue := []), closed := true)
    {
      mq.Flush();
      closed := true;
      model := model.(out := model.out.(queue := []), closed := true);
    }

    /** The environment's DrainUnhandledUpdates. */
    method DrainUnhandledUpdates()
      requires Valid() && pldPool.Valid()
      modifies this, mq.seqId, pldPool, pldPool.free
      ensures Valid() && pldPool.Valid() && Framed()
      ensures model == RunUpdates(old(model).(updates := old(model).updates.(parked := [])), old(model).updates.parked)
    {
      var rest := parked;
      parked := [];
      model := model.(updates := model.updates.(parked := []));
      RunUpdateCallbacks(rest);
    }

    method Close()
      requires Valid() && pldPool.Valid()
      modifies this, mq, mq.buf, mq.seqId, canceller, ids, pldPool, pldPool.free
      ensures Valid() && pldPool.Valid() && Framed()
      ensures model == WorkflowModel.Close(old(model))
    {
      DrainUnhandledUpdates();
      var _ := RunOneCommand(DestroyWorkflow(run.runId), None, run.header);
      Discard();
    }

    // -------------------------------------------------------------------------------------------
    // Events
    // -------------------------------------------------------------------------------------------

    method SetOracles(answers: seq<Answer>, replies: seq<Reply>, ctx: Context)
      requires Valid()
      modifies this
      ensures Valid() && model == WithOracles(old(model), answers, replies, ctx)
    {
      world := world.(answers := answers, replies := replies, ctx := ctx);
      model := WithOracles(model, answers, replies, ctx);
    }

    method StartTask(answers: seq<Answer>, replies: seq<Reply>, ctx: Context)
      requires Valid() && pldPool.Valid()
      modifies this, mq, mq.buf, mq.seqId, canceller, ids, pldPool, pldPool.free
      ensures Valid() && pldPool.Valid() && Framed()
      ensures model == Task(WithOracles(old(model), answers, replies, ctx)).0
    {
      SetOracles(answers, replies, ctx);
      var _ := OnWorkflowTaskStarted();
    }

    method HandleQuery(name: string, payloads: Payloads, header: Header) returns (r: Result)
      requires Valid() && pldPool.Valid()
      modifies this, mq.seqId, pldPool, pldPool.free
      ensures Valid() && pldPool.Valid() && Framed()
      ensures (model, r) == Query(old(model), name, payloads, header)
    {
      var msg := RunOneCommand(InvokeQuery(run.runId, name), payloads, header);
      r := ResultOf(msg);
    }

    method StackTrace() returns (r: Option<Message>)
      requires Valid() && pldPool.Valid()
      modifies this, mq.seqId, pldPool, pldPool.free
      ensures Valid() && pldPool.Valid() && Framed()
      ensures (model, r) == RunCommand(old(model), GetStackTrace(run.runId), None, run.header)
    {
      r := RunOneCommand(GetStackTrace(run.runId), None, run.header);
    }

    /** A query, with what the worker answers to it. */
    method AskQuery(name: string, payloads: Payloads, header: Header, replies: seq<Reply>, ctx: Context)
      requires Valid() && pldPool.Valid()
      modifies this, mq.seqId, pldPool, pldPool.free
      ensures Valid() && pldPool.Valid() && Framed()
      ensures model == Step(old(model), Queried(name, payloads, header, replies, ctx))
    {
      SetOracles([], replies, ctx);
      var _ := HandleQuery(name, payloads, header);
    }

    method AskTrace(replies: seq<Reply>, ctx: Context)
      requires Valid() && pldPool.Valid()
      modifies this, mq.seqId, pldPool, pldPool.free
      ensures Valid() && pldPool.Valid() && Framed()
      ensures model == Step(old(model), Traced(replies, ctx))
    {
      SetOracles([], replies, ctx);
      var _ := StackTrace();
    }

    method CloseWith(replies: seq<Reply>, ctx: Context)
      requires Valid() && pldPool.Valid()
      modifies this, mq, mq.buf, mq.seqId, canceller, ids, pldPool, pldPool.free
      ensures Valid() && pldPool.Valid() && Framed()
      ensures model == WorkflowModel.Close(WithOracles(old(model), [], replies, ctx))
    {
      SetOracles([], replies, ctx);
      Close();
    }

    /** Other workflows draw ids from the shared counter. */
    method SkipIds(drawn: nat)
      requires Valid()
      modifies this, mq.seqId
      ensures Valid() && model == Step(old(model), OtherWorkflows(drawn))
    {
      mq.seqId.last := (mq.seqId.last + drawn) % TWO_64;
      model := model.(counter := model.counter + drawn);
    }

    /** Every event, on this object, is the step of the model. */
    method React(e: Event)
      requires Valid() && pldPool.Valid()
      modifies this, mq, mq.buf, mq.seqId, canceller, ids, pldPool, pldPool.free
      ensures Valid() && pldPool.Valid() && Framed()
      ensures model == Step(old(model), e)
    {
      match e {
        case SignalReceived(name, payloads, header) => HandleSignal(name, payloads, header);
        case CancelRequested => HandleCancelRequest();
        case UpdateReceived(name, id, payloads, header) => HandleUpdate(name, id, payloads, header);
        case Fired(f) => Deliver(f);
        case Queried(name, payloads, header, replies, ctx) => AskQuery(name, payloads, header, replies, ctx);
        case Traced(replies, ctx) => AskTrace(replies, ctx);
        case OtherWorkflows(drawn) => SkipIds(drawn);
        case TaskStarted(answers, replies, ctx) => StartTask(answers, replies, ctx);
        case Closed(replies, ctx) => CloseWith(replies, ctx);
      }
    }

    method ReactAll(es: seq<Event>)
      requires Valid() && pldPool.Valid()
      modifies this, mq, mq.buf, mq.seqId, canceller, ids, pldPool, pldPool.free
      ensures Valid() && pldPool.Valid() && Framed()
      ensures model == Run(old(model), es)
    {
      for i := 0 to |es|
        invariant Valid() && pldPool.Valid() && Framed()
        invariant model == Run(old(model), es[..i])
      {
        assert es[..i + 1][..i] == es[..i];
        React(es[i]);
      }
      assert es[..|es|] == es;
    }
  }

  /** Whatever happens to a new workflow object, it is in the state the model reaches. Every theorem about
      `After` is a theorem about this object. */
  method Play(seqId: SeqCounter, l: Launch, es: seq<Event>) returns (w: Workflow)
    requires seqId.last == l.counter % TWO_64
    modifies seqId
    ensures w.Valid() && w.pldPool.Valid() && w.model == After(l, es)
  {
    w := new Workflow.Execute(seqId, l.run, l.input, l.last, l.counter);
    w.ReactAll(es);
  }

  /** Running the deferred callbacks by index is running them from the head of the list. */
  lemma DeferredStep(s: State, i: nat)
    requires i < |s.callbacks|
    ensures var d := s.callbacks[i];
            var r := Settle(s, d.op, d.id, d.outcome);
            r.callbacks == s.callbacks
            && RunCallbacks(s.(callbacks := s.callbacks[i..])) == RunCallbacks(r.(callbacks := s.callbacks[i + 1..]))
  {
  }
}
