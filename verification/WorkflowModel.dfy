/** The workflow process of the host as a function from state to state.

    One `State` holds what `aggregatedpool.Workflow` owns, the handlers the Temporal environment holds for
    it, the oracles that stand for the environment and the worker, and histories of what happened.
    Closures are data: `Deferred` is a closure in `wp.callbacks`, `Cancellable` one in the canceller table,
    `Waiter` a listener of the child registry. `Workflow` has the imperative form of these functions. */
module WorkflowModel {
  import opened Protocol
  import opened Codec

  // ---------------------------------------------------------------------------------------------
  // Data
  // ---------------------------------------------------------------------------------------------

  /** A handled command, named by its position among all handled commands that are owed an answer. */
  type Op = nat

  datatype Outcome = Ok(payloads: Payloads) | Fail(error: string)

  datatype Deferred = Deferred(op: Op, id: Id, outcome: Outcome)

  /** Asks the environment to cancel `op`; `live` is false when `NewTimer` returned no timer id. */
  datatype Cancellable = Cancellable(op: Op, live: bool)

  datatype Waiter = Waiter(op: Op, id: Id)

  /** What a handled command is waiting for. A child carries the workflow id its start call was given; a
      listener, whether its child had already started when it was stored. */
  datatype Role =
    | Activity | LocalActivity | Child(workflowId: string) | Timer | External
    | Listener(child: Id, started: bool) | Immediate

  datatype Accepted = Accepted(id: Id, role: Role)

  /** A pushed message and, for a response or an error, the command it answers. */
  datatype Sent = Sent(msg: Message, op: Option<Op>)

  /** What became of a decoded message: taken by the loop, or thrown away when a task panicked. */
  datatype Fate = Taken(msg: Message) | Dropped(msg: Message)

  /** A cancel request made to the environment, with what was true when it was made. */
  datatype Request = Request(op: Op, live: bool, deferred: nat)

  /** A handler the environment invokes: the result of an operation, or "the child has started". */
  datatype Firing = Completed(op: Op, outcome: Outcome) | Started(op: Op, outcome: Outcome)

  /** What the environment does in one call: the handlers it invokes before returning, and its result. */
  datatype Answer = Answer(fires: seq<Firing>, result: Outcome, nilTimer: bool)

  /** What the worker pool makes of a body it is given: a failure at some stage, or a body in return. */
  datatype Reply = ExecFailed | WorkerFailed | Streaming | NoResponse | Response(body: Bytes)

  /** What a command sent on its own comes to: the payloads of the one message returned, the failure in it,
      or an error because no such message came back. */
  datatype Result = Value(payloads: Payloads) | Failure(failure: string) | ExchangeError

  datatype Update = Update(serial: nat, name: string, id: string, input: Payloads, header: Header)

  datatype UpdateCall =
    | Validating(serial: nat) | Rejecting(serial: nat, result: Result)
    | Accepting(serial: nat) | Executing(serial: nat) | Completing(serial: nat, result: Result)

  /** How control leaves a piece of code: normally, with an error, or with a Go panic. */
  datatype Flow = Continue | Failed | Panicked

  /** An outcome that a handled command was given: by the environment, by the registry, or at once. */
  datatype Given = Given(op: Op, id: Id, outcome: Outcome)

  /** The queue, everything ever pushed, the batches the worker has acknowledged, and the outcomes given to
      commands. */
  datatype Output = Output(queue: seq<Message>, sent: seq<Sent>, frames: seq<seq<Message>>, given: seq<Given>)

  /** A batch handed to the worker pool by a flush, the body it was sent as, and whether a readable body came
      back. */
  datatype Handed = Handed(batch: seq<Message>, body: Bytes, acknowledged: bool)

  /** What `env.Complete` is told: the result of the run, its failure, or how it continues. */
  datatype RunEnd =
    | EndedWith(payloads: Payloads) | EndedInFailure(failure: string)
    | EndedAnew(name: string, payloads: Payloads, header: Header)
  datatype Input = Input(pipeline: seq<Message>, batches: seq<seq<Message>>, consumed: seq<Fate>)
  datatype Registry = Registry(entries: map<Id, Outcome>, listeners: map<Id, Waiter>, lost: set<Op>)
  datatype RunInfo = RunInfo(runId: string, header: Header, formats: Formats)
  datatype Children = Children(seqId: nat, names: seq<string>)
  datatype Updates = Updates(names: seq<string>, parked: seq<Update>, received: nat, calls: seq<UpdateCall>)
  datatype World = World(live: map<Op, Id>, starting: map<Op, Id>,
                         answers: seq<Answer>, replies: seq<Reply>, ctx: Context)

  /** Histories: the commands owed an answer; the cancel requests made; the operations that completed inside
      their own start call; the timers without a timer id; the positions, among the messages taken, of the
      version requests whose version could not be converted; the batches handed over; the calls that end the
      run. */
  datatype Log = Log(accepted: seq<Accepted>, requested: seq<Request>, early: set<Op>, inert: set<Op>,
                     unconverted: set<nat>, handed: seq<Handed>, endings: seq<RunEnd>)

  /** `counter` is how many ids have been drawn; the 64-bit counter of the program is its remainder. `asked` are
      the messages sent on their own, outside the queue. */

  datatype State = State(out: Output, input: Input, callbacks: seq<Deferred>, inLoop: bool,
                         canceller: map<Id, Cancellable>, registry: Registry, run: RunInfo, children: Children,
                         updates: Updates, counter: nat, world: World, log: Log, asked: seq<Message>,
                         closed: bool)

  const TWO_64: nat := 0x1_0000_0000_0000_0000

  const COMPLETED: Outcome := Ok(Some(["completed"]))

  // ---------------------------------------------------------------------------------------------
  // The outgoing queue
  // ---------------------------------------------------------------------------------------------

  /** `atomic.AddUint64(&seqID, 1)`. */
  function Next(counter: nat): nat { (counter + 1) % TWO_64 }

  lemma NextAfter(n: nat)
    ensures Next(n % TWO_64) == Next(n)
  {
  }

  function AnswerMessage(id: Id, outcome: Outcome): Message
  {
    match outcome
    case Ok(payloads) => Message(id, None, None, payloads, None)
    case Fail(error) => Message(id, None, Some(error), None, None)
  }

  function Push(s: State, msg: Message, op: Option<Op>): State
  {
    s.(out := s.out.(queue := s.out.queue + [msg], sent := s.out.sent + [Sent(msg, op)]))
  }

  function Send(s: State, command: Command, payloads: Payloads, header: Header): State
  {
    var id := Next(s.counter);
    Push(s.(counter := s.counter + 1), Message(id, Some(command), None, payloads, header), None)
  }

  // ---------------------------------------------------------------------------------------------
  // Completions
  // ---------------------------------------------------------------------------------------------

  /** The closures built by `createCallback` and `createLocalActivityCallback`. */
  function Settle(s: State, op: Op, id: Id, outcome: Outcome): State
  {
    Push(s.(canceller := s.canceller - {id}), AnswerMessage(id, outcome), Some(op))
  }

  function Hear(s: State, op: Op, id: Id, outcome: Outcome): State
  {
    s.(out := s.out.(given := s.out.given + [Given(op, id, outcome)]))
  }

  /** The handlers they return: run now inside the loop, append to `wp.callbacks` outside of it. */
  function Receive(s: State, op: Op, id: Id, outcome: Outcome): State
  {
    var s1 := Hear(s, op, id, outcome);
    if s.inLoop then Settle(s1, op, id, outcome)
    else s1.(callbacks := s.callbacks + [Deferred(op, id, outcome)])
  }

  /** The registry once the entry of a child has been stored. */
  function StoreEntry(s: State, child: Id, outcome: Outcome): State
  {
    s.(registry := s.registry.(entries := s.registry.entries[child := outcome]))
  }

  /** `IDRegistry.Push` when nothing runs beside it. */
  function Announce(s: State, child: Id, outcome: Outcome): State
  {
    var s1 := StoreEntry(s, child, outcome);
    if child in s.registry.listeners
    then Receive(s1, s.registry.listeners[child].op, s.registry.listeners[child].id, outcome)
    else s1
  }

  /** The environment has given up a start handler, and the entry of its child has been stored. */
  function Announced(s: State, op: Op, outcome: Outcome): State
    requires op in s.world.starting
  {
    StoreEntry(s.(world := s.world.(starting := s.world.starting - {op})), s.world.starting[op], outcome)
  }

  /** The environment invokes a handler. It holds each handler once, so a second firing does nothing. */
  function Fire(s: State, f: Firing): (r: State)
    ensures Quiet(s, r)
  {
    match f
    case Completed(op, outcome) =>
      if op !in s.world.live then s
      else Receive(s.(world := s.world.(live := s.world.live - {op})), op, s.world.live[op], outcome)
    case Started(op, outcome) =>
      if op !in s.world.starting then s
      else Announce(s.(world := s.world.(starting := s.world.starting - {op})), s.world.starting[op], outcome)
  }

  function FireAll(s: State, fs: seq<Firing>): (r: State)
    ensures Quiet(s, r)
    decreases |fs|
  {
    if fs == [] then s else FireAll(Fire(s, fs[0]), fs[1..])
  }

  /** What no handler invocation touches. Inside the loop it does not touch `wp.callbacks` either. */
  ghost predicate Quiet(s: State, r: State)
  {
    && r.input == s.input && r.inLoop == s.inLoop && r.run == s.run && r.children == s.children
    && r.updates == s.updates && r.counter == s.counter && r.log == s.log && r.closed == s.closed
    && r.world.replies == s.world.replies && r.world.ctx == s.world.ctx
    && r.out.frames == s.out.frames
    && (s.inLoop ==> r.callbacks == s.callbacks)
  }

  /** The environment's next answer; an exhausted oracle invokes nothing. */
  function Answered(s: State): Answer
  {
    if s.world.answers == [] then Answer([], Ok(None), false) else s.world.answers[0]
  }

  function Popped(s: State): State
  {
    if s.world.answers == [] then s else s.(world := s.world.(answers := s.world.answers[1..]))
  }

  /** A call into the environment, which may invoke handlers before it returns. */
  function Call(s: State): (r: State)
    ensures Quiet(s, r)
  {
    FireAll(Popped(s), Answered(s).fires)
  }

  // ---------------------------------------------------------------------------------------------
  // Exchanges with the worker
  // ---------------------------------------------------------------------------------------------

  /** The messages in a reply, or None for every way an exchange can fail once the body has been sent. */
  function Batch(f: Formats, reply: Reply): Option<seq<Message>>
  {
    if !reply.Response? then None
    else
      var (ms, ok) := Decoded(f, reply.body);
      if ok then Some(ms) else None
  }

  /** The worker's next reply; a worker with nothing left to say gives no response. */
  function Replied(s: State): Reply
  {
    if s.world.replies == [] then NoResponse else s.world.replies[0]
  }

  function Used(s: State): State
  {
    if s.world.replies == [] then s else s.(world := s.world.(replies := s.world.replies[1..]))
  }

  /** The queue has been handed over as `body`, and the worker has replied. */
  function Exchanged(s: State, body: Bytes): State
  {
    var h := Handed(s.out.queue, body, Batch(s.run.formats, Replied(s)).Some?);
    Used(s).(log := s.log.(handed := s.log.handed + [h]))
  }

  function Items(f: Formats, replies: seq<Reply>): nat
  {
    if replies == [] then 0
    else
      var batch := Batch(f, replies[0]);
      (if batch.Some? then |batch.value| else 0) + Items(f, replies[1..])
  }

  /** Messages the task can still be given: those in the pipeline and those the worker may yet send. */
  function Budget(s: State): nat
  {
    Items(s.run.formats, s.world.replies) + |s.input.pipeline|
  }

  /** The queue as it would be sent now. */
  function Body(s: State): Option<Bytes> { Encoded(s.run.formats, s.world.ctx, s.out.queue) }

  /** The queue was handed over and the worker returned `batch`. */
  function Acknowledge(s: State, batch: seq<Message>): State
  {
    s.(out := s.out.(queue := [], frames := s.out.frames + [s.out.queue]),
       input := s.input.(pipeline := s.input.pipeline + batch, batches := s.input.batches + [batch]))
  }

  /** What a flush may change. */
  ghost predicate Flushed(s: State, r: State)
  {
    && r == s.(out := r.out, input := r.input, world := s.world.(replies := r.world.replies), log := r.log)
    && r.input.consumed == s.input.consumed && s.out.frames <= r.out.frames
    && r.log == s.log.(handed := r.log.handed) && |r.log.handed| <= |s.log.handed| + 1
  }

  function Flush(s: State): (r: (State, Flow))
    ensures Budget(r.0) <= Budget(s)
    ensures r.1 != Panicked && Flushed(s, r.0)
  {
    if s.out.queue == [] then (s, Continue)
    else if Body(s).None? then (s, Failed)
    else
      match Batch(s.run.formats, Replied(s))
      case None => (Exchanged(s, Body(s).value), Failed)
      case Some(batch) => (Acknowledge(Exchanged(s, Body(s).value), batch), Continue)
  }

  /** A message with a newly drawn id that does not enter the queue. */
  function Allocated(s: State, command: Command, payloads: Payloads, header: Header): Message
  {
    Message(Next(s.counter), Some(command), None, payloads, header)
  }

  function Ask(s: State, m: Message): State { s.(asked := s.asked + [m]) }

  /** One message out, exactly one message back, the queue untouched. */
  function SendAlone(s: State, m: Message): (r: (State, Option<Message>))
    ensures r.0 == s.(world := s.world.(replies := r.0.world.replies), asked := r.0.asked)
  {
    if Encoded(s.run.formats, s.world.ctx, [m]).None? then (s, None)
    else
      match Batch(s.run.formats, Replied(s))
      case None => (Used(Ask(s, m)), None)
      case Some(batch) => (Used(Ask(s, m)), if |batch| == 1 then Some(batch[0]) else None)
  }

  /** `runCommand`. */
  function RunCommand(s: State, command: Command, payloads: Payloads, header: Header): (r: (State, Option<Message>))
    ensures SameCore(s, r.0)
    ensures r.0.inLoop == s.inLoop && r.0.updates == s.updates && r.0.children == s.children && r.0.log == s.log
    ensures r.0.world.ctx == s.world.ctx
  {
    SendAlone(s.(counter := s.counter + 1), Allocated(s, command, payloads, header))
  }

  function ResultOf(r: Option<Message>): Result
  {
    if r.None? then ExchangeError
    else if r.value.failure.Some? then Failure(r.value.failure.value)
    else Value(r.value.payloads)
  }

  /** Agreement on everything but counters, oracles, update records and the loop flag; ids may be drawn. */
  ghost predicate SameCore(s: State, t: State)
  {
    && t.out == s.out && t.input == s.input && t.callbacks == s.callbacks && t.canceller == s.canceller
    && t.registry == s.registry && t.run == s.run && t.closed == s.closed && s.counter <= t.counter
    && t.world.live == s.world.live && t.world.starting == s.world.starting
    && t.log.accepted == s.log.accepted && t.log.requested == s.log.requested
    && t.log.early == s.log.early && t.log.inert == s.log.inert && t.log.handed == s.log.handed
  }

  // ---------------------------------------------------------------------------------------------
  // Handling one message
  // ---------------------------------------------------------------------------------------------

  function Admit(s: State, id: Id, role: Role): State
  {
    s.(log := s.log.(accepted := s.log.accepted + [Accepted(id, role)]))
  }

  predicate Names(s: State, op: Op, id: Id) { op < |s.log.accepted| && s.log.accepted[op].id == id }

  /** The environment takes the handlers of a new operation. */
  function Begin(s: State, id: Id, role: Role): State
  {
    var op := |s.log.accepted|;
    var world := s.world.(live := s.world.live[op := id]);
    Admit(s, id, role).(world := if role.Child? then world.(starting := world.starting[op := id]) else world)
  }

  predicate HasCanceller(role: Role) { role.Activity? || role.LocalActivity? || role.Child? || role.Timer? }

  /** What follows a start call: the canceller is registered only now. */
  function AfterStart(s: State, op: Op, id: Id, role: Role, nilTimer: bool): (r: State)
    ensures r == s.(canceller := r.canceller, log := s.log.(early := r.log.early, inert := r.log.inert))
  {
    var inert := role.Timer? && nilTimer;
    var s1 := s.(log := s.log.(early := if op in s.world.live then s.log.early else s.log.early + {op},
                               inert := if inert then s.log.inert + {op} else s.log.inert));
    if HasCanceller(role) then s1.(canceller := s1.canceller[id := Cancellable(op, !inert)]) else s1
  }

  /** A start call, and the registration of its canceller after it has returned. */
  function StartOp(s: State, id: Id, role: Role): (r: State)
    ensures Quiet(s, r.(log := s.log))
    ensures r.log == Admit(s, id, role).log.(early := r.log.early, inert := r.log.inert)
  {
    AfterStart(Call(Begin(s, id, role)), |s.log.accepted|, id, role, Answered(s).nilTimer)
  }

  /** The registry once a listener has been stored, before a known entry is handed to it. */
  function Stored(s: State, id: Id, child: Id): State
  {
    var reg := s.registry;
    var replaced := child in reg.listeners && child !in reg.entries;
    Admit(s, id, Listener(child, child in reg.entries)).(
      registry := reg.(listeners := reg.listeners[child := Waiter(|s.log.accepted|, id)],
                       lost := if replaced then reg.lost + {reg.listeners[child].op} else reg.lost))
  }

  /** `IDRegistry.Listen` when nothing runs beside it. */
  function Listen(s: State, id: Id, child: Id): State
  {
    var s1 := Stored(s, id, child);
    if child in s.registry.entries then Receive(s1, |s.log.accepted|, id, s.registry.entries[child]) else s1
  }

  /** An answer given while the command is handled; only SideEffect's closure discards a canceller. */
  function Respond(s: State, id: Id, outcome: Outcome, discard: bool): State
  {
    var op := |s.log.accepted|;
    var s1 := Hear(Admit(s, id, Immediate), op, id, outcome);
    if discard then Settle(s1, op, id, outcome) else Push(s1, AnswerMessage(id, outcome), Some(op))
  }

  /** The canceller table without the entry for `id`, and with the request its closure is about to make. */
  function Requesting(s: State, id: Id): State
    requires id in s.canceller
  {
    var c := s.canceller[id];
    s.(canceller := s.canceller - {id},
       log := if !c.live then s.log
              else s.log.(requested := s.log.requested + [Request(c.op, c.op in s.world.live, |s.callbacks|)]))
  }

  /** One turn of the loop in `Canceller.Cancel`: LoadAndDelete, then the closure. */
  function CancelOne(s: State, id: Id): (r: State)
    ensures Quiet(s, r.(log := s.log)) && r.log == s.log.(requested := r.log.requested)
  {
    if id !in s.canceller then s
    else if !s.canceller[id].live then Requesting(s, id)
    else Call(Requesting(s, id))
  }

  function CancelAll(s: State, ids: seq<Id>): (r: State)
    ensures Quiet(s, r.(log := s.log)) && r.log == s.log.(requested := r.log.requested)
    decreases |ids|
  {
    if ids == [] then s else CancelAll(CancelOne(s, ids[0]), ids[1..])
  }

  function Digit(d: nat): char
    requires d < 10
  {
    "0123456789"[d]
  }

  /** `strconv.Itoa` on a non-negative number. */
  function Decimal(n: nat): string
  {
    if n < 10 then [Digit(n)] else Decimal(n / 10) + [Digit(n % 10)]
  }

  /** `strconv.Itoa(int(n))`, where the conversion reads the 64 bits as a signed number. */
  function Itoa(n: nat): string
    requires n < TWO_64
  {
    if n < TWO_64 / 2 then Decimal(n) else "-" + Decimal(TWO_64 - n)
  }

  function ChildName(runId: string, n: nat): string
    requires n < TWO_64
  {
    runId + "_" + Itoa(n)
  }

  /** The workflow id a child is started under: the one asked for, or one made of the run id and the run's
      own child counter. */
  function ChildId(s: State, workflowId: string): string
  {
    if workflowId != "" then workflowId else ChildName(s.run.runId, Next(s.children.seqId))
  }

  function NameChild(s: State, workflowId: string): State
  {
    if workflowId != "" then s
    else s.(children := Children(Next(s.children.seqId), s.children.names + [ChildId(s, workflowId)]))
  }

  /** The version could not be converted: the command being handled, the last one taken, gets no answer. */
  function Unconverted(s: State): State
  {
    s.(log := s.log.(unconverted := s.log.unconverted + {|s.input.consumed|}))
  }

  function HandleVersion(s: State, id: Id): (r: (State, Flow))
    ensures Budget(r.0) <= Budget(s) && Steady(s, r.0) && r.0.children == s.children
    ensures if Answered(s).result.Fail?
            then r.0.log == s.log.(unconverted := s.log.unconverted + {|s.input.consumed|})
            else r.0.log == Admit(s, id, Immediate).log.(handed := r.0.log.handed)
    ensures |r.0.log.handed| <= |s.log.handed| + 1
  {
    var s1 := Call(s);
    if Answered(s).result.Fail? then (Unconverted(s1), Failed)
    else Flush(Respond(s1, id, Answered(s).result, false))
  }

  /** The continuable callback flushes at once, and a failed flush panics out of the environment's call. */
  function HandleSideEffect(s: State, id: Id): (r: (State, Flow))
    ensures Budget(r.0) <= Budget(s) && Steady(s, r.0) && r.0.children == s.children
    ensures r.0.log == Admit(s, id, Immediate).log.(handed := r.0.log.handed)
    ensures |r.0.log.handed| <= |s.log.handed| + 1
  {
    var s1 := Respond(Call(s), id, Answered(s).result, true);
    if Answered(s).result.Fail? then (s1, Continue)
    else
      var (s2, flow) := Flush(s1);
      (s2, if flow == Failed then Panicked else Continue)
  }

  function HandleCancel(s: State, id: Id, ids: seq<Id>): (r: (State, Flow))
    ensures Budget(r.0) <= Budget(s) && Steady(s, r.0) && r.0.children == s.children
    ensures r.0.log == Admit(s, id, Immediate).log.(requested := r.0.log.requested, handed := r.0.log.handed)
    ensures |r.0.log.handed| <= |s.log.handed| + 1
  {
    Flush(Respond(CancelAll(s, ids), id, COMPLETED, false))
  }

  /** What a command tells `env.Complete`, if it does. */
  function EndOf(m: Message): Option<RunEnd>
  {
    if m.command.None? then None
    else if m.command.value.CompleteWorkflow? then
      Some(if m.failure.None? then EndedWith(m.payloads) else EndedInFailure(m.failure.value))
    else if m.command.value.ContinueAsNew? then Some(EndedAnew(m.command.value.name, m.payloads, m.header))
    else None
  }

  function NoteEnd(s: State, end: RunEnd): State
  {
    s.(log := s.log.(endings := s.log.endings + [end]))
  }

  /** The commands that end the run are answered, and then the environment is told. */
  function HandleEnd(s: State, id: Id, end: RunEnd): (r: State)
    ensures Quiet(s, r.(log := s.log)) && r.log == NoteEnd(Admit(s, id, Immediate), end).log
  {
    Call(NoteEnd(Respond(s, id, COMPLETED, false), end))
  }

  /** The role of the operation a command starts in the environment, if it starts one. */
  function Starts(c: Command): (role: Option<Role>)
    ensures role.Some? ==> !role.value.Listener? && !role.value.Immediate?
  {
    match c
    case ExecuteActivity(_) => Some(Activity)
    case ExecuteLocalActivity(_) => Some(LocalActivity)
    case ExecuteChildWorkflow(_, workflowId) => Some(Child(workflowId))
    case NewTimer(_) => Some(Timer)
    case SignalExternalWorkflow(_, _) => Some(External)
    case CancelExternalWorkflow(_) => Some(External)
    case _ => None
  }

  /** The commands whose handling ends in a flush. */
  predicate EndsInFlush(c: Command) { c.GetVersion? || c.SideEffect? || c.Cancel? }

  /** The cases of `handleMessage` that start nothing. */
  function HandleRest(s: State, m: Message): (r: (State, Flow))
    requires m.IsCommand()
    ensures Budget(r.0) <= Budget(s) && Steady(s, r.0) && r.0.children == s.children
    ensures |r.0.log.handed| <= |s.log.handed| + One(EndsInFlush(m.command.value))
  {
    var c := m.command.value;
    if c.GetChildWorkflowExecution? then (Listen(s, m.id, c.child), Continue)
    else if c.GetVersion? then HandleVersion(s, m.id)
    else if c.SideEffect? then HandleSideEffect(s, m.id)
    else if EndOf(m).Some? then (HandleEnd(s, m.id, EndOf(m).value), Continue)
    else if c.UpsertWorkflowSearchAttributes? then
      (Call(s), if Answered(s).result.Fail? then Failed else Continue)
    else if c.Cancel? then HandleCancel(s, m.id, c.commandIds)
    else (s, Failed)
  }

  /** A Panic without a failure is converted to no error, so it is passed over. */
  predicate PassedOver(m: Message) { m.command.Some? && m.command.value.Panic? && m.failure.None? }

  /** `handleMessage`. */
  function Handle(s: State, m: Message): (r: (State, Flow))
    requires m.IsCommand()
    ensures Budget(r.0) <= Budget(s) && Steady(s, r.0)
    ensures |r.0.log.handed| <= |s.log.handed| + One(EndsInFlush(m.command.value))
  {
    var c := m.command.value;
    var role := Starts(c);
    if PassedOver(m) then (s, Continue)
    else if role.None? then HandleRest(s, m)
    else if c.ExecuteChildWorkflow? then
      (StartOp(NameChild(s, c.workflowId), m.id, Child(ChildId(s, c.workflowId))), Continue)
    else (StartOp(s, m.id, role.value), Continue)
  }

  /** What handling a message leaves alone. */
  ghost predicate Steady(s: State, r: State)
  {
    && r.input.consumed == s.input.consumed && r.inLoop == s.inLoop && r.run == s.run
    && r.updates == s.updates && r.counter == s.counter && r.closed == s.closed
    && r.world.ctx == s.world.ctx && s.out.frames <= r.out.frames
    && (s.inLoop ==> r.callbacks == s.callbacks)
  }

  // ---------------------------------------------------------------------------------------------
  // Updates
  // ---------------------------------------------------------------------------------------------

  function Note(s: State, c: UpdateCall): State
  {
    s.(updates := s.updates.(calls := s.updates.calls + [c]))
  }

  /** What handling updates leaves alone. */
  ghost predicate Unrelated(s: State, r: State)
  {
    && SameCore(s, r) && r.inLoop == s.inLoop && r.children == s.children && r.log == s.log
    && r.world.ctx == s.world.ctx
  }

  /** The command that has the worker validate or execute an update. */
  function Invocation(s: State, u: Update, phase: string): Command
  {
    InvokeUpdate(u.id, s.run.runId, u.name, phase)
  }

  function Perform(s: State, u: Update): (r: State)
    ensures Unrelated(s, r)
    ensures r.updates == s.updates.(calls := r.updates.calls)
  {
    var s0 := Note(Note(s, Accepting(u.serial)), Executing(u.serial));
    var (s1, r) := RunCommand(s0, Invocation(s, u, "execute"), u.input, u.header);
    Note(s1, Completing(u.serial, ResultOf(r)))
  }

  /** The closure `handleUpdate` gives to the environment. */
  function RunUpdate(s: State, u: Update): (r: State)
    ensures Unrelated(s, r)
    ensures r.updates == s.updates.(calls := r.updates.calls)
  {
    if s.world.ctx.replay then Perform(s, u)
    else
      var (s1, r) := RunCommand(Note(s, Validating(u.serial)), Invocation(s, u, "validate"), u.input, u.header);
      if ResultOf(r).Value? then Perform(s1, u) else Note(s1, Rejecting(u.serial, ResultOf(r)))
  }

  function RunUpdates(s: State, us: seq<Update>): (r: State)
    ensures Unrelated(s, r)
    ensures r.updates == s.updates.(calls := r.updates.calls)
    decreases |us|
  {
    if us == [] then s else RunUpdates(RunUpdate(s, us[0]), us[1..])
  }

  function Named(us: seq<Update>, name: string): seq<Update>
  {
    if us == [] then []
    else (if us[0].name == name then [us[0]] else []) + Named(us[1..], name)
  }

  function Others(us: seq<Update>, name: string): seq<Update>
  {
    if us == [] then []
    else (if us[0].name == name then [] else [us[0]]) + Others(us[1..], name)
  }

  /** The environment's `HandleQueuedUpdates`: it runs and forgets everything queued under the name. */
  function HandleQueued(s: State, name: string): (r: State)
    ensures Unrelated(s, r)
    ensures r.updates.received == s.updates.received && r.updates.names == s.updates.names
  {
    var parked := s.updates.parked;
    RunUpdates(s.(updates := s.updates.(parked := Others(parked, name))), Named(parked, name))
  }

  function HandleEach(s: State, names: seq<string>): (r: State)
    ensures Unrelated(s, r)
    ensures r.updates.received == s.updates.received && r.updates.names == s.updates.names
    decreases |names|
  {
    if names == [] then s else HandleEach(HandleQueued(s, names[0]), names[1..])
  }

  function HandleUpdates(s: State): (r: State)
    ensures Unrelated(s, r)
  {
    var s1 := HandleEach(s, s.updates.names);
    s1.(updates := s1.updates.(names := []))
  }

  // ---------------------------------------------------------------------------------------------
  // Tasks
  // ---------------------------------------------------------------------------------------------

  function RunCallback(s: State): State
    requires s.callbacks != []
  {
    var d := s.callbacks[0];
    Settle(s.(callbacks := s.callbacks[1..]), d.op, d.id, d.outcome)
  }

  function RunCallbacks(s: State): (r: State)
    ensures r.callbacks == [] && Quiet(s, r.(callbacks := s.callbacks)) && r.world == s.world
    decreases |s.callbacks|
  {
    if s.callbacks == [] then s else RunCallbacks(RunCallback(s))
  }

  function Take(s: State): State
    requires s.input.pipeline != []
  {
    s.(input := s.input.(pipeline := s.input.pipeline[1..],
                         consumed := s.input.consumed + [Taken(s.input.pipeline[0])]))
  }

  function AllDropped(ms: seq<Message>): (fs: seq<Fate>)
    ensures |fs| == |ms|
  {
    seq(|ms|, i requires 0 <= i < |ms| => Dropped(ms[i]))
  }

  function Drop(s: State): State
  {
    s.(input := s.input.(pipeline := [], consumed := s.input.consumed + AllDropped(s.input.pipeline)))
  }

  /** One turn of the task loop. */
  function Turn(s: State): (r: (State, Flow))
    requires s.input.pipeline != []
    ensures Budget(r.0) < Budget(s) && Onward(s, r.0)
    ensures r.1 != Failed
  {
    var m := s.input.pipeline[0];
    var s1 := Take(s);
    if !m.IsCommand() then (s1, Continue)
    else if m.IsUndefinedResponse() then (Drop(s1), Panicked)
    else
      var (s2, flow) := Handle(s1, m);
      if flow == Failed then (Drop(s2), Panicked) else (s2, flow)
  }

  /** What the task loop leaves alone; acknowledged frames are only added to. */
  ghost predicate Onward(s: State, r: State)
  {
    && r.inLoop == s.inLoop && r.run == s.run && r.updates == s.updates && r.counter == s.counter
    && r.closed == s.closed && s.out.frames <= r.out.frames
  }

  function Loop(s: State): (r: (State, Flow))
    ensures r.1 != Failed && Onward(s, r.0)
    decreases Budget(s)
  {
    if s.input.pipeline == [] then (s, Continue)
    else
      var (s1, flow) := Turn(s);
      if flow == Panicked then (s1, Panicked) else Loop(s1)
  }

  function SetLoop(s: State, b: bool): State { s.(inLoop := b) }

  /** The part of a task up to and including its first flush. */
  function FirstFlush(s: State): (r: (State, Flow))
    ensures r.1 != Panicked && r.0.inLoop && r.0.callbacks == []
    ensures r.0.run == s.run && r.0.updates == s.updates && r.0.children == s.children
    ensures r.0.input.consumed == s.input.consumed && s.out.frames <= r.0.out.frames
    ensures r.0.log == s.log.(handed := r.0.log.handed) && |r.0.log.handed| <= |s.log.handed| + 1
  {
    var s1 := RunCallbacks(SetLoop(s, true));
    Flush(s1)
  }

  /** The part of a task after its first flush. */
  function Drain(s: State): (r: (State, Flow))
    ensures r.1 != Failed && r.0.inLoop == s.inLoop && r.0.run == s.run && s.out.frames <= r.0.out.frames
  {
    Loop(HandleUpdates(s))
  }

  /** `OnWorkflowTaskStarted`. */
  function Task(s: State): (r: (State, Flow))
    ensures r.1 != Failed
  {
    var (s1, flow) := FirstFlush(s);
    if flow == Failed then (SetLoop(s1, false), Panicked)
    else
      var (s2, end) := Drain(s1);
      (SetLoop(s2, false), end)
  }

  // ---------------------------------------------------------------------------------------------
  // Runs
  // ---------------------------------------------------------------------------------------------

  datatype Event =
    | SignalReceived(name: string, payloads: Payloads, header: Header)
    | CancelRequested
    | UpdateReceived(name: string, id: string, payloads: Payloads, header: Header)
    | Fired(firing: Firing)
    | Queried(name: string, payloads: Payloads, header: Header, replies: seq<Reply>, ctx: Context)
    | Traced(replies: seq<Reply>, ctx: Context)
    | OtherWorkflows(drawn: nat)               // ids drawn by workflows sharing the counter
    | TaskStarted(answers: seq<Answer>, replies: seq<Reply>, ctx: Context)
    | Closed(replies: seq<Reply>, ctx: Context)

  function StartInput(input: Payloads, last: Payloads): Payloads
  {
    if last.None? || |last.value| == 0 then input
    else Some((if input.None? then [] else input.value) + last.value)
  }

  const NO_CONTEXT: Context := Context("", "", false, 0, "")

  function Blank(run: RunInfo, counter: nat): State
  {
    State(Output([], [], [], []), Input([], [], []), [], false, map[], Registry(map[], map[], {}),
          run, Children(0, []), Updates([], [], 0, []), counter,
          World(map[], map[], [], [], NO_CONTEXT), Log([], [], {}, {}, {}, [], []), [], false)
  }

  /** What a run starts from: its identity and input, and how many ids had been drawn before it. */
  datatype Launch = Launch(run: RunInfo, input: Payloads, last: Payloads, counter: nat)

  /** The command a run starts with. */
  function Start(l: Launch): Message
  {
    Message(Next(l.counter), Some(StartWorkflow(l.run.runId, if l.last.None? then 0 else |l.last.value|)), None,
            StartInput(l.input, l.last), l.run.header)
  }

  /** The state `Execute` leaves behind in a new definition. */
  function Execute(l: Launch): State
  {
    Send(Blank(l.run, l.counter), Start(l).command.value, Start(l).payloads, l.run.header)
  }

  function WithOracles(s: State, answers: seq<Answer>, replies: seq<Reply>, ctx: Context): State
  {
    s.(world := s.world.(answers := answers, replies := replies, ctx := ctx))
  }

  function QueueUpdate(s: State, name: string, id: string, input: Payloads, header: Header): State
  {
    var up := s.updates;
    s.(updates := up.(names := up.names + [name], received := up.received + 1,
                      parked := up.parked + [Update(up.received, name, id, input, header)]))
  }

  /** `Close`: drain what is still parked, tell the worker, and discard the queue. */
  function Close(s: State): State
  {
    var s1 := RunUpdates(s.(updates := s.updates.(parked := [])), s.updates.parked);
    var s2 := RunCommand(s1, DestroyWorkflow(s.run.runId), None, s.run.header).0;
    s2.(out := s2.out.(queue := []), closed := true)
  }

  function Query(s: State, name: string, payloads: Payloads, header: Header): (State, Result)
  {
    var (s1, r) := RunCommand(s, InvokeQuery(s.run.runId, name), payloads, header);
    (s1, ResultOf(r))
  }

  function Step(s: State, e: Event): State
  {
    match e
    case SignalReceived(name, payloads, header) => Send(s, InvokeSignal(s.run.runId, name), payloads, header)
    case CancelRequested => Send(s, CancelWorkflow(s.run.runId), None, s.run.header)
    case UpdateReceived(name, id, payloads, header) => QueueUpdate(s, name, id, payloads, header)
    case Fired(f) => Fire(s, f)
    case Queried(name, payloads, header, replies, ctx) =>
      Query(WithOracles(s, [], replies, ctx), name, payloads, header).0
    case Traced(replies, ctx) =>
      RunCommand(WithOracles(s, [], replies, ctx), GetStackTrace(s.run.runId), None, s.run.header).0
    case OtherWorkflows(drawn) => s.(counter := s.counter + drawn)
    case TaskStarted(answers, replies, ctx) => Task(WithOracles(s, answers, replies, ctx)).0
    case Closed(replies, ctx) => Close(WithOracles(s, [], replies, ctx))
  }

  function Run(s: State, es: seq<Event>): State
    decreases |es|
  {
    if es == [] then s else Step(Run(s, es[..|es| - 1]), es[|es| - 1])
  }

  /** The state a run has reached after a sequence of events. */
  function After(l: Launch, es: seq<Event>): State { Run(Execute(l), es) }
}
